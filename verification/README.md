# An event-sourced run protocol, modelled and proved

This project models the parts of an agent protocol in which runs are admitted, sequenced, held
back, replayed, logged and paged, and proves what they promise. It is Dafny 4.11; `dafny verify
dfyconfig.toml` checks all of it.

- **The in-memory session** (`RunEvents`, `MemoryRun`, `SessionLedger`, `MemoryBook`, `MemoryOps`,
  `MemoryCalls`, `MemoryGates`, `MemoryHistory`, `MemoryChanges`, `MemoryOutcomes`,
  `MemorySession`). The session is a value, each operation a function on it, and
  `MemorySession.Session` the object whose methods are proved to compute those functions.
  `MemoryChanges` takes the operations apart into single changes, between any two of which a resume
  may come, and `MemoryOutcomes` spells out what each operation answers, publishes and reports. The
  protocol a run's events follow is an automaton of its own (`RunEvents`), and the compaction rules
  are the validator's (`CompactionChecker`, `CompactionRules`): that every trace the session emits
  is accepted by both is a theorem about two components. A ghost log of everything published ties
  the journal, the streams, the steers and the slots to each other.
- **The run log** (`RunLog`, `RunLogReading`): the compacted log means what the whole history
  means, and what a log means is said of its records.
- **The hub session** is modelled in three parts that share no field but the set of subscribers:
  the publication gate (`HubGate`, `GateEffects`), the subscribers' queues (`HubQueues`) and
  shutdown (`HubShutdown`, `ShutdownEffects`). Every critical section under the session's lock is
  one step.
- **The subscription** (`Subscription`, and `SubscriptionSetup` for its setup beside a session that
  goes on), **the client stream** (`ClientStream`, `ClientAcceptance`), **the record file**
  (`FileStore`), **the session list** and **the transcript** (`SessionList`, `Transcript`, with
  `CursorText`), and **monotonic ULIDs** (`Ulid`).

Each state machine comes with a theorem over every history of its steps, whatever their arguments.

## What the code does that a reader might not expect

- `ResolveCall` does not ask whether the run has started. A client that guesses the call id of a
  run still waiting behind another makes the session publish `action.call.started` before
  `run.started`: `MemoryGates.PrematurePublishes` shows it, `MemoryHistory.PrematureHappens`
  reaches it, `MemoryHistory.EveryHistoryTold` gives the exact condition over whole histories, and
  `MemoryGates.ShownIsNotPremature` shows that a client answering only calls it was shown never
  meets it.
- The client stream accepts an envelope with no run id that is not a session event (schema
  validation is optional), and then stands at no run: the next envelope of any run at any sequence
  is accepted. `ClientStream.BoundUnlessLoose` gives the exact condition.
- The error for an event that lost the race against a terminal one (`errTerminalWon`) never occurs
  while operations are serialised: `MemorySession.Session.Emit` answers that it did not.
- An envelope is overtaken by a later one of its run when a gate withheld it for the request it
  settles and lets the run's other envelopes through; `HubGate.EveryHistoryInOrder` gives the exact
  condition, and covering the run in time avoids it.
- A reservation taken after an idle session closed is not due for anything, and there is then no
  subscriber left for it to take: `HubShutdown.DueWhileAttached` shows that while one is attached the
  end is due and covers it.
- A subscription resumed in a run its session does not know looks up no later runs, and misses what
  they had delivered before: `SubscriptionSetup.UnknownStartMisses`.
- The run named by a loss depends on the order of the pending map when no candidate was adopted;
  `HubQueues.LossUnique` gives the exact condition.
- A session whose id is empty, or a native id with a line end, makes cursors that do not decode.
- In the run log, a replacement of one open run under the id of another loses a run; a replacement
  under the run's own id loses nothing, but leaves the run both open and ended in the fold. A record
  that names a run the compacted store has forgotten, and does not settle it, opens it again.

## Conventions

Ids are natural numbers drawn from one counter, 0 standing for an absent one, and streams are counted
by another; a session's ids are told apart by their draw and not by their text. Runs and streams the source reaches by
reference are entries of maps from those ids; the hub's subscribers are objects where their queues
are the subject (`HubQueues`), and ids where only their attachment is (`HubShutdown`). Clock
readings, random bytes, connection outcomes and the moment a gate's deadline fires are arguments.
Sequences are unbounded. The text encodings around cursors are parameters with the one law that
decoding undoes encoding; the record checksum is an arbitrary function. Every lemma turns
automatic induction off, so that what is proved by induction says so in its body.

## Model

| member | source | states |
|---|---|---|
| `RunLog.ShiftSlots` | go/binding/runs.go:83-96 | the in-place renumbering loop over the slot map, taken in any key order, gives the map with every later slot one lower |
| `RunLog.RemoveRun` | go/binding/runs.go:83-96 | removing a run drops its slot and leaves list and map agreeing with the fold's removal |
| `RunLog.OpenRuns` | go/binding/runs.go:98-142 | the loop over records computes the fold: other sessions and ended runs skipped, replacements in place, settled runs removed |
| `RunLog.Stamped` | go/binding/runs.go:47-58 | a replacement without a root takes the root of the first open run it replaces; nothing else is touched |
| `RunLog.CollectSessions` | go/binding/runs.go:60-81 | the sessions are collected once each, in order of first appearance |
| `RunLog.CollectGroup` | go/binding/runs.go:60-81 | the records kept for one open run of a session are exactly that run's records, in log order |
| `RunLog.CollectRuns` | go/binding/runs.go:60-81 | the records kept for a session are the groups of its open runs, in slot order |
| `RunLog.KeptAfter` | go/binding/runs.go:60-81 | an append stamps the record and rewrites the log to the records of the open runs of every session |
| `RunLog.FoldBeside` | go/binding/runs.go:98-142 | the records of one run fold the same behind other open runs as on their own, as long as they end none of those |
| `RunLog.AppendOneSession` | go/binding/runs.go:60-142 | seen from any session, unless the record replaces one open run under the id of another, folding the rewritten store gives the open runs and the map of the old store with the stamped record, and the store is tidy again; replacements under the run's own id included |
| `RunLog.FoldBound` | go/binding/runs.go:98-142 | a run is appended at most once under each id, so a fold never holds more runs than there are ids |
| `RunLog.TwiceLosesRun` | go/binding/runs.go:60-142 | a session whose fold holds one id twice is folded to fewer runs once its store is compacted |
| `RunLog.AppendKeepsMeaning` | go/binding/runs.go:60-142 | for every session at once the rewritten store folds to the open runs of the appended store, if and only if the record does not replace one open run under the id of another |
| `RunLog.AppendKeepsMap` | go/binding/runs.go:83-142 | every session's run-to-slot map stays a bijection with no ended run open, if and only if the record replaces no run under its own id or under the id of another open one |
| `RunLog.KeepsLinked` | go/binding/runs.go:47-158 | a record that replaces no open run under the id of another and reopens no forgotten run keeps the compacted store and the whole history together, for every session |
| `RunLog.OtherwiseParts` | go/binding/runs.go:47-158 | any other record, after a history whose store agrees with it, parts the open runs of the two |
| `RunLog.CompactionKeepsRuns` | go/binding/runs.go:47-158 | after every prefix of a history and for every session the compacted store has exactly the open runs of the whole prefix (order, request, started flag, root), if and only if no record replaces one open run under the id of another and no unsettling record names a run that ended and that the store does not remember |
| `RunLog.CompactionKeepsMeaning` | go/binding/runs.go:47-158 | likewise for the open runs together with a bijective map with no ended run open, if and only if, besides, no record replaces a run under its own id |
| `RunLog.LateRecordPassedOver` | go/binding/runs_test.go:246-259 | a late record of a run replaced by an open one is passed over, whatever it says, and the meaning is kept |
| `RunLog.ReopeningLosesMeaning` | go/binding/runs.go:60-142 | a settled run admitted again is open in the compacted store and not in the full history |
| `RunLog.MemoryRuns.AppendRun` | go/binding/runs.go:153-158 | the in-memory store replaces its records with the rewritten log of its history plus the record |
| `RunLog.MemoryRuns.OpenRunsFor` | go/binding/runs.go:160-164 | the open runs answered are those of the records, and those of the whole history when it keeps its runs |
| `RunLogReading.LogReads` | go/binding/runs.go:98-142 | after every prefix of a log the runs listed are exactly those with a record that no counting record has ended, in the order their places came up; each was admitted when its first record says, is started if and only if a record started it, and has the request of its last admission and the root it came with or took over; if and only if no counting record replaces its own run or an open run under the id of another |
| `RunLogReading.PlainLogReads` | go/binding/runs.go:98-142 | where no record replaces another, a run is listed if and only if it has a record and none that settles it, in the order of first records, under its first record's root or its own id |
| `RunLogReading.TakeoverReads` | go/binding/runs.go:115-126 | a run that takes over an open one stands in its slot, under its root unless it brings one, not started, with its own time and request; the replaced run is gone and the others are as they were |
| `RunEvents.OpeningsTracked` | go/adapter/memory.go:998-1093 | an accepted trace has every opened call, permission, input and compaction closed later or still open in the protocol's state |
| `RunEvents.AcceptedMeans` | go/adapter/memory.go:1810-1912 | an accepted settled trace begins with run.started or is a lone run.cancelled, its only terminal event is its last, and everything opened is closed |
| `CompactionChecker.RunChecker.CompactionEvent` | go/validation/compaction.go:152-192 | starts and ends are paired in place, with a diagnostic for each mismatch |
| `CompactionChecker.RunChecker.CompactionOpening` | go/validation/compaction.go:194-203 | a started compaction run whose compaction has not begun draws a diagnostic for any other event |
| `CompactionChecker.RunChecker.CompactionTerminal` | go/validation/compaction.go:205-229 | at a terminal event: an open compaction, a count other than one, and a wrong stop reason are each reported, the tracks taken in any order |
| `CompactionChecker.RunChecker.RunEvent` | go/validation/state.go:1072-1105 | one event of an unsettled run passes the rules in the validator's order and updates the run's flags |
| `CompactionChecker.SilenceMeansOneCompaction` | go/validation/compaction.go:152-229 | a compaction run that starts, settles and draws no diagnostic holds exactly one compaction, requested, right after run.started |
| `CompactionChecker.SilenceMeansNoneRequested` | go/validation/compaction.go:152-192 | a silent run that no compaction request admitted holds no requested compaction |
| `CompactionChecker.SilenceMeansCompacted` | go/validation/compaction.go:205-229 | a silent run admitted to compact and not go on, whose compactions were completed, stops with "compacted" if it completes |
| `CompactionRules.SilentIffWellCompacted` | go/validation/compaction.go:152-229 | of any run the protocol accepts the checker reports nothing if and only if every compaction is started for a fitting reason under an id of its own, every failure is explained, and a run asked to compact does so first, once, and settles as compacted |
| `CompactionRules.MistakesNamed` | go/validation/compaction.go:152-229 | the first event reported is reported for exactly its own mistakes |
| `MemoryRun.SoundAfter` | go/adapter/memory.go:1810-1912 | publishing an event the protocol and the checker allow keeps a run sound: numbered from 1, accepted, silent for the checker, its fields saying what its events say |
| `MemoryRun.SettleEach` | go/adapter/memory.go:872-904 | settling the pending steers one after another settles each and leaves none |
| `SessionLedger.TailOfRun` | go/adapter/memory.go:1839-1842 | the bounded journal holds a suffix of every run's events |
| `SessionLedger.StreamsSnoc` | go/adapter/memory.go:1896-1911 | a publication reaches exactly the streams of its run, and a terminal one ends them |
| `SessionLedger.SteersSnoc` | go/adapter/memory.go:1887-1895 | a publication settles at most the steer it names, once, in the run it was answered for and above the answered sequence |
| `SessionLedger.SlotsSnoc` | go/adapter/memory.go:1863-1886 | a terminal publication frees its slot and promotes the waiting run, keeping one started and at most one waiting run |
| `SessionLedger.SnapshotLists` | go/adapter/memory.go:915-953 | the reported entries are exactly the unsettled runs, in admission order |
| `MemoryBook.PublishedSound` | go/adapter/memory.go:1810-1912 | one publication keeps the whole session sound: runs, log, streams, steers, slots and start order |
| `MemoryBook.Play` | go/adapter/memory.go:1790-1912 | a script of events the protocol allows is published exactly as written, touching one run and no slot |
| `MemoryOps.InputAskedKeeps` | go/adapter/memory.go:1067-1093 | asking for input applies every pending steer, then publishes the request and the waiting status, and nothing else |
| `MemoryOps.Compacts` | go/adapter/memory.go:744-774 | a compaction publishes one paired start and end under a fresh id, to which the checker has nothing to say |
| `MemoryOps.OpenedKeeps` | go/adapter/memory.go:998-1065 | opening a run publishes exactly run.started, the compaction that is due if any, and the first gate or the end, and leaves the run waiting or settled |
| `MemoryCalls.SettleKeeps` | go/adapter/memory.go:1790-1804 | a terminal event drops the pending steers, settles the run with its status, and opens the run waiting behind it |
| `MemoryCalls.AdmitKeeps` | go/adapter/memory.go:565-656 | an admission takes a fresh id; it waits behind a started run, and otherwise is opened on the spot, last of all runs to start |
| `MemoryCalls.SteerKeeps` | go/adapter/memory.go:776-821 | a steer is answered with its target's last sequence, waits on the target and changes nothing else |
| `MemoryGates.PermissionKeeps` | go/adapter/memory.go:1442-1467 | a granted permission runs the call and asks for input, a denied one cancels the call and fails the run, each publishing exactly its script |
| `MemoryGates.InputKeeps` | go/adapter/memory.go:1469-1498 | an answered input completes the run with exactly its script, the pending steers dropped first |
| `MemoryGates.ResolveKeeps` | go/adapter/memory.go:1356-1429 | resolving keeps the invariant whatever the resolution says, and only adds to the log |
| `MemoryGates.AcknowledgeKeeps` | go/adapter/memory.go:1564-1575 | an acknowledgement publishes action.call.started alone |
| `MemoryGates.ResultKeeps` | go/adapter/memory.go:1600-1620 | a result or error settles the call, starting it first unless acknowledged, and asks for input |
| `MemoryGates.ResolveCallKeeps` | go/adapter/memory.go:1500-1589 | resolving a provided call keeps the invariant if and only if the run has started; the code does not ask |
| `MemoryGates.PrematurePublishes` | go/adapter/memory.go:1500-1589 | resolving the call of a run that has not started publishes action.call.started as the run's first event, which the protocol refuses |
| `MemoryGates.ShownIsNotPremature` | go/adapter/memory.go:1049-1058 | a client that answers only calls whose request was published never breaks the invariant |
| `MemoryGates.CancelKeeps` | go/adapter/memory.go:1622-1685 | an accepted cancellation settles the run as cancelled with exactly its script, started or not; any other answer changes nothing |
| `MemoryHistory.HeldIsSuffix` | go/adapter/memory.go:1707-1719 | what the journal holds of a run is its events from some sequence on |
| `MemoryHistory.GapExactly` | go/adapter/memory.go:1687-1751 | a resume reports a gap if and only if event after+1 exists and was evicted; otherwise it replays precisely the events past the cursor |
| `MemoryHistory.ResumeSound` | go/adapter/memory.go:1687-1751 | a resume between any two publications keeps the session sound, its stream carrying the run past the cursor |
| `MemoryHistory.CloseKeeps` | go/adapter/memory.go:1753-1788 | a session closes only over settled runs, and then no stream is left open |
| `MemoryHistory.PolicyHonoured` | go/adapter/memory.go:270-290 | a starting run compacts for overflow exactly when the history fills the window, otherwise where the policy's share or token count says, and never when the policy is off |
| `MemoryHistory.BusyMeansBoth` | go/adapter/memory.go:574-579 | a run is refused as active if and only if one run has started and another waits |
| `MemoryHistory.ApplyKeeps` | go/adapter/memory.go:539-1788 | every operation keeps the invariant, a provided call's resolution exactly when its run has started |
| `MemoryHistory.EveryHistory` | go/adapter/memory.go:539-1788 | the invariant holds after every prefix of a history of operations if and only if no operation answers the call of a run that has not started |
| `MemoryHistory.RunsTold` | go/adapter/memory.go:998-1912 | every run's events are numbered 1 to n, begin with run.started or are a lone cancellation, end with their only terminal event, close what they open, and draw no compaction diagnostic |
| `MemoryHistory.SteersTold` | go/adapter/memory.go:776-904 | every answered steer is pending on an unsettled run or settled by exactly one event of its run, above the answered sequence |
| `MemoryHistory.StreamsTold` | go/adapter/memory.go:1720-1751 | every stream carries exactly its run's events past its cursor, each once, and ends with the run |
| `MemoryHistory.SlotsTold` | go/adapter/memory.go:915-953 | one started unsettled run at most, one waiting at most and behind it, runs started in admission order, the state listing the unsettled runs in that order |
| `MemoryHistory.RunsToldExactly` | go/adapter/memory.go:539-1912 | after every prefix of a history every run is as stated above, if and only if no operation answers the call of a run that has not started |
| `MemoryHistory.EveryHistoryTold` | go/adapter/memory.go:539-1912 | likewise for the runs, steers, streams and slots together |
| `MemoryHistory.PrematureHappens` | go/adapter/memory.go:1500-1589 | two submissions and a guessed call id make the log of the second run begin with action.call.started |
| `MemoryChanges.ApplyReached` | go/adapter/memory.go:539-1912 | every operation but a premature call answer is reached by single changes (an event, fields of one run, a drawn id, a run enlisted, a steer held, a threshold, the closing), each allowed where it is made; a resume changes only who listens |
| `MemoryChanges.Interleaved` | go/adapter/memory.go:1687-1751 | however resumes are put between changes, every change stays allowed and the session comes out the same but for who listens |
| `MemoryChanges.EveryInterleavingStreams` | go/adapter/memory.go:1687-1751 | the operations of every history with no premature call answer are made of single changes such that, with resumes anywhere between them, every change stays allowed, every stream carries exactly its run's events past its cursor after each, and the session ends telling all the history tells |
| `MemoryChanges.ResumeDisturbsNothing` | go/adapter/memory.go:1687-1751 | a single change is allowed before a resume if and only if it is allowed after it, and comes to the same but for who listens |
| `MemoryOutcomes.PermissionAnswered` | go/adapter/memory.go:1430-1467 | an approval of an awaited permission publishes the grant, the call started and completed, the pending steers applied, the input request and the waiting status; a denial publishes the refusal, the call cancelled, the steers dropped and run.failed; a choice not offered or contradicted is refused and changes nothing |
| `MemoryOutcomes.InputAnswered` | go/adapter/memory.go:1469-1498 | a valid answer to an awaited input publishes it, the reply, the steers dropped and run.completed; an invalid one is refused and changes nothing |
| `MemoryOutcomes.MisdirectedRefused` | go/adapter/memory.go:1356-1429 | an answer of the wrong kind, id or addressee for what a run awaits is refused and changes nothing |
| `MemoryOutcomes.CallAnswered` | go/adapter/memory.go:1600-1620 | an acknowledgement starts an awaited call once; a result completes it and an error fails it, started first unless acknowledged, and the run goes on to its input |
| `MemoryOutcomes.CallMisaddressed` | go/adapter/memory.go:1519-1546 | a call answered under another id or session is unknown, by another responder or for another call it is refused, and nothing changes |
| `MemoryOutcomes.CallSettledOnce` | go/adapter/memory.go:1547-1562 | a settled call is not settled again, and an acknowledgement after an unpublished settlement is late |
| `MemoryOutcomes.CancelSettles` | go/adapter/memory.go:1622-1685 | cancelling a started run publishes the cancelling status, the closing of what it awaits, its steers dropped and run.cancelled; a waiting run only ends; a settled one is answered by its status |
| `MemoryOutcomes.SubmitOpens` | go/adapter/memory.go:998-1066 | an idle session starts the run submitted, compacts it for overflow at 8192 tokens or at its threshold, and leaves it at its first gate in the started slot, with the history counted |
| `MemoryOutcomes.SubmitWaits` | go/adapter/memory.go:539-656 | behind a run under way the run submitted waits, and nothing is published |
| `MemoryOutcomes.SubmitAnswered` | go/adapter/memory.go:539-656 | a submission taken is answered with its run, whether it waits, whether another is under way, and a new stream that carries the run from its first event |
| `MemoryOutcomes.SubmitTaken` | go/adapter/memory.go:539-656 | a submission is taken if and only if it is in order and not both slots are held, and otherwise changes nothing |
| `MemoryOutcomes.CompactOpens` | go/adapter/memory.go:658-774 | an idle session asked to compact publishes the start, one requested compaction, and the gate it goes on to or run.completed; its history is then the summary |
| `MemoryOutcomes.SteerAnswered` | go/adapter/memory.go:776-870 | guidance for the run under way is held by it at the sequence answered; any other target is refused with its reason and sequence |
| `MemoryOutcomes.ResumeAnswered` | go/adapter/memory.go:1687-1751 | the answer is a gap if and only if the event past the cursor was published and evicted, naming the oldest held; otherwise it names the first and last events past the cursor, and one more stream carries exactly those, ended if and only if the run has settled |
| `MemoryOutcomes.ResumeRefusals` | go/adapter/memory.go:1687-1705 | a resume is refused of a closed session, an unknown run and a cursor past the end, and changes nothing |
| `MemoryOutcomes.CloseAnswered` | go/adapter/memory.go:1753-1788 | closing closes the session if and only if every run has settled, and changes nothing else |
| `MemoryOutcomes.SettingsAnswered` | go/adapter/memory.go:1164-1194 | an accepted policy sets the threshold its share, count, or default says, and a refused one changes nothing |
| `MemoryOutcomes.EveryStateTold` | go/adapter/memory.go:915-989 | after every prefix of a history with no premature call answer the session reports itself idle if and only if every run has settled, and otherwise waiting on the run under way; each unsettled run with its sequence, place, and open interaction; and the settlements in the log's order |
| `MemoryOutcomes.EveryHistoryReportable` | go/adapter/memory.go:1810-1912 | over every history with no premature call answer: the settlements are those of the log in order, event ids increase as published, a call's settlement is the event that ended it, a run's interactions are told apart, and a run waits only if admitted to wait |
| `MemorySession.Recorded` | go/adapter/memory.go:1845-1895 | the fields a publication sets in its run, one by one, are the ones the model of a publication sets |
| `MemorySession.Remaining` | go/adapter/memory.go:1887-1895 | the in-place filter drops exactly the settled steer |
| `MemorySession.Session.ListSlots` | go/adapter/memory.go:915-953 | the loop over the two slots gives the reported entries and the running run |
| `MemorySession.Session.Refresh` | go/adapter/memory.go:915-953 | the reported state is rebuilt from the two slots |
| `MemorySession.Session.Deliver` | go/adapter/memory.go:1896-1911 | the two loops over the streams send the event once on each and close each behind a terminal event |
| `MemorySession.Session.Vacate` | go/adapter/memory.go:1863-1886 | a settled run leaves its slot, the waiting run moves up, the settlement is recorded |
| `MemorySession.Session.Retain` | go/adapter/memory.go:1839-1842 | the journal keeps the last events up to its capacity |
| `MemorySession.Session.Publish` | go/adapter/memory.go:1810-1912 | one publication takes the whole session where the model says, answers the promoted run, and does nothing for a settled run |
| `MemorySession.Session.SettleSteers` | go/adapter/memory.go:872-884 | each pending steer is published as applied, in order |
| `MemorySession.Session.DropSteers` | go/adapter/memory.go:892-904 | each pending steer is published as dropped, in order |
| `MemorySession.Session.Emit` | go/adapter/memory.go:1790-1804 | a terminal event settles as modelled, opening the promoted run; the recursion through the promotion terminates, and no terminal event ever came before the one published |
| `MemorySession.Session.EmitInitial` | go/adapter/memory.go:998-1065 | a run is opened as modelled |
| `MemorySession.Session.EmitCompaction` | go/adapter/memory.go:744-774 | a compaction is published as modelled, and a run that does not continue settles there |
| `MemorySession.Session.RequestInput` | go/adapter/memory.go:1067-1093 | the input is asked for as modelled |
| `MemorySession.Session.Submit` | go/adapter/memory.go:539-656 | a submission is refused or admitted exactly as modelled, and the session stays valid |
| `MemorySession.Session.Compact` | go/adapter/memory.go:658-742 | a compaction request likewise |
| `MemorySession.Session.SteerRun` | go/adapter/memory.go:776-821 | a steer is refused with its reason and sequence, or answered and held |
| `MemorySession.Session.FindTarget` | go/adapter/memory.go:823-849 | the target named, or the first started run of the two slots |
| `MemorySession.Session.Resolve` | go/adapter/memory.go:1356-1429 | a resolution is refused or carried out exactly as modelled, and the session stays valid |
| `MemorySession.Session.ResolveCall` | go/adapter/memory.go:1500-1589 | a call resolution is answered and carried out as modelled; the session stays valid if and only if the run had started |
| `MemorySession.Session.JudgeCall` | go/adapter/memory.go:1519-1562 | the refusals of a call resolution, in order |
| `MemorySession.Session.Cancel` | go/adapter/memory.go:1622-1685 | a cancellation is answered and carried out as modelled, and the session stays valid |
| `MemorySession.Session.Recover` | go/adapter/memory.go:1687-1751 | the journal scan answers a refusal, a gap or a replay, and the replayed events, as modelled |
| `MemorySession.Session.Resume` | go/adapter/memory.go:1687-1751 | a resume answers a gap or a replay, and attaches its stream, as modelled |
| `MemorySession.Session.Held` | go/adapter/memory.go:1707-1719 | the loop over the journal finds the run's oldest retained sequence and its events past the cursor |
| `MemorySession.Session.Close` | go/adapter/memory.go:1753-1788 | closing is refused over an unsettled run; otherwise the state is ended and no run changes |
| `MemorySession.Session.UpdateSettings` | go/adapter/memory.go:1164-1194 | the threshold of a valid policy is set on an open session, and nothing else |
| `HubGate.NothingLost` | go/serve/session.go:247-293 | over every history of arming, retargeting, publishing, releasing, lifting and closing, delivered plus withheld is as a multiset exactly what was published |
| `HubGate.SplitInOrder` | go/serve/session.go:284-293 | splitting at a boundary keeps a run's order if and only if its envelopes at or below the boundary come before its others |
| `HubGate.InOrderPublish` | go/serve/session.go:1406-1415 | publishing an envelope keeps its run's order if and only if it is not let through while one of the run is withheld |
| `HubGate.EveryHistoryInOrder` | go/serve/session.go:522-596 | over every history with numbered runs: after every prefix what was delivered of a run, then what is withheld of it, is what was published of it, in order, if and only if no envelope was let through while one of its own run was withheld |
| `HubGate.SettlementsKeepOrder` | go/serve/session.go:247-257 | while every settlement of a gated request belongs to a run its gate covers, nothing overtakes |
| `HubGate.OpenDeliversAll` | go/serve/session.go:565-586 | with the order kept and no gate in place everything published of a run was delivered |
| `HubGate.EveryHistoryGuarded` | go/serve/session.go:552-563 | over every history, since a run was covered the only envelopes of it delivered were released at or below a boundary |
| `HubGate.EveryHistoryPositioned` | go/serve/session.go:1417-1421 | over every history the boundary a gate is armed at is the highest sequence delivered of its run |
| `HubGate.StraySettlementOvertaken` | go/serve/session.go:247-257 | a gated settlement of an uncovered run is overtaken by that run's next envelope |
| `GateEffects.ReleaseLetsGo` | go/serve/session.go:552-563 | a release by the gate in place lets go exactly the withheld envelopes at or below the boundary, in order, and keeps the others; any other release does nothing |
| `GateEffects.PublishWithholds` | go/serve/session.go:1406-1415 | an envelope is withheld if the gate in place covers its run, its task or the request it settles, and delivered otherwise |
| `GateEffects.StatePublished` | go/serve/session.go:348-370 | a state event of an open session takes the next state sequence and is published |
| `GateEffects.LiftLetsGo` | go/serve/session.go:565-586 | lifting the gate in place, or closing, delivers what was withheld in order |
| `GateEffects.ArmPutsInPlace` | go/serve/session.go:522-550 | arming puts an empty gate of its own in place over the run, task and request, unless one is in place or the session is closed |
| `GateEffects.RetargetCovers` | go/serve/session.go:672-681 | retargeting the gate in place covers the run too, once, and uncovers none |
| `GateEffects.EveryHistoryHeld` | go/serve/session.go:522-596 | over every history the envelopes withheld are exactly those published while covered that no later release, lifting or closing has let go, in the order published |
| `HubGate.GatedSession.ArmGate` | go/serve/session.go:522-550 | a gate is put in place at the delivered position of its run, unless another is in place or the session is closed |
| `HubGate.GatedSession.RetargetGate` | go/serve/session.go:672-681 | a run is covered once, by the gate still in place |
| `HubGate.GatedSession.IsWithheld` | go/serve/session.go:247-257 | an envelope is withheld for its run, its task or the request it settles |
| `HubGate.GatedSession.Publish` | go/serve/session.go:1406-1415 | an envelope is withheld or delivered |
| `HubGate.GatedSession.PublishSessionEvent` | go/serve/session.go:348-370 | a state event takes the next state sequence, and is refused once the session is closed |
| `HubGate.GatedSession.ReleaseToBoundary` | go/serve/session.go:552-563 | the withheld envelopes at or below the boundary are delivered in order and the rest kept |
| `HubGate.GatedSession.LiftGate` | go/serve/session.go:565-586 | the gate in place is lifted and what it withheld delivered; another gate is left alone |
| `HubGate.GatedSession.MarkClosed` | go/serve/session.go:1508-1531 | closing delivers what the gate withheld |
| `HubGate.Split` | go/serve/session.go:284-293 | the loop splits the withheld envelopes at the boundary |
| `HubShutdown.EveryHistoryAccounted` | go/serve/session.go:1070-1151 | in every reachable state a closed session's subscribers are covered by the deferred cohort if there is one, and a reader, a closing under way or a due reservation is left to take them |
| `HubShutdown.NoneLeftAttached` | go/serve/session.go:1340-1404 | in every reachable state a closed session with no reader, no reservation and no closing under way has no subscriber |
| `HubShutdown.DueWhileAttached` | go/serve/session.go:1508-1566 | in every reachable state, while a subscriber is attached to a closed session with no reader and no closing under way, the end is due to the outstanding reservations and its cohort covers every subscriber, so that the last reservation given back takes them all |
| `HubShutdown.ClosedOnlySheds` | go/serve/session.go:997-1011 | a closed session takes no subscriber on |
| `HubShutdown.ReservedAfterClose` | go/serve/session.go:1508-1566 | a reservation taken after an idle close finds nothing due, and no subscriber to cover |
| `ShutdownEffects.WhoLeaves` | go/serve/session.go:1340-1404 | subscriber by subscriber, who leaves at each step: with the session's events, with a pending failure, with the last reservation, with the end of the run followed, exposed to another's failure, or at closing |
| `ShutdownEffects.WhomDeferred` | go/serve/session.go:1340-1404 | whom an end is put off for and when it is due, after each step |
| `ShutdownEffects.StepStands` | go/serve/session.go:1056-1151 | the readers, reservations, serials, run followed and flags after each step |
| `ShutdownEffects.SessionOnlySpared` | go/serve/session.go:1480-1489 | over every history in which each subscriber attaches once, no run's end takes a subscriber of the session alone along before the session closes |
| `HubShutdown.ClosingSession.Subscribe` | go/serve/session.go:997-1011 | a subscriber is attached to an open session whose event source has not failed |
| `HubShutdown.ClosingSession.FailSessionEvents` | go/serve/session.go:385-401 | a failed event source detaches every subscriber unless the session is closing |
| `HubShutdown.ClosingSession.StartClosing` | go/serve/session.go:864-868 | the session is marked as closing |
| `HubShutdown.ClosingSession.FailedClose` | go/serve/session.go:870-879 | a failed closing is undone and a failure of the event source it held back is replayed |
| `HubShutdown.ClosingSession.Supersede` | go/serve/session.go:1105-1114 | a newer run delivers a pending failure to its cohort and clears what was deferred |
| `HubShutdown.ClosingSession.AdoptRun` | go/serve/session.go:1070-1087 | a reservation becomes a reader, and the run becomes current unless it was queued |
| `HubShutdown.ClosingSession.StartRun` | go/serve/session.go:1056-1068 | a reader is added and its run becomes current |
| `HubShutdown.ClosingSession.PromoteCurrent` | go/serve/session.go:1089-1103 | a newer run's first envelope that does not end it makes it current |
| `HubShutdown.ClosingSession.ReleaseReservation` | go/serve/session.go:1132-1151 | the last reservation finishes what is due |
| `HubShutdown.ClosingSession.ExitReader` | go/serve/session.go:1340-1404 | a reader that leaves defers, or takes along, the subscribers as modelled |
| `HubShutdown.ClosingSession.Close` | go/serve/session.go:1508-1566 | closing defers to readers or reservations, or leaves the rest of the closing to FinishAll |
| `HubShutdown.ClosingSession.FinishAll` | go/serve/session.go:1468-1478 | the closing that unlocked takes every subscriber off |
| `HubShutdown.Snapshot` | go/serve/session.go:1480-1489 | the loop over subscribers leaves out those of the session alone until it is closed |
| `HubQueues.EveryHistorySound` | go/serve/session.go:915-943 | over every history of a subscriber each run's pending count is its envelopes still on their way, consumed, in hand and queued make up what it was offered, and that is all that was delivered to it while it is live, a prefix of it after |
| `HubQueues.NewestAcknowledged` | go/serve/session.go:915-928 | the run remembered as acknowledged is the newest so far |
| `HubQueues.OfferTaken` | go/serve/session.go:1417-1444 | a live subscriber with room gets the envelope at the end of its queue and goes on, one without is stopped naming the loss, one the envelope does not concern is passed by |
| `HubQueues.PassedOver` | go/serve/subscribe.go:289-296 | an envelope passed over as older changes no acknowledgement |
| `HubQueues.LossUnique` | go/serve/session.go:945-974 | a loss names one run whatever the order of the pending map, if and only if some candidate not spent was adopted or all of those are one run; serials are told apart by having been issued |
| `HubQueues.EveryLossUnique` | go/serve/session.go:902-974 | over every history of a subscriber whose offers carry issued serials, a loss names one run while the session has a current run that was adopted |
| `HubQueues.Subscriber.Track` | go/serve/session.go:930-935 | a run's pending count goes up and its serial is noted |
| `HubQueues.Subscriber.Untrack` | go/serve/session.go:937-943 | a run's pending count goes down, not below zero |
| `HubQueues.Subscriber.Acknowledge` | go/serve/session.go:915-928 | a count goes down and the newest run acknowledged is remembered |
| `HubQueues.Subscriber.LossRun` | go/serve/session.go:945-974 | the run named is a newest candidate not spent, whatever order the pending map is taken in |
| `HubQueues.Subscriber.Offer` | go/serve/session.go:1417-1444 | a delivery is queued within the capacity, or the subscriber is stopped with the run it lost |
| `HubQueues.Subscriber.Observe` | go/serve/subscribe.go:289-314 | an envelope taken off the queue is passed over or acknowledged, and counted off |
| `HubQueues.Exchange.AdoptRun` | go/serve/session.go:1070-1087 | a run takes the next serial, is no longer finished, and is current unless queued; serials tell runs apart |
| `HubQueues.Exchange.PromoteCurrent` | go/serve/session.go:1089-1103 | a newer run becomes current with an envelope that does not end it |
| `HubQueues.Exchange.FinishRun` | go/serve/session.go:1340-1345 | a run whose reader left is finished |
| `HubQueues.Exchange.Deliver` | go/serve/session.go:1417-1444 | every attached subscriber is offered the delivery, in any order, those that could not take it are detached, and with a current run the loss named is the only one |
| `Subscription.LaterRuns` | go/serve/session.go:1302-1317 | the serials taken in any order give exactly the runs newer than one, sorted by serial, and none for an unknown run |
| `Subscription.LaterRunsNewer` | go/serve/subscribe.go:69-88 | later runs are distinct, are not the run itself and stay newer than it, however many runs are adopted while they are looked up |
| `Subscription.EveryHistorySound` | go/serve/subscribe.go:169-314 | over every history, whatever the live queue holds and whichever runs the session adopts: sequences handed out strictly increase per run, no run older than the first is handed out, and an overflow names the last sequence handed out of its run, its cursor, or 0 |
| `Subscription.EveryStepTold` | go/serve/subscribe.go:169-314 | over every history each replayed envelope and each live one that is due is handed out and nothing else is, and a step ends the subscription with its own error or not at all |
| `Subscription.ReplaysInTurn` | go/serve/subscribe.go:169-192 | over every history the runs set out to are replayed one after another, and the live queue comes when all have been |
| `Subscription.NoOlderRun` | go/serve/subscribe.go:289-296 | over every history no run is handed out that the session adopted before the one resumed in |
| `Subscription.ExactlyOnce` | go/serve/subscribe.go:37-89 | replays of the run resumed and of every later run, one after another, and a live queue overlapping each hand out every envelope past the cursor, or from the start of a later run, exactly once and in order |
| `SubscriptionSetup.EveryHistoryOrdered` | go/serve/subscribe.go:63-89 | over every interleaving of the setup with the session: the live queue carries the run from where it was attached on, and what was delivered by then is known to the look-up and within what the replays opened can reach |
| `SubscriptionSetup.ExactlyOnceSubscribed` | go/serve/subscribe.go:37-89 | however the setup is interleaved with the session, a subscription resumed in a run the session knows hands out each envelope past its cursor, and of every later run from its start, exactly once and in order |
| `SubscriptionSetup.UnknownStartMisses` | go/serve/session.go:1302-1317 | in a session that does not know the run resumed, an envelope of another run delivered before the queue was attached is missed |
| `Subscription.LiveSubscription.Resume` | go/serve/subscribe.go:51-88 | a subscription resumed at a cursor starts with the later runs of the session, or none for one run, and knows its first run's serial |
| `Subscription.LiveSubscription.AdoptRun` | go/serve/session.go:1070-1087 | a run the session adopts takes a serial above all others |
| `Subscription.LiveSubscription.TakeReplayed` | go/serve/subscribe.go:267-287 | a replayed envelope is handed out and noted; an error ends the subscription, an overflow with the position reached |
| `Subscription.LiveSubscription.EndReplay` | go/serve/subscribe.go:169-185 | a replay gives way to the next, or to the live queue; an abandoned one to the live queue |
| `Subscription.LiveSubscription.Observe` | go/serve/subscribe.go:289-314 | a live envelope is handed out unless it is older than the first run or at or below the position |
| `Subscription.LiveSubscription.EndOverflowed` | go/serve/subscribe.go:201-243 | an overflow's last sequence is where the subscription stands in the run named |
| `ClientStream.EveryHistorySound` | go/client/events.go:363-437 | over every history the stream stands at the last run envelope accepted, unless a run-less one came since |
| `ClientStream.BoundUnlessLoose` | go/client/events.go:363-437 | whether or not the connection is resuming, the next run envelope accepted is bound to follow the last if and only if nothing run-less was accepted since |
| `ClientStream.EveryHistoryContiguous` | go/client/events.go:97-437 | whatever the server sends and however often the connection drops, with no run-less envelope but session events accepted, consecutive run envelopes are the next of the same run or the first of another |
| `ClientStream.RunlessUnmoors` | go/client/events.go:387-415 | a run-less envelope numbered 1 is accepted in the middle of any run, and after it any run at any sequence |
| `ClientStream.RunlessBreaksContiguity` | go/client/events.go:387-415 | a concrete history in which it happens |
| `ClientStream.ResumedIsSuccessor` | go/client/events.go:219-230 | a reconnect asks for the last sequence accepted, and the first envelope accepted after it is the successor in the same run |
| `ClientStream.ResumingUntilTaken` | go/client/events.go:387-403 | session events leave a resumption pending, and the first other envelope ends it with the successor |
| `ClientAcceptance.AnswersExactly` | go/client/events.go:363-437 | after a run envelope: a session event is accepted, of the same run the successor alone, of another run the first alone and none while resuming; every other frame stops the stream as malformed, a duplicate, a gap or a resume mismatch |
| `ClientAcceptance.FirstAnswered` | go/client/events.go:387-437 | before one: a live stream accepts any run envelope, and one resuming from a cursor its successor alone, of the cursor's run |
| `ClientAcceptance.EveryProperFrameTaken` | go/client/events.go:97-437 | over every history of connections and drops, the frames of a server that goes on where it left off are all accepted, in order, and none stops the stream |
| `ClientAcceptance.LostConnection` | go/client/events.go:144-176 | over every history a lost connection ends the stream in order when the last run envelope ended its run, as a failure when it is strict or three connections in a row brought nothing, and otherwise not at all |
| `ClientAcceptance.ConnectionAnswered` | go/client/events.go:185-230 | an attempt asks from where the stream stands, its opening cursor, a beginning guessed once, or live; it resumes if it asked from somewhere, gives up a guess that cannot be served, ends on a refusal, and tries again without an answer once it was connected |
| `ClientStream.EventStream.Judge` | go/client/events.go:363-437 | the refusals of an envelope, in order |
| `ClientStream.EventStream.Deliver` | go/client/events.go:363-437 | an envelope is accepted or the stream stopped, as judged |
| `ClientStream.EventStream.ChooseCursor` | go/client/events.go:219-230 | the cursor is the last sequence of the run, the starting one, a guess at 0, or none |
| `ClientStream.EventStream.Attempt` | go/client/events.go:185-217 | an attempt to connect opens, retries without the guess, waits, or stops the stream |
| `ClientStream.EventStream.Disconnect` | go/client/events.go:138-173 | a drop ends a settled stream, counts empty connections, and stops a strict one |
| `FileStore.UnframeFrame` | go/binding/file.go:204-217 | for every payload and checksum function a framed payload unframes to itself |
| `FileStore.ScanResumes` | go/binding/file.go:128-151 | a file that agrees with another up to where that was scanned is scanned on from there to the same length as from zero |
| `FileStore.TornLogRepaired` | go/binding/file.go:58-96 | a log cut at any byte is repaired to exactly the records written whole |
| `FileStore.LogRead` | go/binding/file.go:239-273 | a log reads back as the payloads it was written from, and a torn record after it is an error |
| `FileStore.KeptIsLog` | go/binding/file.go:128-151 | whatever a file holds, what a scan keeps of it is a log of readable records |
| `FileStore.OpenedLog` | go/binding/file.go:25-50 | a store opened over a log with a torn piece after it holds exactly the log's records |
| `FileStore.Store.constructor` | go/binding/file.go:25-50 | any file is opened and cut back to the records it starts with |
| `FileStore.Store.RepairAny` | go/binding/file.go:58-96 | whatever a file that only grew holds, it is cut back to a log |
| `FileStore.Store.ReadLineAt` | go/binding/file.go:104-126 | the line at an offset, if it has an end |
| `FileStore.Store.ValidatedThrough` | go/binding/file.go:128-151 | the loop finds how far whole readable records go |
| `FileStore.Store.LastRecordStart` | go/binding/file.go:153-173 | the offset found, looking back a window, starts a record |
| `FileStore.Store.Repair` | go/binding/file.go:58-96 | while the file only grew, it is cut to what a full scan keeps, and the scan starts at the cached offset |
| `FileStore.Store.Append` | go/binding/file.go:175-194 | a write cut at any byte after a repair leaves the earlier records whole and the new one whole or torn |
| `FileStore.Store.Read` | go/binding/file.go:239-273 | the entries are the payloads written whole, or an error when a torn record follows |
| `SessionList.OrderedIsStableSort` | go/binding/page.go:34-35 | the list is a sorted permutation of the sessions that keeps entries of one key in order |
| `SessionList.Search` | go/binding/page.go:36-43 | binary search finds the first entry past a key of a sorted list |
| `SessionList.CursorRoundTrip` | go/binding/page.go:59-77 | a cursor decodes to its key if and only if the key has a session id |
| `SessionList.List` | go/binding/page.go:27-50 | a page is the first entries past the cursor's key up to the limit, with a cursor when more follow; a bad limit or cursor is refused |
| `SessionList.ListAnswers` | go/binding/page.go:27-50 | of a limit from 1 to 100, none meaning 50, a page holds as many entries past the cursor as it allows, in order and with none between left out, and a cursor if and only if more follow; other limits and unreadable cursors are refused |
| `SessionList.WalkAscends` | go/binding/page.go:27-77 | over snapshots that change between pages, the keys returned strictly ascend, so none comes twice |
| `SessionList.WalkReturnsAll` | go/binding/page.go:27-77 | a walk to the end returns every entry present in all snapshots exactly once, in order |
| `Transcript.IDsDistinct` | go/adapter/transcript.go:78-92 | with nondecreasing offsets the entry ids are distinct |
| `Transcript.IDsStable` | go/adapter/transcript.go:78-92 | appending items changes no id already given |
| `Transcript.TranscriptIDs` | go/adapter/transcript.go:78-92 | the nested loops give each item its offset and its place among equal offsets |
| `Transcript.CursorRoundTrip` | go/adapter/transcript.go:103-121 | a cursor decodes to its entry and offset if and only if the native id holds no line end, and is refused otherwise |
| `Transcript.FitOrSmallest` | go/adapter/transcript.go:129-146 | an entry is fitted to the page unless it is over it with no text, reduced, one part kept |
| `Transcript.FitEntry` | go/adapter/transcript.go:129-146 | the halving loops find that cut |
| `Transcript.CutText` | go/adapter/transcript.go:226-235 | the longest prefix within the bound that ends where a character starts |
| `Transcript.FilledHolds` | go/adapter/transcript.go:44-57 | a page holds consecutive items under their ids, at least one while any is left, at most the limit, and more bytes than the budget only as a single entry |
| `Transcript.PageFull` | go/adapter/transcript.go:44-57 | a page stops at the last item, at the limit, or before an item that does not fit whole, and only a first item that does not fit by itself is cut |
| `Transcript.CutsTextsFirst` | go/adapter/transcript.go:129-146 | an entry is cut to the largest bound tried that fits, and reduced only when no text is left of it |
| `Transcript.TranscriptPage` | go/adapter/transcript.go:21-68 | the page for a cursor, with its gap, completeness and next cursor |
| `Transcript.CursorResumes` | go/adapter/transcript.go:58-76 | a cursor taken at a position starts the next page there, also after growth, with no gap |
| `Transcript.LostCursorGap` | go/adapter/transcript.go:21-43 | a cursor whose entry is gone starts over with a gap: pruned if and only if the transcript is empty or begins past it, otherwise rewritten |
| `Transcript.TailResumes` | go/adapter/transcript.go:70-76 | resuming at the tail after growth yields exactly the new items |
| `Transcript.WalkCovers` | go/adapter/transcript.go:21-68 | following the cursors while the transcript grows visits the items in order, each exactly once |
| `Transcript.WalkEnds` | go/adapter/transcript.go:21-68 | over fixed items the walk is complete after at most as many pages as items |
| `Ulid.EncodeBase32` | go/sdk/ids.go:48-58 | the bit loop packs five bits to a symbol into the buffer, leaving the part before it alone |
| `Ulid.PackedValue` | go/sdk/ids.go:48-58 | sixteen digits packed from ten bytes write the same number |
| `Ulid.IncrementRandom` | go/sdk/ids.go:60-68 | the carry loop counts the bytes up in place, or reports them full and leaves zeros |
| `Ulid.IncrementedAdds` | go/sdk/ids.go:60-68 | counting up adds one to the number, and fails if and only if every byte is full |
| `Ulid.IdOrder` | go/sdk/ids.go:24-46 | ids are ordered as texts by clock reading and then by random part |
| `Ulid.IdReads` | go/sdk/ids.go:36-58 | an id reads as 26 base-32 digits, the first ten writing the clock reading within 48 bits and the others the random part |
| `Ulid.NextReads` | go/sdk/ids.go:24-36 | the next id reads the clock given and the bytes drawn, but within one reading counts the random part up by one while it is not full |
| `Ulid.NextIsHigher` | go/sdk/ids.go:24-46 | the next id is higher if and only if the clock moved on, or stood still with the random part not full |
| `Ulid.IdsIncrease` | go/sdk/ids.go:24-46 | ids strictly increase over any calls with nondecreasing clock readings and no overflow within one |
| `Ulid.Generator.NewULID` | go/sdk/ids.go:24-46 | the generator's state and id are as modelled, from a clock reading and fresh bytes |
| `Ulid.SpellClock` | go/sdk/ids.go:38-43 | the loop writes the clock reading in ten symbols, the last first |

## Left out

- JSON encoding, schema compilation, CRC-32 and base64url (section 5 of RFC 4648) themselves: payload sizes, checksums and encodings are parameters.
- Models, tools, instructions and feature gates of the in-memory session: a submission carries whether its controls are refused and whether it calls a tool.
- The texts of messages: the history estimate is counted in tokens handed in with a submission, and the session's own replies by their fixed length.
- Channel capacities and blocking sends of the in-memory session: a stream takes whatever it is sent.
- Context cancellation, which ends any operation of the in-memory session before it starts.
- `SwitchModel`, `State`, `Models` and `Tools`: they read or set fields nothing else here depends on.
- The file-backed run store (`fileRuns`): it rewrites a file with the records the in-memory store keeps.
- Nameless streams of the hub (`adoptOrphan`, `bindRun`) and the choice of which subscribers an erring run exposes: an exit takes the exposed set as an argument.
- Waiting for a gate, and the drain protocol that hastens a reader: arming is a step enabled when no gate is in place, and a drained envelope is a published one.
- The instant between counting an envelope as pending and putting it on a subscriber's channel: an offer is one step.
- The selection loops of `Subscription.next`, which choose among ready channels: each arrival is a step that may come at any time.
- The content of a replay opened while its run goes on: a subscription is given each replay's envelopes, at least those made when it was opened, and an abandoned replay is one step.
- Frame parsing, back-off and steer holding of the client stream: a frame arrives parsed, and connection attempts are steps.
- File system errors, and a file that shrinks or is rewritten between repairs.
- ShutdownEffects.SessionOnlySpared: asks that each subscriber attach once, as one that is made anew for each subscription does.
- SubscriptionSetup.ExactlyOnceSubscribed: asks that the run looked at be adopted once, and that the session know the run resumed.
- Subscription.EveryHistorySound: asks of a replay that it carry its own run's envelopes numbered past its start, as an adapter's resume promises.
- HubGate.EveryHistoryInOrder: asks that each run's publications be named and numbered upward.
- FileStore.Store.Repair: asks that the file only grew since the last repair.
- SessionList.WalkReturnsAll: asks that each snapshot list a session once and under a nonempty id.
- Nano ids, the registries of sessions and adapters, HTTP, SSE and process plumbing.
