# Verification of the decision engine's core

The repository turns trading signals into decisions, waits for price to reach a
level before entering, measures what happened, and anchors a hash of every
decision on a chain so that the prediction can be shown to have come before the
result. This project models the parts that carry those guarantees and proves
them in Dafny. `dafny verify dfyconfig.toml` checks everything.

## How it is laid out

| files | what they model |
|---|---|
| `Collections`, `Directions` | an option type, an insertion-ordered dictionary, lower-casing and stripping of words |
| `AnchorBase`, `Outbox` | the unit of anchoring work and its dedupe key; the outbox's memory, its log lines, replay and each operation as new memory plus appended lines |
| `OutboxReplay`, `OutboxRuns`, `OutboxRefinement`, `OutboxBackoff` | what replay rebuilds; runs of enqueue, drain, requeue, compaction and crashes; the log as a refinement of memory; backoff over a run |
| `OutboxService` | the `Outbox` class, each method proved against those functions, and a drain and a requeue as runs |
| `AnchorIndex`, `Lifecycle`, `LifecycleLog`, `LifecycleUpdates`, `LifecycleHooks`, `LifecycleExamples` | the anchor index; whole stories of outbox, index and handlers with crashes; their history tied to the durable log; what a Superseded status says about accepted updates; which landed signals are indexed; stories that show what the conditions are for |
| `EngineLifecycle`, `EngineStory` | the engine's handlers, and why what they do is a story |
| `Classify`, `Resolver` | the first-hit classifier and the registry of signals awaiting measurement |
| `Gates`, `Pipeline` | the gate loop and the flag-free meaning it refines |
| `ZoneMemory` | the pruned sliding window, proved equal to the full history |
| `EntryGeometry`, `Watcher`, `OrderGeometry` | one armed entry's price automaton, the watcher's collection of them, and where its orders lie |
| `Targets` | the stop and target arithmetic and the shipped tables |
| `Levels` | hourly aggregation, swing levels and the nearest-level queries |
| `Dgml`, `DecisionRecord`, `RecordReading`, `SealedTree` | hashing and sealing of element trees, the published record, reading it back by names, and sealing in place on linked nodes |

Where the source keeps state in an object, the model is a class whose methods
are proved equal to functions on the object's abstract value (`Memory()`,
`State()`, `Tree()`), and the theorems are about those functions and about runs
of them. A crash is an event: it drops memory and replays the log, and it can
fall between any two appends, between a backend's return and the line that
records it, and between an enqueue and the index row that follows it.

The outside world is a parameter: a backend is any function from attempts to
replies, a market any function from records to bars or none, a venue any
function to quotes, a gate any function from derived values to new ones and an
answer. Times, prices and distances are reals, the clock is read once per
operation, ids are fresh numbers.

## What turned out not to hold

- Compaction does not keep parked work: it writes parked lines without their
  entries, and replay parks only what is already pending
  (zcastor/anchor/outbox.py:300-320, 119-124). `CompactionCanLoseParkedWork`
  gives the input. `CompactionLosesExactly` says which keys go, key by key,
  `NothingIsEverLostIff` which runs never lose one, and
  `CompactionIsFaithfulIffNothingParked` when the whole memory survives.
- `seal` enters only direct children marked for attestation
  (zcastor/record/dgml_xml.py:109-111), so an attested element under an
  unattested parent is never sealed, although the docstring speaks of sealing
  depth-first. `SealMissesHiddenClaim` gives the smallest such tree, and
  `SealReachesAllIffNested` the exact shape for which every attested element
  ends up verifiable. The record that the program builds has that shape, so only
  a direct call of `seal` can meet the failure.
- An armed stop need not lie on the losing side of its zone. `derive` strips the
  signal's direction (zcastor/entry/zones.py:74) while the fallback in `arm` and
  the entry's own reading only lower-case it (zcastor/entry/watcher.py:95,
  zcastor/entry/pending.py:88): `BlankBuyIsArmedBackwards` arms " buy" without a
  derived direction as a sell whose stop is below its zone. `StopIsBeyondZoneIff`
  gives the condition on the two readings and `OwnWordAgreesIff` the words that
  break it. The direction gate always supplies a stripped word when it runs
  (zcastor/gates/direction.py:28-33), and then they agree (`GateWordAgrees`).
- A Superseded status does not by itself mean that the signal's own update was
  accepted: if two dossiers land under the same record id of one registry, the
  second update is refused as already queued and its signal is marked anyway.
  `SharedRecordIdHidesAnUpdate` gives the story, and it is not far-fetched: a
  receipt without a record event falls back to the registry's id and then to 0
  (zcastor/anchor/nvnm.py:280-283, 419). `SupersededHasItsUpdateIff` says exactly
  when the signal does have its own update: when no other signal that landed
  under the same record had one accepted.
- A Superseded status does not by itself mean that the chain will hear of it, nor
  is one update per signal guaranteed, when a compaction drops a refused update
  that was parked only: `SupersededCanBeForgotten` and
  `TwoUpdatesAfterUncoveredCompaction` give the stories. With every rewriting
  compaction covered both hold (`SupersededIsOutstanding`,
  `AtMostOneUpdatePerSignal`).
- A landed dossier need not be indexed: the hook that writes its row runs after
  the sent line (zcastor/anchor/outbox.py:227-241), and a crash between the two
  is never made up for, so every later outcome report changes nothing
  (`MissedHookIsNeverMadeUp`). `IndexedIff` says exactly which signals are
  indexed.
- A zone is not always as wide as its configured size: below a size of one the
  bucket is multiplied by zero and every price shares one zone
  (zcastor/risk/zones.py:68). `SameBucketIff` says exactly which prices share one.
- The risk cap checked at fill time does not bound what a fill risks. It is
  applied to the zone-to-stop distance (zcastor/entry/watcher.py:222-236), and
  every plan that passes can be filled beyond it (`EveryPlanCanExceed`); with a
  cap that the zone-to-stop distance just meets every admissible fill exceeds it
  (`TightCapIsAlwaysExceeded`). Some admissible fill is within the cap if and
  only if the buffer and the confirmation together are (`SomeFillIsCoveredIff`).

## Model

| member | source | states |
|---|---|---|
| OutboxReplay.ReplayEnqueued | zcastor/anchor/outbox.py:105-112 | an enqueued line makes its id pending unless its key is already done, and moves nothing else |
| AnchorBase.SameUnitIff | zcastor/anchor/base.py:74-84 | two entries are one unit of work if and only if both are updates of the same registry, record and status, or neither is an update and registry and checksum agree |
| OutboxReplay.ReplaySent | zcastor/anchor/outbox.py:113-118 | a sent line makes its key done and takes its id out of pending |
| OutboxReplay.ReplayParked | zcastor/anchor/outbox.py:119-125 | a parked line moves its id from pending to parked, and does nothing to an id that is not pending |
| OutboxReplay.ReplayLiveLines | zcastor/anchor/outbox.py:300-320 | loading the live part of a compacted log rebuilds pending (order and retry fields included) and the done set |
| OutboxReplay.CompactionIsFaithfulIffNothingParked | zcastor/anchor/outbox.py:300-320 | compacting and reloading gives back the same pending, done and parked if and only if nothing is parked |
| OutboxRuns.StepIsMove | zcastor/anchor/outbox.py:165-261 | every event of a run is one of six moves on pending, parked, done and log |
| OutboxRuns.StepKeepsInv | zcastor/anchor/outbox.py:105-320 | every event keeps the invariant: ids are keys, entries are what was enqueued, equal keys mean equal ids, no pending key is done, log and memory agree |
| OutboxRuns.RunKeepsInv | zcastor/anchor/outbox.py:105-320 | the invariant holds after every run of enqueue, drain, requeue, compaction, crash and reload |
| OutboxRuns.SubmissionsPerKey | zcastor/anchor/outbox.py:165-241 | after any run, submit has returned normally for a key exactly once if it is done, never if not, plus once per crash that fell between a return and its sent line; the log always knows the done set |
| OutboxRuns.LiveKeysAreUnique | zcastor/anchor/outbox.py:165-177 | across pending and parked, two entries have the same dedupe key if and only if they are the same entry, and no pending key is done |
| OutboxRuns.UnknownOpIsParked | zcastor/anchor/base.py:114-119 | an accepted entry with an unknown operation is parked at its first due attempt and never counted as returned, whatever the backend would answer |
| OutboxRuns.AttemptSettles | zcastor/anchor/outbox.py:190-261 | what one attempt does to queue, done, parked and log, answer by answer: not due and already done are not submitted, an acceptance finishes the key and logs what the chain returned, a refusal parks with its error, an unavailable chain waits unless that was the last attempt, and an unknown operation is a refusal |
| OutboxRuns.OnlyKnownOperationsAreSent | zcastor/anchor/base.py:114-119 | over every run each line that says an entry was sent names an accepted entry whose operation is one of the two known |
| OutboxRefinement.StepKeepsQueue | zcastor/anchor/outbox.py:83-125 | each event keeps the replayed log and memory in step: same pending order, same done |
| OutboxRefinement.ReplayRebuildsMemory | zcastor/anchor/outbox.py:83-125 | after any run that compacts only with nothing parked, replaying the log rebuilds pending in order and done, retry fields aside, and parked up to entries also pending or done |
| OutboxRefinement.FirstTornAppendIsHarmless | zcastor/anchor/outbox.py:83-102 | the first crash in mid-append reloads to the state just before or just after the interrupted event |
| OutboxRefinement.AcceptedIsNeverLost | zcastor/anchor/outbox.py:129-181 | every accepted record's key stays pending, parked or done, in memory and in what the log reloads to, as long as no compaction runs while a key is parked only |
| OutboxRefinement.NothingIsEverLostIff | zcastor/anchor/outbox.py:129-320 | at every point of a run every accepted key is still pending, parked or done, in memory and in what the log reloads to, if and only if no compaction of the run that rewrote the log found a key that was parked only |
| OutboxRefinement.NoKeyIsAcceptedTwice | zcastor/anchor/outbox.py:165-181 | over every run whose rewriting compactions find no key parked only, two accepted entries have the same dedupe key if and only if they are the same entry |
| OutboxRefinement.CompactionLosesExactly | zcastor/anchor/outbox.py:300-320 | after compaction and reload a key is gone if and only if it was parked and neither pending nor done |
| OutboxRefinement.CompactionCanLoseParkedWork | zcastor/anchor/outbox.py:300-320 | a concrete run that loses an accepted record: refuse, compact, restart |
| OutboxRefinement.RunIsBlindToTheLog | zcastor/anchor/outbox.py:165-297 | two processes with equal memory append the same lines and stay equal, whatever their logs held |
| OutboxRefinement.CompactionIsInvisible | zcastor/anchor/outbox.py:300-320 | with nothing parked, every later sequence of enqueue, drain and requeue rounds gives the same memory, submissions and lines on the compacted and reloaded box as on the original |
| OutboxBackoff.DelayIsMonotoneAndCapped | zcastor/anchor/outbox.py:243-253 | the delay starts at 5 s, doubles up to 900 s, never decreases, and is 900 s from the ninth failure on |
| OutboxBackoff.WaitedIsLinearAfterNine | zcastor/anchor/outbox.py:243-253 | the delays before the k-th attempt add up to 1275 + 900(k-9) seconds for k >= 9 |
| OutboxBackoff.DeadChainIsNotHammered | zcastor/anchor/outbox.py:185-253 | in any crash-free run where one entry only ever meets an unavailable backend and is not requeued, its k-th attempt comes at least 1275 + 900(k-9) s after the first, and it stays pending iff the attempt limit is 0 or not yet reached |
| OutboxService.DrainIsARun | zcastor/anchor/outbox.py:185-224 | a drain is a run of attempts: same memory and lines, as many submissions returned as it reports sent, as many hook calls |
| OutboxService.RoundCounts | zcastor/anchor/outbox.py:190-224 | a round counts as skipped what the chain was not asked about, as sent what it took, as failed the rest, and hands the hook what was sent with its own answer |
| OutboxService.RequeueIsARun | zcastor/anchor/outbox.py:277-298 | requeueing everything parked is a run of requeue events with the same memory and lines |
| OutboxService.Outbox.constructor | zcastor/anchor/outbox.py:61-103 | a new process holds exactly what its log loads to |
| OutboxService.Outbox.ReplayLine | zcastor/anchor/outbox.py:105-125 | one line updates the four fields as replay says |
| OutboxService.Outbox.Enqueue | zcastor/anchor/outbox.py:129-181 | handed over with the "sha256:" prefix or without it, an entry whose key under the bare digest is outstanding changes nothing and gives none; any other is queued and logged once with its bare digest, as given otherwise, and returned |
| OutboxService.BothSpellingsAreOneDocument | zcastor/anchor/outbox.py:329-330 | one document handed over twice, with and without the prefix in either order, is queued once: the second time gives none and changes nothing |
| OutboxService.Outbox.Drain | zcastor/anchor/outbox.py:185-224 | takes a snapshot of at most limit entries and leaves the memory, log, counts and hook calls of the drain specification, whatever the backend answers; sent, failed and skipped add up to the snapshot, and the hook is called once per record sent |
| OutboxService.Outbox.Offer | zcastor/anchor/outbox.py:190-222 | one entry of a drain: not due, duplicate, sent, backed off or parked |
| OutboxService.Outbox.Complete | zcastor/anchor/outbox.py:226-241 | the key is done, the entry gone, one sent line appended |
| OutboxService.Outbox.Backoff | zcastor/anchor/outbox.py:243-253 | later due time in memory only, or parked when the limit is reached |
| OutboxService.Outbox.Park | zcastor/anchor/outbox.py:255-261 | the entry moves to parked with its error, one line appended |
| OutboxService.Outbox.RequeueParked | zcastor/anchor/outbox.py:277-298 | every parked entry is pending again with retries cleared, or dropped if its key is done; parked is empty; the count is the number of lines |
| OutboxService.Outbox.CompactLog | zcastor/anchor/outbox.py:300-320 | the log becomes the compacted lines of memory for some listing of the done set |
| AnchorIndexing.AnchorIndex.constructor | zcastor/anchor/index.py:33-58 | a new index holds what its file loads to |
| AnchorIndexing.LaterRowsWin | zcastor/anchor/index.py:39-58 | after loading any rows a signal is indexed if and only if some row names it, its status is the last row's, its anchored part the last anchored row's and its status transaction the last status row's |
| AnchorIndexing.AnchorIndex.RecordAnchored | zcastor/anchor/index.py:67-87 | one row appended, under the signal or a key made from the checksum, and the same update in memory |
| AnchorIndexing.UnsignedKey | zcastor/anchor/index.py:71-73 | a record without a signal is keyed by the first sixteen characters of its digest, with or without the prefix |
| AnchorIndexing.AnchorIndex.RecordStatus | zcastor/anchor/index.py:89-100 | an unknown signal changes nothing; a known one gets the status in memory and in one row, keeps its anchored part and, if no transaction is given, its old one; every other signal is untouched |
| AnchorIndexing.AnchorIndex.Active | zcastor/anchor/index.py:123-127 | the Active entries under their signals, in the order in which the signals were first indexed |
| AnchorIndexing.ActiveIsExactly | zcastor/anchor/index.py:123-127 | an entry is listed if and only if it is indexed under that signal with status Active |
| AnchorIndexing.ActiveInOrder | zcastor/anchor/index.py:123-127 | of two listed entries the earlier one's signal was indexed first, and no signal is listed twice |
| Lifecycle.StoryIsSound | zcastor/execution/engine.py:340-393 | outbox, index and handlers together keep their invariant over every story, with a crash allowed inside every step |
| Lifecycle.DossierLandsOnce | zcastor/anchor/outbox.py:165-177 | when a dossier lands, its signal has neither landed nor been indexed before |
| Lifecycle.StatusOnlyAdvances | zcastor/execution/engine.py:340-393 | over every story and every continuation of it a signal goes unanchored, Active, Superseded and never back |
| Lifecycle.UpdateNamesTheAnchoredThesis | zcastor/execution/engine.py:358-393 | in the journal of every line ever appended, compactions or not, each status update comes after a sent line of the same signal's add_record, in that record's registry and registry id, and carries the record id that line returned |
| LifecycleLog.StoryAppends | zcastor/anchor/outbox.py:83-88 | between compactions the log file grows by exactly the lines that the journal grows by |
| LifecycleLog.JournalIsTheLog | zcastor/anchor/outbox.py:83-88 | in a story without compaction the journal is the log file |
| LifecycleLog.LoggedUpdateFollowsItsThesis | zcastor/execution/engine.py:358-393 | thesis before outcome on the log file itself: each status update in it comes after the sent line of the same signal's add_record, in that record's registry by name and by id, and carries the record id of that line and the version index that the delivery behind the line was answered with |
| LifecycleLog.LandingHasItsDelivery | zcastor/execution/engine.py:340-356 | over every story, where a signal's record landed is what its first and only landing delivery was answered with, in a round whose submission returned |
| LifecycleLog.UpdateCarriesItsAnchor | zcastor/execution/engine.py:376-383 | over every story each status update ever accepted names the registry and registry id of its signal's accepted dossier and the record id and version index of the answer that the dossier's delivery got before the update existed |
| Lifecycle.AtMostOneUpdatePerSignal | zcastor/execution/engine.py:358-393 | at most one status update per signal is ever accepted, also when the process dies between enqueue and index row, as long as no compaction that rewrites the log finds a key that is parked only |
| LifecycleUpdates.SupersededIsAnswered | zcastor/execution/engine.py:358-393 | over every story, a signal that the index shows as Superseded, or one that landed under the same record, had its status update accepted |
| LifecycleUpdates.SupersededHasItsUpdateIff | zcastor/execution/engine.py:358-393 | under covered compactions a Superseded signal had its own update accepted if and only if no other signal that landed under the same record id of the same registry did |
| LifecycleUpdates.SupersededIsOutstanding | zcastor/execution/engine.py:376-392 | under covered compactions the update that a Superseded status stands for is queued, parked or done, in memory and in what the log reloads to |
| LifecycleUpdates.SupersededHasItsUpdate | zcastor/execution/engine.py:358-393 | in particular, over every story, when no two dossiers landed under one record id of one registry a Superseded signal has an accepted update of its own |
| LifecycleExamples.SharedRecordIdHidesAnUpdate | zcastor/anchor/base.py:74-84 | a concrete story in which two dossiers share a record id and the second signal is Superseded without any update of its own |
| LifecycleExamples.SupersededCanBeForgotten | zcastor/anchor/outbox.py:300-320 | a concrete story in which a Superseded signal's accepted update is refused, parked, compacted away and no longer outstanding |
| LifecycleExamples.TwoUpdatesAfterUncoveredCompaction | zcastor/anchor/outbox.py:300-320 | a concrete story with a lost mark, a refused update and a compaction after which two updates of one signal have been accepted |
| LifecycleHooks.IndexedIff | zcastor/anchor/outbox.py:227-241 | over every story a signal is indexed if and only if its dossier landed in a round that lived to run the hook, and landed if and only if it landed in some round |
| LifecycleHooks.MissedHookIsNeverMadeUp | zcastor/execution/engine.py:373-376 | a signal that landed without being indexed stays so over every continuation, and every report of its outcome changes nothing |
| EngineLifecycle.Engine.OnAnchored | zcastor/execution/engine.py:340-356 | one row is added, with every field of the entry and of the answer in its own place, readers find that record and status under its signal, and every other signal is as it was |
| EngineLifecycle.Engine.DrainOutbox | zcastor/anchor/outbox.py:185-241 | a drain followed by its hook calls: the outbox as drained, and one index row per landed entry in order |
| EngineLifecycle.Engine.OnOutcomeResolved | zcastor/execution/engine.py:358-393 | nothing unless the signal is indexed as Active; otherwise, unless one for that record is outstanding, an update by the oracle to Superseded with the indexed registry, registry id, record id and version index is queued under the given id and logged, and the index says Superseded of that signal alone |
| EngineStory.StoryGoesOn | zcastor/execution/engine.py:340-393 | happenings told on from the books of a story make a story |
| EngineStory.DrainIsAStory | zcastor/anchor/outbox.py:185-241 | from any sound books, the deliveries of a drain, each with its hook's row written, end in sound books with exactly the memory, lines, index and rows that the engine's drain leaves |
| EngineStory.OutcomeIsAStory | zcastor/execution/engine.py:358-393 | the outcome handler with a fresh id is the happening that resolves and marks, and keeps the books sound |
| Classifier.FirstHit | zcastor/resolve/classify.py:79-96 | the loop over bars finds the scan's outcome and the net that goes with it |
| Classifier.Classify | zcastor/resolve/classify.py:47-122 | none exactly for no bars; otherwise a verdict that tells, in the numbers handed in: outcome by the first touch, net, money as net times volume, won if and only if net is positive, correct if and only if the last close lies beyond the price on the call's side, both excursions, and the multiple of the stop reached |
| Classifier.VerdictTells | zcastor/resolve/classify.py:98-122 | the verdict function says the same of every call: a stop is never won and a target always is, the excursions are the furthest any bar went or 0, and with a positive stop the multiple times the stop is the favourable excursion |
| Classifier.EffectiveTargetIsTarget | zcastor/resolve/classify.py:71-75 | the target in force is the caller's, or for a stop without a target the integer nearest to the stop times the default ratio, the even one of two |
| Directions.StripFindsTheWord | zcastor/resolve/classify.py:36-37 | stripping finds the word between any blanks before and after it |
| Directions.OneCase | zcastor/resolve/resolver.py:111 | changing case turns a letter into its other form and nothing else, so that no letter of the wrong case is left |
| Classifier.FirstTouchDecides | zcastor/resolve/classify.py:79-96 | the first bar that touches either end decides, and one that touches both is the stop; no touch is a timeout |
| Classifier.DecidedStaysDecided | zcastor/resolve/classify.py:77-106 | once stop or target is hit, later bars change neither outcome nor net |
| Classifier.NetIsBounded | zcastor/resolve/classify.py:77-106 | with coherent bars net lies in [-stop, target] and reaches an end if and only if that end was hit |
| Classifier.WiderSpreadNeverFlatters | zcastor/resolve/classify.py:68-100 | a wider spread never raises net, never turns a stop into anything else and never creates a target, for either direction |
| Classifier.ExcursionsBearOutTheOutcome | zcastor/resolve/classify.py:98-106 | with coherent bars and no negative spread the close lies between the excursions, a target means price went the target and the spread in favour, a stop that it went the stop less the spread against, and net never beats the best price seen |
| Classifier.SellIsMirroredBuy | zcastor/resolve/classify.py:68-106 | the whole verdict of a sell is the verdict of the buy on bars reflected about the reference price |
| Resolver.OutcomeResolver.Register | zcastor/resolve/resolver.py:95-131 | refused without a price or when already registered; otherwise queued last and saved, direction upper-cased, with the default spread only if none was given, due its horizon in minutes after now |
| Resolver.OutcomeResolver.Tick | zcastor/resolve/resolver.py:135-165 | every record due at the start is abandoned, stalled or resolved in order, then pending is saved; the four counts are right, and the hook is handed exactly the outcomes written, in order |
| Resolver.OutcomeResolver.Settle | zcastor/resolve/resolver.py:167-222 | one due record: given up, kept with one more attempt, or measured, written out with its descriptive fields and removed |
| Resolver.SettlingReports | zcastor/resolve/resolver.py:143-214 | one due record: past the give-up age it leaves without a line, without bars it stays with one more attempt and nothing else changed, otherwise it leaves and one line, stamped with the tick's time, reports what the bars say of it |
| Resolver.RoundCounts | zcastor/resolve/resolver.py:141-164 | a round counts its record as abandoned if too old, else as stalled if there are no bars, else as resolved |
| Resolver.DueInOrder | zcastor/resolve/resolver.py:137-139 | the due records are taken in the order in which they are queued |
| Resolver.RunKeepsInv | zcastor/resolve/resolver.py:95-222 | the registry's invariant over every run of registrations, settlements, saves and restarts |
| Resolver.EveryRegistrationIsAccountedFor | zcastor/resolve/resolver.py:95-222 | measured + abandoned + pending is one plus the restarts that revived the signal, so nothing is lost and only a restart duplicates; pending ids stay unique |
| Resolver.ExactlyOneFate | zcastor/resolve/resolver.py:95-222 | without a restart every accepted registration is exactly one of pending, measured and abandoned |
| Resolver.OutcomesAreTimely | zcastor/resolve/resolver.py:135-214 | every outcome written over every run is of an accepted signal, at or after its due time, not past the give-up age, and reports what some non-empty bars say of that record by its own price, side, stop, target and spread |
| Resolver.TickIsARun | zcastor/resolve/resolver.py:135-165 | a tick is a run of settlements of the records due at its start, followed by its save if it makes one |
| Pipeline.Evaluate | zcastor/gates/pipeline.py:148-165 | the gate's own decision; if it raised, a suppression "gate_error:" and its name with the error as detail; if it returned something else, a suppression "gate_contract:" and its name |
| Pipeline.Run | zcastor/gates/pipeline.py:60-143 | the loop with its flags produces a complete hearing of the gates, one result per turn, and the action, reason and route kind that the hearing means |
| Pipeline.HearingIsDetermined | zcastor/gates/pipeline.py:60-143 | gates and starting values leave only one possible hearing |
| Pipeline.MeaningIsUnique | zcastor/gates/pipeline.py:67-143 | a hearing means one action and one reason: first rejection, else first suppression, else last route, else allow |
| Pipeline.OneResultPerGate | zcastor/gates/pipeline.py:67-143 | one result per gate in order unless rejected, and a rejection is exactly a binding reject result, which is the last |
| Pipeline.AnswersAreOnTheTrace | zcastor/gates/pipeline.py:85-163 | every asked gate's result tells its own answer, verdict, reason and detail, or the suppression that names it if it raised or broke its contract; a skipped gate leaves the derived values alone, an asked one leaves what it computed |
| Pipeline.ActionFromAnswers | zcastor/gates/pipeline.py:60-143 | from the gates' own answers: rejected if and only if an asked deciding gate answered with a rejection, else suppressed if and only if one suppressed or failed, else routed if and only if one routed |
| Pipeline.ReasonFromAnswers | zcastor/gates/pipeline.py:96-135 | the run's reason is that of the first gate whose answer decided so, for a route of the last, and a route's kind is the one that gate named |
| Pipeline.KindFromAnswers | zcastor/gates/pipeline.py:105-135 | the route kind is the last routing gate's unless some gate suppressed or failed, and then there is none |
| Pipeline.SkippedExactlyWhen | zcastor/gates/pipeline.py:71-88 | read off the trace: skipped if and only if expensive after a binding suppression, or not run when routed between a route and a suppression |
| Pipeline.FailureNeverPasses | zcastor/gates/pipeline.py:148-165 | an asked, deciding gate that failed is recorded as a suppression, the run ends suppressed or rejected, and rejected only if another gate's own answer was a rejection |
| Pipeline.FailureIsNamed | zcastor/gates/pipeline.py:148-163 | when a failing gate's suppression is the one that took effect, the run's reason names that gate and how it failed |
| Pipeline.AdvisoryGateIsInert | zcastor/gates/pipeline.py:90-100 | removing an advisory gate that leaves derived values alone keeps action, reason and kind, and all results but its own |
| ZoneMemory.RecentOfRecent | zcastor/risk/zones.py:71-77 | pruning at an earlier cutoff never shows at a later one |
| ZoneMemory.ZoneTracker.ReadLive | zcastor/risk/zones.py:71-77 | the pruned store answers as the never-pruned history would |
| ZoneMemory.ZoneTracker.Check | zcastor/risk/zones.py:90-144 | status and count are those of the never-pruned history, whatever was queried before; what these are is said by the visits alone in the lemmas below |
| ZoneMemory.ZoneTracker.PhaseAt | zcastor/risk/zones.py:171-178 | so is the phase |
| ZoneMemory.ZoneTracker.RecordEntry | zcastor/risk/zones.py:146-154 | the history grows by this visit under its own key |
| ZoneMemory.ZoneTracker.ResetZone | zcastor/risk/zones.py:156-169 | every key of the price bucket is emptied, and the count is how many there were |
| ZoneMemory.BlockedIff | zcastor/risk/zones.py:90-144 | blocked if and only if the own timeframe or some suppressing higher one is exhausted |
| ZoneMemory.StatusIff | zcastor/risk/zones.py:90-144 | each status counted on the visits themselves: blocked if and only if worn or under a worn suppressor, caution if and only if not blocked but visited often enough or bouncing below the weak mark on average, elevated if and only if neither but the opposite side is worn, ok if and only if none of these |
| ZoneMemory.CountIs | zcastor/risk/zones.py:90-144 | the count is of the zone's own visits within the window, or of those of the first worn suppressor above it in the hierarchy if there is one |
| ZoneMemory.PhaseIff | zcastor/risk/zones.py:171-178 | exhausting from the block count of visits on, active from the caution count to there, fresh below both |
| ZoneMemory.SameBucketIff | zcastor/risk/zones.py:67-69 | two prices share a zone if and only if no multiple of the zone size separates them, or the size is below one |
| ZoneMemory.SameKeyIff | zcastor/risk/zones.py:67-69 | two visits share a key if and only if their prices share a zone and their directions, without case, and timeframes, under any name, agree |
| ZoneMemory.TimeframeNames | zcastor/risk/zones.py:34-43 | exactly the known names of each timeframe are read as it; any other word stands for itself |
| Collections.TowardZero | zcastor/risk/zones.py:68 | a number is cut to the nearest whole number between it and zero |
| ZoneMemory.BlockedOnlyFades | zcastor/risk/zones.py:71-144 | without new entries a zone blocked later was blocked before: blocked is never entered by waiting |
| ZoneMemory.EverythingDecays | zcastor/risk/zones.py:90-178 | once every visit is a window old, every status is ok with count 0 and every phase fresh |
| EntryGeometry.Derive | zcastor/entry/zones.py:65-123 | a zone is derived if and only if the chosen level is within reach, on the right side of price and the buffer under the ceiling; it is that level, with its source, and the stop lies the buffer beyond it |
| EntryGeometry.LevelPrecedence | zcastor/entry/zones.py:71-93 | the level is the signal's positive absolute price on its side if it has one, else its positive distance taken off or added to the current price, else the swing, else none |
| EntryGeometry.PendingEntry.Evaluate | zcastor/entry/pending.py:110-156 | the automaton's step on the entry's two flags |
| EntryGeometry.FreshVerdict | zcastor/entry/pending.py:136-156 | a fresh entry's verdict in terms of the price run alone |
| EntryGeometry.FreshFillsIff | zcastor/entry/pending.py:136-156 | a fresh entry's run fills at step i if and only if price confirms there and since its first earlier touch stayed inside the band |
| EntryGeometry.ExhaustionFillsIff | zcastor/entry/pending.py:116-134 | an exhaustion entry's run fills at i if and only if price confirms there, for the first time after its first earlier sweep, and never went twice the invalidate distance beyond |
| EntryGeometry.SellIsMirroredBuy | zcastor/entry/pending.py:90-156 | a sell on prices p is step for step the buy on 2 * zone - p |
| Watcher.EntryWatcher.Arm | zcastor/entry/watcher.py:78-122 | armed exactly when there is a price, a zone and no entry for the signal yet; then an untouched entry is added with the derived zone and stop, the lower-cased direction, the policy's distances and window from now on and "fresh" for an empty route kind, and nothing else changes |
| Watcher.EntryWatcher.Leave | zcastor/entry/watcher.py:124-135 | the entry is gone and one exit recorded; an unknown id changes nothing |
| Watcher.EntryWatcher.Turn | zcastor/entry/watcher.py:139-215 | one entry of a poll: expired, held, cancelled, or fired with what the venue answers |
| Watcher.TurnIsJudgedOnItsSide | zcastor/entry/watcher.py:161-244 | one entry's turn: past its window it expires unjudged, otherwise a buy is judged at the ask and a sell at the bid; a broken level cancels it, and a firing entry leaves refused by the risk check, refused by the venue, or filled at that price with its structural stop and its hinted, fixed or proportional target |
| Watcher.EntryWatcher.Sweep | zcastor/entry/watcher.py:246-268 | entries past the maximum hold leave, then the day boundary closes the rest |
| Watcher.SweepSparesIff | zcastor/entry/watcher.py:248-268 | a sweep leaves an entry, untouched, if and only if it is not past the longest hold and no turned day closes it |
| Watcher.SweptLeavesFor | zcastor/entry/watcher.py:248-268 | what a sweep takes leaves with one exit at that moment, for its age if it is past the longest hold and otherwise for the day |
| Watcher.EntryWatcher.Poll | zcastor/entry/watcher.py:139-182 | a sweep, then nothing without a tick, else one turn per entry left |
| Watcher.PollSweepsFirst | zcastor/entry/watcher.py:139-182 | whatever tick and venue say, a poll fills nothing past the longest hold and nothing at all once the day has turned and days are closed |
| Watcher.EveryArmEndsOnce | zcastor/entry/watcher.py:78-268 | over every run, as multisets, armed = exits + still pending, so each arm leaves at most once with at most one order, and no order is placed after its expiry window |
| Watcher.StalledTickHolds | zcastor/entry/watcher.py:139-182 | without a tick every entry that stays is untouched and every one that goes was swept |
| OrderGeometry.StopIsBeyondZoneIff | zcastor/entry/watcher.py:78-122 | the armed stop is on the losing side of the zone if and only if the signal's word and the one it is armed with read as the same side |
| OrderGeometry.GateWordAgrees | zcastor/gates/direction.py:23-35 | the direction that the gate derives always reads as the signal's side |
| OrderGeometry.OwnWordAgreesIff | zcastor/entry/watcher.py:95 | without a derived direction the two readings agree unless the signal is a buy written with blanks around it |
| OrderGeometry.BlankBuyIsArmedBackwards | zcastor/entry/watcher.py:92-108 | the failing input: " buy" with a usable support level is armed as a sell whose stop is below its zone |
| OrderGeometry.FillIsWellPlaced | zcastor/entry/watcher.py:186-242 | one fired order: fill at least the confirmation beyond the zone, stop and target on their own sides of it |
| OrderGeometry.EveryOrderIsWellPlaced | zcastor/entry/watcher.py:186-242 | over every run with agreeing directions and positive distances, every order has stop < fill < target (mirrored for sells), stop exactly the buffer beyond the zone and within the maximum, and stop times volume within the risk cap |
| OrderGeometry.EveryRiskFromTheFill | zcastor/entry/watcher.py:222-236 | for every such order the distance from fill to stop is at least buffer plus confirmation, more than the distance the cap was checked on, and the cap covers it only if it has room for buffer plus confirmation, and then exactly up to cap over volume from the stop |
| OrderGeometry.SomeFillIsCoveredIff | zcastor/entry/watcher.py:222-236 | before any price, from policy and balance alone: some price at which the plan may fire is within the cap if and only if buffer plus confirmation, times volume, is |
| OrderGeometry.EveryPlanCanExceed | zcastor/entry/watcher.py:222-236 | every plan that passes the risk check may fire at a price where the order is placed and its risk from the fill exceeds the cap |
| OrderGeometry.TightCapIsAlwaysExceeded | zcastor/entry/watcher.py:222-236 | the failing input: with a cap that the zone-to-stop distance just meets, every fill is placed and exceeds it |
| Targets.SlPts | zcastor/targets/optimizer.py:111-141 | the stop distance stays inside its timeframe's bounds for every signal |
| Targets.StopOfSignal | zcastor/targets/optimizer.py:111-141 | for tables with weights between 0 and 1 no clamp bites: the stop is the phase's share of the range blended with the nearest place to half the biased volatility, pulled by its weight to the level behind the signal if that level and its buffer lie in range, and otherwise not at all |
| Targets.StopGrows | zcastor/targets/optimizer.py:111-141 | a phase with a larger share of the range never gets a tighter stop |
| Targets.TargetBounds | zcastor/targets/optimizer.py:157-195 | whatever level, session, ceiling and cap say, minimum <= target <= max(ceiling, minimum) |
| Targets.TargetIsBounded | zcastor/targets/optimizer.py:111-195 | for every signal and sensible tables, stop in bounds and target between the minimum ratio and the ceiling or that minimum |
| Targets.TargetOfSignal | zcastor/targets/optimizer.py:157-195 | the target is the least of base, ceiling and regime cap if all reach the minimum ratio and else that minimum, the base being the level ahead less its buffer if that earns the minimum and else the larger of session ratio and minimum times the stop |
| Targets.StopAndTargetTakeSides | zcastor/targets/optimizer.py:143-195 | a long signal's stop is below the entry and its target above, a short one's the other way round, each at its own distance, from the caller's price if it gives one; none without a price or a side |
| Targets.LowCapPinsTarget | zcastor/targets/optimizer.py:186-189 | a regime cap at or below the minimum ratio makes the target exactly the minimum |
| Targets.ShippedTablesAreRoomy | config/policy.json:49-79 | in every shipped timeframe the widest stop at the minimum ratio still fits under the ceiling |
| Targets.ShippedTargets | config/policy.json:49-115 | under the shipped tables no target exceeds its ceiling, every one earns the minimum, and every regime cap pins it there |
| Targets.MirroredTargets | zcastor/targets/optimizer.py:143-195 | turning the market upside down reflects stop and target about the entry price |
| Targets.OptimiserPassesRiskReward | zcastor/gates/range.py:66-87 | the risk-reward gate never refuses the optimiser's own targets when it asks for no more than the optimiser's minimum |
| Levels.ToHourly | zcastor/market/levels.py:70-86 | exactly one candle per hour that has a readable bar, in order of time, each the exact range of its bars |
| Levels.HourIff | zcastor/market/levels.py:76-77 | a bar belongs to an hour if and only if its time lies from that hour's first second on and before the next hour's |
| Levels.BarOrderDoesNotMatter | zcastor/market/levels.py:70-86 | the same bars in any order, repeated or not, give the same hourly series |
| Levels.FindSwings | zcastor/market/levels.py:88-102 | reports the swing highs and lows in order, none when there are fewer than 2k+1 hours |
| Levels.HighsAreSwings | zcastor/market/levels.py:88-102 | a price is reported as a high if and only if it is the high of a candle with k on either side that dominates them |
| Levels.LowsAreSwings | zcastor/market/levels.py:88-102 | the same for lows |
| Levels.HighIsGenuine | zcastor/market/levels.py:70-102 | a reported high was traded by some bar, and no bar of the 2k+1 hours around it went higher |
| Levels.LowIsGenuine | zcastor/market/levels.py:70-102 | the same for lows |
| Levels.HighWasSent | zcastor/market/levels.py:70-102 | in the broker's own bars: a reported high is the high of a bar that was sent and could be read, in the hour it stands for, and no readable bar sent in the 2k+1 hours around it went higher |
| Levels.LowWasSent | zcastor/market/levels.py:70-102 | the same for lows |
| Levels.DominantHighIsReported | zcastor/market/levels.py:70-102 | conversely, a candle that no bar of those hours beats is reported |
| Levels.DominantLowIsReported | zcastor/market/levels.py:70-102 | the same for lows |
| Levels.NegatedHourly | zcastor/market/levels.py:70-86 | negated bars give the negated hourly series |
| Levels.NegationSwapsSwings | zcastor/market/levels.py:88-102 | negating prices exchanges reported highs and lows |
| Levels.HourlyLevels.Refresh | zcastor/market/levels.py:104-122 | replaces the cache if and only if forced or due and given bars, and the cache is then what those bars say |
| Levels.HourlyLevels.NearestSupport | zcastor/market/levels.py:126-131 | the highest cached low strictly below the price, none exactly when there is none |
| Levels.HourlyLevels.NearestResistance | zcastor/market/levels.py:133-137 | the lowest cached high strictly above the price, none exactly when there is none |
| Dgml.SealingKeepsContent | zcastor/record/dgml_xml.py:99-114 | sealing changes nothing but hash attributes |
| Dgml.SealedVerifies | zcastor/record/dgml_xml.py:87-114 | a sealed element's hash is the hash of what it was before, and verifies |
| Dgml.VerifiesIff | zcastor/record/dgml_xml.py:87-96 | an element that carries the hash of a seal verifies if and only if its content, hashes aside, has the digest of what was sealed |
| Dgml.SealingIsIdempotent | zcastor/record/dgml_xml.py:106-114 | sealing twice is sealing once |
| Dgml.SealReachesAllIffNested | zcastor/record/dgml_xml.py:106-114 | in a fresh tree every attested element verifies after sealing if and only if none hides under an unattested one |
| Dgml.SealMissesHiddenClaim | zcastor/record/dgml_xml.py:106-114 | the failing input: an attested element in a plain section is left without a hash |
| Dgml.AllVerifyMeansEachVerifies | zcastor/record/dgml_xml.py:288-307 | the recursive form of that says the same of every element met in document order |
| Dgml.AttestedElements | zcastor/record/dgml_xml.py:288-299 | the loop lists the id and hash of every attested element in document order |
| Dgml.AnchorsAreTheMarked | zcastor/record/dgml_xml.py:288-299 | a pair is listed if and only if some element whose mark says "true" bears that id and that hash |
| Dgml.VerifyElement | zcastor/record/dgml_xml.py:302-308 | accepts an id exactly when the first element bearing it verifies |
| SealedTree.Node.Seal | zcastor/record/dgml_xml.py:106-114 | sealing nodes in place turns the tree into the sealed tree and returns the hash of what it was |
| DecisionRecord.RecordVerifies | zcastor/record/dgml_xml.py:179-270 | every attested element of a published record verifies, and so does the record |
| RecordReading.RecordReadsBack | zcastor/record/dgml_xml.py:179-270 | a round trip: read back by section and element name, a published record gives every fact it was built from with its type, absent ones as absent, the nine thesis fields each under its own name, every gate's verdict in order, and an execution or outcome exactly if there was one |
| RecordReading.OutcomePointsAtItsThesis | zcastor/record/dgml_xml.py:258-266 | the outcome bears its own id and its link settles the very id that the thesis element bears |
| RecordReading.HeadingReads | zcastor/record/dgml_xml.py:201-206 | the document names its schema and version, bears the signal's id and says that it was never a page |
| RecordReading.HumanForm | zcastor/record/dgml_xml.py:119-149 | the text people read is the machine form, with nothing but commas added to a decimal, and yes or no for a truth value |
| RecordReading.GroupedInThrees | zcastor/record/dgml_xml.py:140-142 | counted from the right, exactly every fourth place of a grouped number holds a comma |
| DecisionRecord.RecordAcceptsExactly | zcastor/record/dgml_xml.py:302-308 | a recipient's check accepts the record's id, its thesis' and, if there is an outcome, the outcome's, and no other id |
| DecisionRecord.AnchorsStandAlone | zcastor/record/dgml_xml.py:288-299 | the anchors are one pair of id and digest for the thesis and then, exactly if there was an outcome, one for it, each a function of the signal and of that element's own facts |
| DecisionRecord.SameClaimSameAnchor | zcastor/record/dgml_xml.py:222-241 | whatever the digest, records with the same signal and the same values under the nine claimed keys carry the same thesis anchor |
| DecisionRecord.PredictionPrecedesResult | zcastor/record/dgml_xml.py:67-96 | with the digest taken over texts without surrounding blanks and no hash collision, two records share the thesis anchor if and only if they make the same claim about the same signal, whatever else they say |
| DecisionRecord.TamperingIsFound | zcastor/record/dgml_xml.py:302-308 | without hash collisions, in whatever document it is met an element under the thesis' id that carries the anchored hash is accepted if and only if it is, canonically, the thesis that was published |

## Left out

- Network, broker, exchange, chain transport, Discord and the web server: their answers are arbitrary parameters.
- JSON, file writing and fsync: a log is a sequence of whole lines; a torn line is one line that loads to nothing.
- Torn lines after the first crash: the file is not repaired, so the next append glues to the torn tail (zcastor/anchor/outbox.py:83-102).
- Threads inside one operation: the outbox has no lock; operations are steps with crash points between appends.
- XML canonicalisation and SHA-256: one function from elements to strings, applied to texts without surrounding blanks where that matters; the absence of collisions is assumed only where a lemma says so.
- OutboxService.Outbox.Drain: pending records are values, so a caller that keeps a returned record and edits it is not captured; the hook after each landing is a list played afterwards, and crashes between the two are in the lifecycle runs.
- OutboxService.Outbox.Backoff: the parked error is the backend's own text, without the words that the program puts before it.
- OutboxService.Outbox.CompactLog: the order of the done keys is any listing rather than sorted; the size threshold of maybe_compact is not modelled.
- Dedupe keys: each is a structure rather than a joined string, so collisions through the separator are not captured; metadata is reduced to the two fields that are read.
- OutboxRefinement.ReplayRebuildsMemory: weaker for parked, because replaying a requeue leaves the entry in parked as well (zcastor/anchor/outbox.py:107-110).
- OutboxBackoff.DeadChainIsNotHammered: within one process, because retry fields are not logged and a restart clears them.
- AnchorIndexing.AnchorIndex.RecordStatus: an empty transaction keeps the old one in memory but is written to the row, so that one field may differ after a reload; every other field agrees.
- Lifecycle.StoryIsSound: a story has dossiers and status updates only; daily-log and rollover entries that share the outbox and the index are not in it.
- EngineLifecycle.Engine.DrainOutbox: the hook's rows are written after the drain rather than inside each landing; `EngineStory.DrainIsAStory` shows that this leaves the same state, and crashes in between are in the stories.
- EngineLifecycle.Engine.OnOutcomeResolved: the outcome and correct fields of the update's metadata, which nothing modelled reads, are left out.
- get_by_checksum and stats.
- Classifier.Classify: unrounded values; words are lower-cased and stripped in ASCII only.
- Pipeline.Run: gate details are one string and skip reasons are not stated; the static validation of the gate list, `binding()` and `shadow_objections()` are left out.
- The individual threshold gates: each is one comparison; they are arbitrary gates here.
- ZoneMemory.ZoneTracker.Check: the reason text and rounded averages shown beside status and count are left out.
- Watcher.EntryWatcher.Poll: poll counters and hook payloads are left out; exits are recorded as a ghost sequence; a target hint from the caller is not armed in the order geometry.
- OrderGeometry.EveryOrderIsWellPlaced: the risk cap is on the zone-to-stop distance, as the code checks it at fill time; what that leaves for fill-to-stop is proved separately.
- Resolver.EveryRegistrationIsAccountedFor: each of the two files is replaced at once; the source rewrites them in place and loads a damaged file as empty (zcastor/resolve/resolver.py:71-91), so a crash inside a rewrite can lose what it held.
- Targets.StopOfSignal: tables whose weights or phase fractions leave [0, 1] are covered by the bounds alone.
- Targets.TargetIsBounded: numbers and the words for timeframe, phase and direction are already read; unreadable levels are absent ones.
- Levels.ToHourly: a bar is either readable or not; which field was malformed is not distinguished.
- DecisionRecord.RecordVerifies: the machine form of a number is the caller's, blanks are ASCII; text after an element's end tag and pretty printing are left out; the record is built as a value, while sealing is also modelled in place.
- Publisher, disclosure, decision log, journal, ledger and booking: file writing and counting.
- Rounding, float error and log text.
