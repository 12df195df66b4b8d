# A verified model of PitchBot's conversation, callback and scoring core

PitchBot answers sales conversations turn by turn, journals every turn in an append-only event log, replays that log
after a restart or a lost race, projects it into a temporal knowledge graph, schedules callbacks through external
adapters, and lets a slow model think about the deal while nobody is waiting. This project models those parts in Dafny
and proves what they promise over every input, every run and every interleaving.

| part | files |
|---|---|
| one turn of a conversation, on a live mutable engine and as a value, and what it does to whom | `Language`, `Conversation`, `Engine`, `TurnShape`, `Recording`, `TurnLaws` |
| replaying a session from its events, and why it equals the live state | `SessionReplay`, `EventLog` |
| preparing, committing and reconciling turns when several engines race, and what gets through when nobody does | `Journal`, `Protocol`, `Progress` |
| facts and supersessions read from the log, and the graph with its validity intervals | `KnowledgeSource`, `Supersession`, `KnowledgeReader`, `Chains`, `KnowledgeGraph`, `GraphLinks` |
| callbacks: per-callback locks, the service's maps, every interleaving, teardown, idempotent adapters | `CallbackLocks`, `CallbackStates`, `Callbacks`, `CallbackSlices`, `CallbackMachine`, `CallbackRuns`, `Lifecycle`, `Teardown`, `Adapters`, `Dialing` |
| the two lanes: briefing, scheduler, deliberations in flight | `Briefing`, `Lanes`, `Deliberation` |
| the safety matcher: phrase index, templates, split-token repair | `Tokens`, `PhraseIndex`, `Templates`, `SplitTokens` |
| scoring: edit distance, interval merge and overlap, frame intervals | `EditDistance`, `Intervals`, `Frames` |

Code that updates objects step by step is a class here too (`ConversationState`, `ConversationEngine`,
`ConversationJournal`, `EventStore`, `CallbackService`, `LockTable`, `IdempotentActions`, `Briefing`, `LaneScheduler`,
`YieldBudget`, `Deliberator`); each of its methods is tied to a function of the old state, and the theorems are about
those functions. Loops over lists, dictionaries and rows are methods with invariants.

## What the model takes as given

- Identifiers generated by the program are fresh: they are carried in a turn's candidates and required to be new to the
  log. Digests are arbitrary values. Serialisation loses nothing, so an event is its own stored form.
- The store is append-only and an append succeeds only at the expected version. Other writers may append at any moment.
  Timestamps of one lead do not run backwards. An (engine, session) pair runs one turn at a time.
- Safety signals, candidate facts, evidence readings, language readings and replies are inputs of a turn, arbitrary
  except that a turn has at most one candidate per key.
- Callers of the callback service keep two rules that `src/pitchbot/actions/workflows.py:162-169` keeps: a schedule key
  and a callback id determine each other, and no idempotency key is shared between two callbacks or between a schedule
  and a cancel (`CallbackSlices.Discipline`). Minted `cleanup:` keys are their own constructor, so no caller's key is one.
  Adapters may succeed, reject for good, or fail in any other way, including after having acted.
- Times, weights and durations are exact integers or reals; policy verdicts and clocks are parameters.

## Where the code does something other than one might expect

- A caller that keeps declaring UNKNOWN re-seeds the session on every turn, so a switch the buyer made is undone on the
  next turn, silent or in the same language, although `src/pitchbot/conversation/engine.py:496-499` says that between
  re-declarations the engine's own decision wins. Hysteresis holds in every run exactly for callers that declare a
  language (`Language.HysteresisIffDeclared`); `Language.UndeclaredRunWraps` says what happens to the others,
  `Language.AgreeingTurnKeepsLanguageIff` when a turn keeps the language, and `Language.UndeclaredSwitchIsForgotten` is a
  run that shows the loss.
- Declaring a language after UNKNOWN only seeds the session: votes survive it and a request in the same turn overrides
  it. `Language.RedeclarationObeyed` is the exact condition for a declaration to be obeyed.
- A schedule with an invalid time is answered before the callback's record is looked at
  (`src/pitchbot/actions/callbacks.py:147-151`): under a fresh key it stores a blocked record over a live one.
  `CallbackRuns.InvalidTimeOverwritesIff` says exactly when, `CallbackRuns.ScheduleKeepsAgreementIff` exactly when the maps
  agree afterwards, and `CallbackRuns.MapsAlwaysAgree` that they always do for callers who keep the two rules.
- One cancel key used for two callbacks at once loses the first cancel's replay: of two such cancels the first is
  answered again exactly when the keys differ (`CallbackRuns.FirstCancelReplaysIff`). Under the two rules every decided
  key is answered the same for as long as its callback has a record (`CallbackRuns.AnswersAreReplayed`).
- `Briefing.observe` raises its version before it refuses an empty value, so a refused observation would still make a
  current plan stale (`Briefings.Briefing.Observe`). The engine skips blank values (`src/pitchbot/conversation/engine.py:602`),
  so only a direct call can do this.
- The in-memory adapters number a provider reference by the length of the history, so after `clear_operations` two held
  results can carry the same reference (`Adapters.ClearedNumberIsReused`, exactly when in `Adapters.RepeatsReferenceIff`);
  without a clear they never do (`Adapters.ReferencesDiffer`).
- `LaneScheduler.should_yield` says it counts how often the slow lane looked (`src/pitchbot/deliberation/lanes.py:100-106`)
  but counts only the looks that find a turn in flight (`Deliberations.TurnsAndStopsAreCounted`).
- A cancelled deliberation is counted as started and never as finished, so the lane statistics add up exactly when
  nothing was ever cancelled (`Deliberations.GenerationsAreConserved`).

## Model

| member | source | states |
|---|---|---|
| Language.SwitchIff | src/pitchbot/conversation/language.py:359-390 | over every run, whatever is declared in it: on a turn that is not a re-declaration the language becomes L, other than the one the turn starts from, exactly when the turn was heard in L and either asked for it or is the last of `switchAfter` consecutive votes for L; silent turns never matter |
| Language.RunTracksStreak | src/pitchbot/conversation/engine.py:502-537 | after every run, UNKNOWN declarations included, the pending language and its count are exactly the trailing run of the votes since the conversation was last re-declared or last ended a turn in the language heard |
| Language.HysteresisIffDeclared | src/pitchbot/conversation/language.py:359-390 | for a caller that declares d throughout: in every run the language changes to L exactly when asked for, or when the last `switchAfter` informative readings are all L and L is not current, if and only if d names a language |
| Language.DeclaredSwitchIff | src/pitchbot/conversation/language.py:359-390 | the same promise over every run whose declarations all name languages, re-declarations included |
| Language.UndeclaredRunWraps | src/pitchbot/conversation/engine.py:502-509 | what hysteresis becomes under UNKNOWN declarations: only every `switchAfter`-th consecutive turn heard in a language is answered in it, every other turn in none |
| Language.ResolveAgrees | src/pitchbot/conversation/models.py:136-141 | no turn can break the agreement of pending language and count that the checkpoint validator demands |
| Language.RedeclarationObeyed | src/pitchbot/conversation/engine.py:502-522 | in every run another declaration takes effect at once and forgets every vote, whatever is said with it, exactly when the declaration before it named a language |
| Language.AgreeingTurnKeepsLanguageIff | src/pitchbot/conversation/engine.py:502-509 | in every run a turn that repeats its declaration and says nothing, or speaks the current language, keeps that language exactly when the declaration names a language, nothing was decided yet, or the turn alone suffices to switch |
| Language.SwitchReportedIff | src/pitchbot/conversation/engine.py:502-538 | a turn reports a language switch exactly when it ends in another language than the conversation had, for a re-declaration, or than the turn started from, for any other turn |
| Language.UndeclaredSwitchIsForgotten | src/pitchbot/conversation/engine.py:502-509 | the run in which a switch made under an UNKNOWN declaration is undone by the next silent turn |
| Conversation.TurnKeepsValid | src/pitchbot/conversation/models.py:109-142 | for every valid state and every turn input the new state passes the checkpoint validator, takes one turn, closes exactly on STOP, and every bounded collection is the old one followed by what the turn reports |
| TurnLaws.GuardedTurn | src/pitchbot/conversation/engine.py:159-211 | an opt-out always closes the conversation, abuse closes it exactly the second time, nothing else does; a closed turn ends in STOP, first abuse and unsafe requests in REDIRECT, and no guarded turn touches facts, evidence or goal changes; it classifies the evidence as it stands, an opt-out as cold |
| TurnLaws.BusinessTurn | src/pitchbot/conversation/engine.py:239-299 | every other turn asks for review exactly when the goal changes have reached the bound, else continues, and never closes |
| TurnLaws.TurnRecords | src/pitchbot/conversation/engine.py:213-237 | a business turn that repeats no recent one reports, in order, exactly the facts of the candidates that are news and have room, each with the revision it makes, and leaves exactly their values in the dictionary; every other turn records nothing |
| TurnLaws.CandidateIsRecordedIff | src/pitchbot/conversation/rules.py:1570-1592 | a candidate's fact is reported exactly when the turn is a business turn and no repetition, its key was unknown or held another value, and the key was known or there was room when its turn came |
| TurnLaws.KnownKeyTakesValue | src/pitchbot/conversation/engine.py:222-237 | a candidate whose key was known ends as that key's value |
| TurnLaws.EvidenceIsRecordedIff | src/pitchbot/conversation/engine.py:239-243 | evidence is recorded exactly for the readings of a business turn that repeats no recent one, on dimensions not yet in evidence, and the oldest makes room |
| TurnLaws.EveryTurn | src/pitchbot/conversation/engine.py:102-158 | every accepted turn is counted, its digest joins the latest, repetition is judged by those before it, and the language is the resolution of what was declared and heard |
| TurnLaws.RefusedIff | src/pitchbot/conversation/engine.py:102-140 | a turn is refused exactly when the turns are used up or the conversation is closed |
| TurnLaws.ConversationRunsLanguage | src/pitchbot/conversation/engine.py:486-538 | over every conversation the language state is the run of its turns, so every law of language runs holds of conversations |
| TurnLaws.UndetectedTurnsAreSilent | src/pitchbot/conversation/engine.py:486-538 | with detection off nothing that is said moves the language; only a declaration does |
| TurnLaws.ClassifiedIff | src/pitchbot/conversation/engine.py:402-455 | what makes a lead hot, warm or in need of review, the phase that follows, the score and the confidence with their bounds, and exactly the evidence on either side |
| TurnLaws.NothingFollowsOptOut | src/pitchbot/conversation/journal.py:874-916 | in every log engines can write an opt-out stops its session and is its last event |
| Conversation.UpsertPlaces | src/pitchbot/conversation/engine.py:231 | assigning a fact keeps a known key in its place, puts a new key last and moves nothing else |
| Conversation.AcceptKeeps | src/pitchbot/conversation/engine.py:222-237 | accepting facts keeps the dictionary unique and within capacity, equals assigning the accepted facts in order, and reports only revisions of accepted facts |
| Engine.ConversationEngine.ProcessTurn | src/pitchbot/conversation/engine.py:102-299 | the turn run on the live mutable state ends in exactly the state and result of the turn as a function; no other session changes, and an error leaves the session unchanged |
| Engine.ConversationEngine.ResolveLanguage | src/pitchbot/conversation/engine.py:486-538 | the language fields of the live state move as one resolution step, nothing else moves |
| Engine.ConversationEngine.AcceptFacts | src/pitchbot/conversation/engine.py:222-237 | the loop over extracted facts leaves the dictionary, the goal-change count and the accepted lists as the acceptance function says |
| Engine.ConversationEngine.RestoreCheckpoint | src/pitchbot/conversation/engine.py:346-392 | restoring a valid checkpoint under the engine's digest key yields a session whose export is that checkpoint; otherwise nothing changes |
| Engine.RekeyingIsIdentity | src/pitchbot/conversation/engine.py:364-392 | rebuilding the fact dictionary from exported facts gives the same facts in the same order |
| SessionReplay.ReplaySessionEvents | src/pitchbot/conversation/journal.py:805-871 | the replay loop over dictionaries and deques computes the replay function: first corruption, or the rebuilt checkpoint |
| SessionReplay.ReplayFollowsTurn | src/pitchbot/conversation/journal.py:805-948 | simulation: for every state that is the replay of its events and every turn input, the event built from the turn is valid and replaying the events with it gives exactly the new checkpoint, fact order, deques, phase and language fields included |
| SessionReplay.ValidEventFollows | src/pitchbot/conversation/journal.py:874-916 | an event built from a turn passes every replay check against the events before it |
| SessionReplay.CorruptionIsFirst | src/pitchbot/conversation/journal.py:874-916 | the corruption reported for a prefix is the one reported for every longer list |
| SessionReplay.CorruptIff | src/pitchbot/conversation/journal.py:874-916 | replay reports corruption exactly of events that are not orderly: one configuration, turns counted from 1, everything the lead's own, nothing after a stop, no goal change or abuse redirect taken back |
| SessionReplay.EventMadeIff | src/pitchbot/conversation/journal.py:117-129 | a state and a result make an event exactly when a digest was taken, stopping, STOP and the closed phase agree, and every revision introduces a reported fact |
| EventLog.LoadEvents | src/pitchbot/conversation/journal.py:707-772 | the status-read-status loop returns what an atomic load at one of its instants returns; it reports change only when the store changed under every attempt |
| EventLog.LoadIff | src/pitchbot/conversation/journal.py:707-772 | a load succeeds exactly on a log within the limit with versions from 1, every conversation event known and the lead's own, and no operation twice, and returns its turns in order |
| EventLog.ProducedLoads | src/pitchbot/conversation/journal.py:707-772 | every log engines can write has contiguous versions, unique operations and no parse error: loading fails only for its length |
| EventLog.ProducedReplays | src/pitchbot/conversation/journal.py:805-871 | in every log engines can write, each session with events replays without a corruption error |
| EventLog.ProducedVersions | src/pitchbot/storage/repository.py:111-190 | versions are contiguous from 1 and timestamps never decrease |
| Journal.EventStore.Append | src/pitchbot/storage/repository.py:111-190 | read, compare, conditional insert, with other writers in between: it appends exactly when the log stands at the expected version from the read to the insert, for any expected version |
| Journal.ConversationJournal.PrepareTurn | src/pitchbot/conversation/journal.py:299-364 | preparing changes the live session only when the operation is already journaled, to the replayed state, keeps a separate copy to roll back to, and refuses when the log changes under every load |
| Progress.ReadyIff | src/pitchbot/conversation/journal.py:341-364 | on every log engines can write a new operation is made ready, at the log's version, exactly when there is room, the caller expects this version or none, and the live state is the session's replay (or unstarted) |
| Journal.ConversationJournal.CommitTurn | src/pitchbot/conversation/journal.py:366-427 | the commit ends as the commit function says on every path: appended, rolled back, reconciled after a lost race, or rolled back because the reload never settled |
| Protocol.EveryRunKeeps | src/pitchbot/conversation/journal.py:299-427 | in every interleaving of any number of engines on a lead, at every step: the log is one engines can produce, within capacity, and each session is durable, prepared, run or beaten as its stage says |
| Protocol.RestIsDurable | src/pitchbot/conversation/journal.py:366-496 | however its turn ended and whatever raced with it, a session at rest equals the replay of a durable prefix or has not started; every session in the log replays |
| Protocol.AppendOutcome | src/pitchbot/conversation/journal.py:380-427 | an acknowledged append adds this turn as the last entry and leaves the session equal to the replay of the whole log; a lost race leaves it at a durable prefix |
| Protocol.AppendKeeps | src/pitchbot/conversation/journal.py:341-402 | a successful append proves that the log is still the one the turn was prepared and run on, so the longer log is well formed |
| Protocol.CommitIsAppendThenFinish | src/pitchbot/conversation/journal.py:366-427 | the journal's commit is exactly the protocol's append step followed, after a lost race, by the reload step or the failing reload step |
| Protocol.NoOperationAppendsTwice | src/pitchbot/conversation/journal.py:322-340 | in every run no operation is appended twice, whichever engines retry it |
| Protocol.RetriesReturnTheTurn | src/pitchbot/conversation/journal.py:322-340 | in every run a retry of a journaled operation is never made ready: it is answered with that turn and its session's replay, or refused for the journal's length, other input or another digest key |
| Protocol.BeatenRetryReturnsTheTurn | src/pitchbot/conversation/journal.py:395-419 | a turn beaten by its own retry elsewhere is reported as done with the journaled turn and its replay |
| Progress.ATurnCommits | src/pitchbot/conversation/journal.py:299-427 | from rest, up to date and with room, a new turn the engine accepts is prepared, run and stored when nobody else appends: the log grows by exactly that turn and the session rests at the state it led to |
| Progress.FailedTurnIsUndone | src/pitchbot/conversation/journal.py:281-427 | in every interleaving a turn that ends in failure, of the engine, the store or the reload, leaves its session at rest in exactly the state it was in before the turn began |
| Progress.BeatenIsBroughtUpToDate | src/pitchbot/conversation/journal.py:395-419 | a beaten turn nobody journaled ends superseded with its session at the replay of the whole log |
| Progress.SynchronizeCatchesUp | src/pitchbot/conversation/journal.py:697-705 | synchronizing brings a session to the replay of the whole log whenever the log loads and holds turns of it under its digest key |
| Progress.RecoverCatchesUp | src/pitchbot/conversation/journal.py:687-695 | recovering opens a session at the replay of the whole log under the same conditions and not otherwise |
| TurnShape.TurnHasShape | src/pitchbot/conversation/rules.py:1570-1593 | from any state, whatever a turn reports comes from its candidates, each revision is of exactly the known fact its replacement supersedes, and the goal-change count rises by the number of revisions |
| KnowledgeReader.Read | src/pitchbot/conversation/journal.py:539-642 | success holds exactly every fact and revision of the log, every session replays and the sizes fit; every refusal is justified by the request or the journal; a journal engines wrote is read exactly when it exists and fits what was asked, and is never called corrupt |
| KnowledgeSource.ReadTurns | src/pitchbot/conversation/journal.py:574-635 | the loop with its dictionaries and sets accepts exactly the sound sequences of turns |
| KnowledgeSource.CheckRevision | src/pitchbot/conversation/journal.py:600-635 | the checks of one revision, in the order made, pass exactly when it supersedes once an earlier fact of its session and key by a fact of its turn |
| KnowledgeSource.GroupBySession | src/pitchbot/conversation/journal.py:784-793 | one pass groups the turns: each session with a turn and only those, its events in order |
| Supersession.ProducedMirrors | src/pitchbot/conversation/journal.py:574-635 | for every log engines can write: the turns are sound, so no corruption is ever reported, and the unsuperseded facts are, session by session, the facts of the replayed state |
| Supersession.GoalChangesAreRevisions | src/pitchbot/conversation/engine.py:222-237 | the goal-change count of a session is the number of its journaled revisions |
| KnowledgeGraph.Project | src/pitchbot/knowledge/graph.py:95-146 | the projection's loops build exactly the claims, conflicts and relations defined declaratively from the source |
| GraphLinks.ClaimsFollowChains | src/pitchbot/knowledge/graph.py:166-191 | in every log engines can write a claim is superseded by exactly the fact that follows it in its chain, from that fact's version and time on, and is open exactly when its fact is in the session's state |
| GraphLinks.RelationsAreLinks | src/pitchbot/knowledge/graph.py:194-231 | the relations are exactly: the lead has each session with a turn, each session observed each fact recorded for it, each fact is superseded by the one that follows it in its chain |
| GraphLinks.ClaimComesFromTurn | src/pitchbot/knowledge/graph.py:181-191 | every claim states a fact of the turn at its first version, with that turn's time, session and language, and is not confirmed by the customer |
| GraphLinks.ClaimIsConfirmedIff | src/pitchbot/knowledge/graph.py:118-191 | a claim is confirmed exactly when the customer confirmed a revision that introduces its fact, and names such a revision and its time |
| KnowledgeGraph.AsOf | src/pitchbot/knowledge/graph.py:155-192 | as-of theorem: at every version of every log engines can write, the claims whose interval contains the version are, session by session, exactly the facts replayed from that much of the log |
| KnowledgeGraph.AsOfCheckpoint | src/pitchbot/knowledge/graph.py:155-192 | the same against the facts of the replayed checkpoint itself |
| Chains.ChainsAreLinear | src/pitchbot/conversation/journal.py:599-635 | in every log engines can write no fact is superseded twice and none replaces two, and the facts of each session and key are exactly one chain with increasing versions, from the one fact that replaces nothing to the one that stands, which is the session state's |
| Chains.ProducedChained | src/pitchbot/conversation/rules.py:1570-1593 | two revisions never have the same replacement, and each session and key has exactly one fact that replaces nothing |
| KnowledgeGraph.ConflictsAcrossSessions | src/pitchbot/knowledge/graph.py:103-128 | a claim is reported conflicting exactly when it stands and another session's standing fact under its key has another value |
| KnowledgeGraph.ProducedGraphIsValid | src/pitchbot/knowledge/graph.py:95-146 | the projected graph of every log engines can write passes the graph's own validation |
| CallbackLocks.EveryRunKeeps | src/pitchbot/actions/callbacks.py:61-90 | in every interleaving of arrivals, acquisitions, cancelled waits and releases: everyone inside for a key refers to the one stored lock, the count is their number, and keys never share a lock |
| CallbackLocks.MutualExclusion | src/pitchbot/actions/callbacks.py:65-84 | at most one task is inside any callback's section although locks are dropped and recreated |
| CallbackLocks.OnlyTheSameKeyBlocks | src/pitchbot/actions/callbacks.py:39-59 | a waiting task may proceed exactly when no task holds its own key: different callbacks never wait for each other |
| CallbackLocks.NoLockOutlivesItsTasks | src/pitchbot/actions/callbacks.py:86-90 | the table holds exactly the keys somebody is inside for, so it is empty when idle |
| CallbackLocks.LeavingNeverFails | src/pitchbot/actions/callbacks.py:78-84 | a task inside always finds the lock it was given still stored and the count equal to the number of tasks inside, cancelled waits included |
| CallbackLocks.LockTable.Enter | src/pitchbot/actions/callbacks.py:65-75 | find or create the lock and count the caller before waiting |
| CallbackLocks.LockTable.Exit | src/pitchbot/actions/callbacks.py:76-84 | uncount the caller, and forget a lock nobody refers to |
| Callbacks.CallbackService.BeginSchedule | src/pitchbot/actions/callbacks.py:132-193 | schedule up to the scheduler call: replay, conflict, capacity, block, or a new pending schedule, and the whole new state |
| Callbacks.CallbackService.EndSchedule | src/pitchbot/actions/callbacks.py:193-215 | schedule once the scheduler answered |
| Callbacks.CallbackService.BeginCancel | src/pitchbot/actions/callbacks.py:221-248 | cancel up to the scheduler call, every refusal included |
| Callbacks.CallbackService.EndCancel | src/pitchbot/actions/callbacks.py:249-270 | cancel once the scheduler answered: canceled and stored, or a tombstone |
| Callbacks.CallbackService.BeginDispatch | src/pitchbot/actions/callbacks.py:302-323 | dispatch of one callback up to the dial, re-checked under its lock |
| Callbacks.CallbackService.EndDispatch | src/pitchbot/actions/callbacks.py:321-339 | dispatch once the dial succeeded |
| Callbacks.CallbackService.BeginRemoveSchedule | src/pitchbot/actions/callbacks.py:381-396 | removal of a schedule with unknown outcome: the remembered or a newly minted cleanup key |
| Callbacks.CallbackService.EndRemoveSchedule | src/pitchbot/actions/callbacks.py:397-409 | its second stretch: everything of the schedule dropped, or a tombstone |
| Callbacks.CallbackService.BeginRemoveRecord | src/pitchbot/actions/callbacks.py:411-466 | removal of a record by status up to the cleanup cancellation; a dispatched record is cancelled only for a scheduler that keeps operations in memory, else forgotten at once |
| Callbacks.CallbackService.EndRemoveRecord | src/pitchbot/actions/callbacks.py:425-478 | its second stretch: everything of the callback forgotten, or a tombstone |
| Callbacks.CallbackService.ReleaseFailedCancellations | src/pitchbot/actions/callbacks.py:528-547 | drops exactly the tombstones of the prefix whose callbacks are gone from every live map |
| CallbackRuns.MapsAlwaysAgree | src/pitchbot/actions/callbacks.py:132-270 | at every await point of every interleaving: pending records are exactly those with a cancellation key, one pending schedule per callback and none beside an active record, incarnations present, fingerprint keys are result keys plus tombstones, active ids within capacity |
| CallbackRuns.NoLookupFails | src/pitchbot/actions/callbacks.py:491-506 | no reachable operation meets inconsistent idempotency state or a missing lookup, and a successful dial always finds its record unchanged: the removed-while-dialing guard is never taken |
| CallbackRuns.CallbacksAreIndependent | src/pitchbot/actions/callbacks.py:39-59 | a stretch about one callback changes no entry, flight, key or attempt of any other: one lock per callback is enough |
| CallbackRuns.NoDialAfterCancel | src/pitchbot/actions/callbacks.py:294-339 | once a cancel has reached the scheduler, in no later state of any run does dispatch dial that incarnation, however the cancel ends |
| Lifecycle.EveryMoveFollows | src/pitchbot/actions/callbacks.py:132-478 | every move of every interleaving moves every callback exactly as a small automaton of phases does, references, reasons and incarnations included: the ten maps refine one life per callback |
| Lifecycle.FirstStretchMoves | src/pitchbot/actions/callbacks.py:132-466 | an adapter is asked exactly when the automaton says: to schedule when the callback is unknown, in time, with room and allowed, to dial when due and allowed, to cancel when it may be |
| Lifecycle.HeldUntilAccepted | src/pitchbot/actions/callbacks.py:381-478 | a callback that may still ring or be held by the scheduler is let go only when the scheduler accepts its cancellation or refuses its schedule |
| Lifecycle.AcceptedScheduleIsFiled | src/pitchbot/actions/callbacks.py:205-215 | an accepted schedule is filed as scheduled under the adapter's reference and its incarnation, and its key answers with it |
| Lifecycle.AcceptedCancelIsFiled | src/pitchbot/actions/callbacks.py:261-270 | an accepted cancel is filed as canceled under the adapter's reference, and its key answers with it |
| Lifecycle.DialedOnce | src/pitchbot/actions/callbacks.py:319-339 | a dial that succeeded leaves the callback dispatched under the adapter's reference, and no later dispatch of any run dials that incarnation |
| Lifecycle.RejectedIsTombstoned | src/pitchbot/actions/callbacks.py:524-526 | a cancellation refused for good leaves its key as a tombstone, except for a callback already dispatched |
| Lifecycle.CleanupKeyIsKept | src/pitchbot/actions/callbacks.py:385-391 | the cleanup key of a pending schedule is remembered through every move until the scheduler answers it |
| Lifecycle.LostCleanupKeepsItsKey | src/pitchbot/actions/callbacks.py:381-455 | a cleanup cancellation that was lost is retried under the key it holds, changing nothing |
| Lifecycle.RejectedCleanupIsNotReused | src/pitchbot/actions/callbacks.py:385-403 | a cleanup key the scheduler refused for good is not remembered: the next removal of the schedule mints another |
| Lifecycle.CleanupKeysAreMinted | src/pitchbot/actions/callbacks.py:381-465 | a removal asks with the cleanup key held for its callback and otherwise with one never minted before, and nothing is minted that is not asked with |
| Lifecycle.AcceptedRemovalForgets | src/pitchbot/actions/callbacks.py:404-478 | a removal the scheduler accepts leaves nothing of the callback, neither decided keys nor the attempt counter of its incarnation, but tombstones |
| Lifecycle.ChangesAreStamped | src/pitchbot/actions/callbacks.py:205-455 | a record is changed only by an operation on its callback and carries the time of that operation |
| Lifecycle.DecidedScheduleKey | src/pitchbot/actions/callbacks.py:491-506 | a decided schedule key answers its own request with what was stored and refuses any other |
| Lifecycle.DecidedCancelKey | src/pitchbot/actions/callbacks.py:491-506 | a decided cancel key answers its callback with what was stored, or is refused if its cancellation failed for good |
| CallbackRuns.CleanupKeysNeverRepeat | src/pitchbot/actions/callbacks.py:518-522 | every cleanup key minted in a run is new, so a key that failed for good is never minted again |
| CallbackRuns.TombstonesOutliveCallbacks | src/pitchbot/actions/callbacks.py:524-547 | a tombstone is dropped exactly by a release of its prefix when its callback has neither record nor pending schedule; while it stands its key is refused and changes nothing |
| CallbackRuns.InvalidTimeOverwritesIff | src/pitchbot/actions/callbacks.py:147-151 | for every state and request of an active callback: its record is replaced exactly when the key is undecided, not pending, and the time is invalid |
| CallbackRuns.ScheduleKeepsAgreementIff | src/pitchbot/actions/callbacks.py:132-195 | for every agreeing state and every request under any key: the maps agree after the first stretch of schedule exactly unless the key is undecided and not pending, the time is invalid, and the callback's cancellation is pending |
| CallbackRuns.FirstCancelReplaysIff | src/pitchbot/actions/callbacks.py:508-516 | of two overlapping successful cancels of different callbacks the first is answered again with its record exactly when the keys differ |
| CallbackRuns.MoveAnswers | src/pitchbot/actions/callbacks.py:491-516 | every move of every operation keeps a decided key's answer exactly when it keeps the record of the key's callback |
| CallbackRuns.AnswersAreReplayed | src/pitchbot/actions/callbacks.py:491-506 | over every run, while its callback has a record, a decided key is answered the same again: the stored record for the same input, the same refusal for any other |
| CallbackMachine.StepKeeps | src/pitchbot/actions/callbacks.py:132-478 | every stretch of every operation keeps the invariant of all callbacks, operations in flight, capacity and minted keys |
| CallbackMachine.ReleaseKeeps | src/pitchbot/actions/callbacks.py:528-547 | releasing tombstones keeps it too, whatever is in flight |
| Teardown.RemoveByPrefix | src/pitchbot/actions/callbacks.py:347-379 | with no overlapping operation on the prefix and arbitrary operations elsewhere at every await, a teardown that finishes leaves no record, pending schedule, pending cancellation, result, fingerprint, incarnation or tombstone of the prefix; it finishes when every cancellation is accepted, and on its own changes nothing outside the prefix, finished or not |
| Teardown.TeardownIsFramed | src/pitchbot/actions/callbacks.py:381-478 | each of its moves leaves every entry of every map, values included, and every operation in flight outside the prefix as it was |
| Adapters.OneActionPerKey | src/pitchbot/adapters/mocks.py:202-255 | over every sequence of calls and clears at most one action is recorded per key, and exactly while the key has a result |
| Adapters.RetriesRepeat | src/pitchbot/adapters/mocks.py:213-254 | after a success the same call returns the same result and records nothing, until a clear covers its key |
| Adapters.OtherInputIsRefused | src/pitchbot/adapters/mocks.py:225-231 | over every sequence of calls a used key refuses any other input and changes nothing, until a clear covers it |
| Adapters.RecordedIff | src/pitchbot/adapters/mocks.py:213-255 | a call is recorded exactly when its key is not blank and not in use, no failure is scripted for it, and there is room |
| Adapters.HistoryIsBounded | src/pitchbot/adapters/mocks.py:237-238 | the history never outgrows its bound |
| Adapters.ClearForgets | src/pitchbot/adapters/mocks.py:202-211 | clearing forgets exactly the keys of the prefix |
| Adapters.ScriptRunsDown | src/pitchbot/adapters/mocks.py:233-236 | over every sequence of calls the scripted outcomes are handed out once each, in order, one to each call that is neither blank nor a replay |
| Adapters.ReferencesDiffer | src/pitchbot/adapters/mocks.py:241-245 | as long as nothing is cleared no two held results have the same provider reference |
| Adapters.RepeatsReferenceIff | src/pitchbot/adapters/mocks.py:241-245 | a new action repeats a held reference exactly when a held result of its operation already has the next number |
| Adapters.ClearedNumberIsReused | src/pitchbot/adapters/mocks.py:202-245 | after a clear, two held results can have the same provider reference, whatever the keys |
| Adapters.IdempotentActions.RecordAction | src/pitchbot/adapters/mocks.py:213-254 | one call: replay, conflict, scripted failure, full history, or a new action, and the whole new state |
| Adapters.IdempotentActions.ClearOperations | src/pitchbot/adapters/mocks.py:202-211 | drops exactly the keys of the prefix from results, fingerprints and history |
| Dialing.AtMostOneDialPerSchedule | src/pitchbot/actions/callbacks.py:319-320 | in every run, however often dispatch retries, a callback's dials all carry its schedule's key, different callbacks' keys differ, and the adapter holds at most one recorded dial per key until teardown clears it |
| Briefings.Briefing.Observe | src/pitchbot/deliberation/briefing.py:140-158 | the last 200 observations are kept, the version always rises, the conclusion is untouched, and an empty value is refused after the version rose |
| Briefings.Briefing.Conclude | src/pitchbot/deliberation/briefing.py:160-183 | stored unless overtaken, refused exactly when ahead of the version, observations untouched |
| Briefings.ObservedKeeps | src/pitchbot/deliberation/briefing.py:140-158 | observations stay bounded, non-empty and numbered in increasing order not beyond the counter |
| Briefings.ObservedIsNewest | src/pitchbot/deliberation/briefing.py:140-158 | what is observed becomes the newest observation under the new version, all of it or its first 300 characters, and only the oldest makes room |
| Briefings.StoredIff | src/pitchbot/deliberation/briefing.py:160-183 | a conclusion is stored exactly when it is neither ahead of the facts nor older than the one held, and the board stays valid whatever is offered |
| Lanes.YieldBudget.ShouldStop | src/pitchbot/deliberation/lanes.py:187-194 | stops exactly for a turn in flight or an exhausted budget, and blames the turn first |
| Deliberations.Deliberator.ShouldDeliberate | src/pitchbot/deliberation/deliberator.py:121-128 | thinking is worth it exactly when nothing runs, no turn is in flight, enough topics are known and no current plan exists |
| Deliberations.Deliberator.Begin | src/pitchbot/deliberation/deliberator.py:130-154 | reads version and facts together before claiming the lane; a second deliberation, or one without facts, does nothing |
| Deliberations.Deliberator.Complete | src/pitchbot/deliberation/deliberator.py:155-186 | only a whole plan reaches the briefing; every other ending counts as preempted and changes nothing |
| Deliberations.CurrentPlanIsGrounded | src/pitchbot/deliberation/briefing.py:209-214 | with any number of deliberations in flight, a plan returned as current is whole and came from a generation never told to stop, asked about exactly the present observations, trimming notwithstanding |
| Deliberations.WholePlanBecomesCurrent | src/pitchbot/deliberation/deliberator.py:170-186 | a generation that ends with a whole plan while nothing was observed since it asked makes that plan current |
| Deliberations.QuietAnswerBecomesCurrent | src/pitchbot/deliberation/deliberator.py:130-186 | over every run and whatever else happens in between, an answer with something in every field to a question since which nothing was observed becomes the current plan, its empty entries dropped |
| Deliberations.ToPlanIff | src/pitchbot/deliberation/deliberator.py:232-254 | an answer is a plan exactly when it names a competitor, a differentiator and a page |
| Deliberations.ConclusionsOnlyAdvance | src/pitchbot/deliberation/briefing.py:160-183 | over every run the stored `derived_from_version` never decreases and never exceeds the version |
| Deliberations.AtMostOneTokenPerTurn | src/pitchbot/adapters/onnx_genai_model.py:456-461 | while a turn is in flight each generation, even a cancelled one, produces at most one further token, and none unless it had looked before the turn began |
| Deliberations.UndisturbedGoesOn | src/pitchbot/deliberation/lanes.py:187-194 | a generation is told to stop only for a turn or for time |
| Deliberations.DepthCounts | src/pitchbot/deliberation/lanes.py:76-97 | a turn is in flight exactly while more sections were entered than left |
| Deliberations.TurnsAndStopsAreCounted | src/pitchbot/deliberation/lanes.py:76-112 | over every run a turn is counted for each outermost section and a stop for each look during a turn |
| Deliberations.TokensAreCounted | src/pitchbot/adapters/onnx_genai_model.py:456-461 | over every run a generation has as many tokens as times it was let produce one |
| Deliberations.GenerationsAreConserved | src/pitchbot/deliberation/lanes.py:142-158 | started is completed plus preempted plus awaited plus cancelled, so the reported statistics add up exactly when nothing was cancelled |
| Deliberations.EndingsAreCounted | src/pitchbot/deliberation/deliberator.py:157-180 | over every run completed counts the generations that ended with a whole plan, preempted those that ended without one |
| Deliberations.OneAtATime | src/pitchbot/deliberation/deliberator.py:138-168 | a deliberator never awaits two generations and is running while it awaits one |
| Deliberations.ConclusionIsNeverAhead | src/pitchbot/deliberation/briefing.py:168-173 | the ownership error of `conclude` cannot occur for a deliberation |
| PhraseIndex.ContainsPhrase | src/pitchbot/conversation/rules.py:2000-2019 | indexed search over every reading behind the disjointness prefilter finds a phrase exactly when trying every phrase at every position does |
| PhraseIndex.TokensContainPhrase | src/pitchbot/conversation/rules.py:2013-2019 | the same for one reading |
| PhraseIndex.BuildIndex | src/pitchbot/conversation/rules.py:231-263 | each opening form lists exactly the phrases that have it, inflected and joined forms included |
| PhraseIndex.OpenerIsAForm | src/pitchbot/conversation/rules.py:231-245 | a phrase that begins at a token has that token among its indexed forms |
| PhraseIndex.SpanSpells | src/pitchbot/conversation/rules.py:2022-2047 | the tokens a phrase spans spell its words, with at most one listed inflection at the end |
| PhraseIndex.SpanIff | src/pitchbot/conversation/rules.py:2022-2041 | a phrase is spanned at a position exactly when it is spelled out there word by word, the last possibly inflected, or joined up in one token |
| PhraseIndex.PhraseCountsIff | src/pitchbot/conversation/rules.py:2013-2063 | it counts there unless its last word is an artefact and a scope follows |
| PhraseIndex.CarriesIff | src/pitchbot/conversation/rules.py:2044-2047 | a token carries a word exactly as itself or with one listed inflection where those are allowed |
| SplitTokens.MergeSplitTokens | src/pitchbot/conversation/rules.py:2097-2122 | returns nothing exactly when no merge is possible anywhere, else a shorter list with the text of every clause unchanged, whose new tokens are known safety words |
| SplitTokens.RepairKeepsText | src/pitchbot/conversation/rules.py:2108-2122 | repair never changes the text of any clause, so it never joins across a barrier |
| SplitTokens.MergeSpanIsWidest | src/pitchbot/conversation/rules.py:2125-2140 | the span chosen is the widest possible, and there is none exactly when none is possible |
| Templates.SearchIff | src/pitchbot/conversation/rules.py:2306-2335 | the bounded backtracking search succeeds exactly when a declarative assignment exists: distinct, in order, adjacent, within gaps, trailing checked |
| Templates.PrefilterIsLossless | src/pitchbot/conversation/rules.py:2260-2290 | a template whose groups are not all present matches nowhere |
| Templates.MatchesTemplate | src/pitchbot/conversation/rules.py:2260-2290 | the scan with its set prefilter decides whether the template matches at some position |
| Templates.MatchMeans | src/pitchbot/conversation/rules.py:2260-2303 | what a match is: an anchor not preceded by a rejected word, and in its window no rejected word, no report of the buyer's own words where rejected, and an assignment of every group |
| Templates.ClauseCompositional | src/pitchbot/conversation/rules.py:2238-2290 | a template matches a turn exactly when it matches one of the turn's clauses alone |
| Tokens.SplitClauses | src/pitchbot/conversation/rules.py:2238-2245 | the clause loop returns the maximal non-empty runs between barriers |
| Tokens.ClausesPartition | src/pitchbot/conversation/rules.py:2238-2245 | clauses are barrier-free maximal runs and every word lies in one |
| EditDistance.TwoRowDistance | src/pitchbot/benchmarks/metrics.py:17-30 | the two-row loop returns the least cost over all edit scripts |
| EditDistance.DistanceIsMetric | src/pitchbot/benchmarks/metrics.py:17-30 | that least cost is a metric, between the length difference and the longer length |
| EditDistance.Compose | src/pitchbot/benchmarks/metrics.py:17-30 | scripts from a to b and b to c combine into one from a to c costing no more than both |
| Intervals.Merge | src/pitchbot/benchmarks/metrics.py:94-105 | merging returns a sorted, strictly separated list covering the same points |
| Intervals.MergedFormIsUnique | src/pitchbot/benchmarks/metrics.py:94-105 | separated lists covering the same points are equal: merging is idempotent and indifferent to order |
| Intervals.Overlap | src/pitchbot/benchmarks/metrics.py:112-128 | the two-pointer sweep equals the sum of all pairwise intersections |
| Intervals.OverlapFacts | src/pitchbot/benchmarks/metrics.py:108-128 | the overlap is at most either duration, and equals both exactly when the two lists cover the same points |
| Intervals.PairSumSymmetric | src/pitchbot/benchmarks/metrics.py:112-128 | the overlap does not depend on which list is the reference |
| Intervals.VadScore | src/pitchbot/benchmarks/metrics.py:131-146 | for arbitrary interval lists the score computed is that of the merged lists' pairwise intersections, lies in [0, 1], and has F1 of 1 exactly when both lists cover the same points |
| Intervals.ScoresAreBounded | src/pitchbot/benchmarks/metrics.py:131-146 | precision, recall and F1 lie between 0 and 1, and F1 is 1 exactly when prediction and reference cover the same points |
| Intervals.ScoreRatios | src/pitchbot/benchmarks/metrics.py:131-146 | precision is the share of the prediction, recall the share of the reference, F1 their harmonic mean, with the empty cases as coded |
| Frames.FramesToIntervals | src/pitchbot/benchmarks/audio.py:154-168 | the scan yields separated intervals with the points and the measure of the flagged frames, and fails exactly for speech under a non-positive frame length |
| Frames.PaintingInverts | src/pitchbot/benchmarks/audio.py:154-168 | painting the intervals back gives the flags, and merging changes nothing |
| Frames.IntervalScoreIsFrameScore | src/pitchbot/benchmarks/metrics.py:131-146 | the interval score of two flag vectors equals the per-frame score TP/(TP+FP), TP/(TP+FN), empty cases included |
| Frames.ScoreFrames | src/pitchbot/benchmarks/speech.py:354-357 | scanning both flag vectors, merging, sweeping and scoring gives the per-frame score, in [0, 1], with an F1 of 1 exactly for equal vectors; it fails exactly for speech under a non-positive frame length |

## Left out

- Web server, WebSocket, browser code, migrations, settings, metrics and logging: I/O and plumbing.
- Speech, language-model, WhatsApp and ONNX adapters: foreign libraries; only the token loop between two looks is modelled.
- Regular expressions, Unicode normalisation, homoglyph folding, phrase tables and reply copy: vocabularies are arbitrary sets and readings are inputs.
- Reply counters (`asked_slot_counts`, `closing_count`, `understood_slot_keys`) and reply rendering: not part of a checkpoint.
- History budgets, event size limits and deadlines: they only add early refusals to loading and projecting.
- Privacy states, redaction and first-version events: every aggregate is active and every event has the current shape.
- Digest keys and HMAC: digests and key identifiers are arbitrary values that are only compared.
- `dispatch_due` as a batch: the due set and its order are not modelled; each callback's dispatch under its own lock is, at any time.
- Scheduler jobs: the adapter's `jobs` table, and jobs of callbacks blocked at dispatch, which teardown does not cancel.
- `_pending_schedule_cancellations` and `_cleanup_attempts` after teardown: nothing is claimed about what remains in them.
- `wait_until_idle`, and how `BackgroundDeliberation` owns its asyncio job: cancellation is a step that may happen at any await.
- Policy gates, circuit breaker and retry loop: small case tables.
- Deck building, retrieval and follow-up summaries: separate features outside this core.
- Tuple order of `dict.fromkeys` on block reasons: the reasons of a blocked record are taken as the policy lists them.
