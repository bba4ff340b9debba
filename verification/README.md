# Verified models of the Hearthstone simulator and of Book Smartz

Two programs of the repository keep state over long histories: the card-game
simulator (`hearthstone_simulator/`) and the book-ranking service
(`book_smartz/`). This project models their state machines and their arithmetic
and text kernels in Dafny and proves what they promise over whole histories.

**The resolution machine of the simulator.** Everything a played card causes is
work on one LIFO stack of one-shot operations. Side tables hold prepared events,
event slots, draw results, play scopes, self-transform markers and durability
payers; a budget bounds the work, and a choice suspends it. Effects form a small
language with a static validator.
`EffectLanguage` is the language and its validator. `ResolutionMachine` has every
operation and effect as a function of the tables, an id and an input that carries
what the world answers. The main results:

- *One owner for every entry.* A ledger computed from the stack alone says which
  entries the stack owes. Every operation pays for what it takes and charges what
  it pushes (`ResolutionOwnership`, `OwnershipSteps`, `OwnershipEffects`,
  `OwnershipDispatch`), so over any session tables and stack agree, each entry has
  exactly one completion, every borrower sits above it, an idle game retains
  nothing, and no lookup of a missing, empty or filled entry is ever reported
  (`ResolutionSessions`).
- *The drive loop is a recursive, depth-first evaluation*, suspension at choices
  included; ids are executed at most once, and one budget pays for the whole
  sequence (`ResolutionRuns`, `ResolutionSessions`). `ResolutionDriver` is the
  driver with the fields it overwrites in place, proved against these functions.
  `ResolutionAnswers` ties the run through all choices to the commands that answer
  them one by one.
- *Validated programs do not go wrong* (`ResolutionTyping`, `TypingSteps`,
  `TypingEffects`, `ResolutionSafety`). A game is set up without a look at its
  triggers; `UnacceptedTriggers` gives the sessions that go wrong and, for triggers
  on the ends and starts of turns whose first effect decides, the exact condition.
- *A self transform runs only in a sequence that started by playing one*, over any
  commands and through any choices (`Scheduling`, `SelfTransforms`).
- *Every pause passes the walks of the checkpoint* (`ResolutionValidators`), and a
  session is accepted again exactly when its pending copies still fit and its
  enchantments carry proper triggers (`RestoredPrograms`).
- *Only restoring looks at the policy stored with a pending copy.* A run takes the
  policy from the world as it is, so sessions that differ in stored policies do the
  same (`CopyPolicies`). `UnrestorablePauses` is a session of a new game whose saved
  pause is refused for such a policy, and for nothing else, while the answer carries
  the copy out.

**The save protocol of the service.** An action goes from intent, possibly over a
prepared registration, to a prepared ranking event or a rejection, and then to
saved; each arrow is its own transaction. `SaveProtocol` makes every transaction a
step with three ends (acknowledged, lost after commit, rolled back) and
interleaves any number of requests, retries and crashes. `SaveProtocolRuns` proves
what every interleaving keeps. `saved` means that the prepared document is among
the ranking documents, `rejected`, `prepared` and `registration prepared` that the
action's first such fact exists, and `unresolved` that it has an intent and is
neither saved nor rejected, as in `book_smartz/web/actions/evidence.rs`.
`Composition` is the locked transaction scope, and `RankingProjection`,
`RankingCommands` and `RankingRuns` are the event-sourced pairwise ranking: replay,
commands, notices, and what answers mean over whole histories.

**Kernels.** `TurnSchedules` (natural and extra turns), `Auras` with `Sorting` (aura
discovery and incremental caches), `HealthLaw` (damage under changing maxima), `Randomness`
(SplitMix64 and the random pick), `JsonNumbers` with `Decimals` (canonical forms of
number texts), `WireKeys` (sequence keys), `ApplicationRows` (loading the application
history), `CloudEvents` (ranking events as documents) and `DiagnosticsDelivery` (gate,
queue, worker and loss summaries under any interleaving).

Code that works in place is a class or a loop here too: the driver, the mutable
projection, the ranking, the transaction scope, the turn schedule, the aura caches,
the character, the generator, and the two checkpoint walks. Each method is tied to
a function of the old state, and the histories are proved about those functions.

Where code and documentation differ the model follows the code. The assertion about
the anchor of after-current grants (`hearthstone_simulator/core/game.rs:67`) does not
hold in every run: `AssertionDoesNotAlwaysHold` is one in which it fails.
`AnchorAlwaysFitsUnlessLeft` gives the exact condition on the turns of a run,
`AssertionHoldsUnlessStale` the one on its grants, and `QueuedTurnsLeaveAnchors` what
can be seen in the schedule before a grant is made. Not every pause a session
reaches is accepted when it is restored; `RestoredExactlyWhenCopiesFit` says which,
and `RefusedThoughItGoesOn` is one that is not.
Appending a fact may take the largest 64-bit sequence number, but a history that long
is refused when it is loaded (`DecodeRows`).

## Model

| member | source | states |
|---|---|---|
| RankingProjection.NextPosition | book_smartz/domain/projection.rs:243-253 | an unpaused placement always has an opponent, and it is an unskipped position of lo..hi |
| RankingProjection.Nearest | book_smartz/domain/projection.rs:248-252 | the offered position is the open one closest to the middle, the left one on a tie; there is none only if all are skipped |
| RankingProjection.ApplyKind | book_smartz/domain/projection.rs:122-193 | every accepted event keeps entries distinct, the candidate unranked, lo below hi within the list, and an unpaused gap with an open position |
| RankingProjection.MutableProjection.ApplyEventKind | book_smartz/domain/projection.rs:122-193 | overwriting entries and session in place is ApplyKind, and a refusal changes nothing |
| RankingProjection.MutableProjection.ApplyEvent | book_smartz/domain/projection.rs:98-120 | works on a clone: the result is Apply, with reader, overflow, sequence and duplicate checks in that order |
| RankingProjection.ReplayHistory | book_smartz/domain/projection.rs:80-96 | the replay loop is the fold of Apply and stops at the first invalid event |
| RankingRuns.TruthfulReadersGetSortedLists | book_smartz/domain/projection.rs:122-193 | if all answers but skips follow one strict total order, entries are sorted by it after any history, and a pending candidate belongs between lo and hi |
| RankingRuns.EveryAnswerIsRespected | book_smartz/domain/projection.rs:152-193 | without any oracle, every recorded preference is respected in every later state, by the entries or by the gap of the pending book |
| RankingRuns.RankedBooksNeverSwap | book_smartz/domain/projection.rs:80-120 | books once ranked keep their entries and their relative order for ever |
| RankingRuns.EveryAnswerShrinksTheChoice | book_smartz/domain/projection.rs:152-193 | each answer, a skip too, strictly shrinks the positions still to be offered |
| RankingRuns.FewAnswersBetweenResumes | book_smartz/domain/projection.rs:152-193 | between resumes a placement takes at most as many answers as entries |
| RankingRuns.AnswerHalvesTheGap | book_smartz/domain/projection.rs:243-253 | without skips the middle is offered, so an answer at least halves the gap |
| RankingRuns.BinarySearchBound | book_smartz/domain/projection.rs:152-193 | k answers without skips leave a gap only if that gap, doubled k times, is within the first one, and place the book only if 2^(k-1) is |
| RankingRuns.PlacementIsLogarithmic | book_smartz/domain/projection.rs:135-193 | placing among n others without skips takes at most floor(log2 n) + 1 answers |
| RankingCommands.DecideAcceptsExactlyLegal | book_smartz/domain/command.rs:32-103 | a command is accepted if and only if it is current, unrepeated and legal, and then its event applies |
| RankingCommands.Ranking.Execute | book_smartz/domain/command.rs:144-158 | keeps the projection equal to the replay of the history; a rejection changes nothing |
| RankingCommands.ReplayOfConcatenation | book_smartz/domain/projection.rs:80-96 | replaying a concatenation is replaying the suffix from the state of the prefix |
| RankingCommands.RunIsItsReplay | book_smartz/domain/command.rs:111-158 | after any accepted and rejected commands the projection is the replay, the revision counts the events, and no event id occurs twice |
| RankingCommands.NoticesAreFaithful | book_smartz/domain/notice.rs:46-77 | at most one notice; "ranked" exactly on insertion, with the true index and count; "paused" exactly when an answer left every position of the gap skipped |
| RankingCommands.RankedNoticesCountEntries | book_smartz/domain/notice.rs:46-77 | over a run, "ranked" notices number exactly the entries gained |
| Composition.CommandTransaction.AppendRanking | book_smartz/storage/composition.rs:68-101 | stages a document if and only if the scope is clean, none is staged, the revision is the expected one and the whole history accepts it; any error poisons the scope |
| Composition.CommandTransaction.AppendApplication | book_smartz/storage/composition.rs:103-127 | stages a fact of this reader in the next place, at most once, without moving the ranking |
| Composition.CommandTransaction.Commit | book_smartz/storage/composition.rs:129-137 | publishes everything staged or nothing; a poisoned scope publishes nothing; published histories replay and are gapless |
| SaveProtocolRuns.SaveKeepsSound | book_smartz/web/actions.rs:626-721 | the prepared document is accepted at the intent's revision, is then in the ranking, and leaves nothing unresolved |
| SaveProtocolRuns.DecisionKeepsSound | book_smartz/web/actions.rs:855-927 | deciding at the locked state freezes a document that fits the ranking, or rejects |
| SaveProtocolRuns.StepIsSound | book_smartz/web/actions.rs:624-948 | one transaction of one request, however it ends, keeps the reader's evidence and every other request's knowledge sound |
| SaveProtocolRuns.EveryInterleavingIsSound | book_smartz/web/actions.rs:225-430 | whatever requests arrive, crash, retry and interleave, committed state and requests stay sound, and evidence only grows |
| SaveProtocolRuns.EachActionIsSavedAtMostOnce | book_smartz/web/actions.rs:624-815 | in every reachable state: one fact of each stage, never both saved and rejected, at most one unresolved action per reader, and the frozen event in the ranking once if saved and not at all otherwise |
| SaveProtocolRuns.ReportsNeverDisagree | book_smartz/web/actions.rs:624-721 | once a request reports saved or rejected, no report on that action names another fate, and none that comes later finds it missing or blocked |
| SaveProtocolRuns.PreparedActionsAlwaysSave | book_smartz/web/actions.rs:636-721 | while an action is prepared and unsaved the revision is its intent's, so the rejection after preparation is unreachable |
| SaveProtocolRuns.RequestsLoopAtMostFourTimes | book_smartz/web/actions.rs:626-721 | with any concurrent helpers a request is at the top of its loop at most four times |
| SaveProtocolRuns.UnresolvedAmongIsExact | book_smartz/web/actions/evidence.rs:113-163 | the scan takes each action's id from its intent and names it if and only if it is neither rejected nor saved |
| SaveProtocolRuns.UnresolvedActionsAreNamed | book_smartz/web/actions/evidence.rs:113-163 | in every reachable state the scan names exactly the unresolved actions |
| EffectLanguage.AcceptedMeansEveryEffect | hearthstone_simulator/simulator/simulation_effect_executor.rs:563-622 | a program is accepted only if each of its effects is accepted alone in the same context |
| EffectLanguage.AttachedTriggersAreAccepted | hearthstone_simulator/simulator/simulation_effect_executor.rs:636-678 | an accepted trigger enchantment carries only accepted triggers |
| EffectLanguage.PlayContextAddsOnlyPlayedSelf | hearthstone_simulator/simulator/simulation_effect_executor.rs:548-634 | the ordinary context accepts exactly the minion-play programs without a self transform |
| ResolutionOwnership.ReleasedSlotOwesItsEvent | hearthstone_simulator/simulator/simulation_event_resolver.rs:79-89 | resolving a filled slot turns its event into an owed one, an empty slot just goes |
| ResolutionOwnership.FilledSlotHoldsItsEvent | hearthstone_simulator/simulator/simulation_health.rs:353-366 | filling a vacant slot with a fresh event owes nothing new |
| OwnershipSteps.ExpandOwns | hearthstone_simulator/simulator/simulation_event_resolver.rs:347-388 | expanding an event pushes its attempts above one finish, and all of them borrow the event |
| OwnershipSteps.AttemptOwns | hearthstone_simulator/simulator/simulation_event_resolver.rs:391-429 | a trigger's effects only borrow the event they answer |
| OwnershipSteps.PhaseBoundaryOwns | hearthstone_simulator/simulator/simulation_event_resolver.rs:445-487 | each recorded death gets one resolve operation, and another boundary runs below them |
| OwnershipSteps.ExpandBatchOwns | hearthstone_simulator/simulator/simulation_health.rs:68-89 | a batch allocates one slot per request, fills each by one operation and resolves each by another below |
| OwnershipEffects.ProcessHealthOwns | hearthstone_simulator/simulator/simulation_health.rs:91-126 | a proposed event is recorded together with the operation that consumes it |
| OwnershipEffects.ApplyHealthOwns | hearthstone_simulator/simulator/simulation_health.rs:128-146 | applying consumes the proposal once and fills the slot at most once |
| OwnershipEffects.FillDrawOwns | hearthstone_simulator/simulator/simulation_player.rs:101-195 | a draw fills the slot allocated for it, and what it announces is owed |
| OwnershipEffects.ContinueDrawOwns | hearthstone_simulator/simulator/simulation_event_resolver.rs:152-172 | the continuation takes the filled draw slot away exactly once |
| OwnershipEffects.FinishPlayOwns | hearthstone_simulator/simulator/simulation_event_resolver.rs:290-334 | finishing a play closes its own scope and announces what remains |
| OwnershipDispatch.EffectOwns | hearthstone_simulator/simulator/simulation_effect_executor.rs:114-546 | every effect of the language owns what it pushes and never reports a mismatch of stack and tables |
| OwnershipDispatch.PlayCardOwns | hearthstone_simulator/simulator/simulation_action.rs:472-576 | a played card opens its scope with exactly one finish operation below everything that uses it |
| OwnershipDispatch.CombatDamageOwns | hearthstone_simulator/simulator/simulation_action.rs:693-742 | a weapon's payment is captured under the id the payment operation will have |
| OwnershipDispatch.DispatchOwns | hearthstone_simulator/simulator/simulation_event_resolver.rs:42-242 | what any operation takes it pays for, what it pushes settles on the rest of the stack, and it reports no internal mismatch |
| ResolutionRuns.UpperPartFirst | hearthstone_simulator/simulator/resolver.rs:119-144 | the upper part of a stack runs to completion, with all it schedules, before the lower part and independently of it |
| ResolutionRuns.DriveIsDepthFirst | hearthstone_simulator/simulator/simulation_action.rs:299-331 | the drive loop computes the recursive depth-first meaning of the stack |
| ResolutionRuns.DrivingTouchesNothingBelow | hearthstone_simulator/simulator/simulation_action.rs:299-331 | what lies below is kept at a pause and comes next when the upper part is done |
| ResolutionRuns.PausesOfferOptions | hearthstone_simulator/simulator/simulation_event_resolver.rs:231-240 | a pause leaves a valid choice with at least one option |
| ResolutionRuns.SuspensionIsInvisible | hearthstone_simulator/simulator/simulation_action.rs:353-379 | suspending at choices and answering is the same as pushing the chosen operations in place |
| ResolutionRuns.EachOperationRunsOnce | hearthstone_simulator/simulator/resolver.rs:119-128 | however a run ends, no id was executed twice and no executed one is pending |
| ResolutionRuns.BudgetPaysForEachOperation | hearthstone_simulator/simulator/resolver.rs:186-195 | each executed operation was paid for from the budget and nothing else was |
| ResolutionRuns.OneBudgetForTheWholeSequence | hearthstone_simulator/simulator/resolver.rs:186-195 | across all suspensions a sequence executes at most its budget of operations |
| ResolutionAnswers.AnsweringDrivesThrough | hearthstone_simulator/simulator/simulation_action.rs:353-379 | the commands that answer every choice by the id of an offered option end the session where the drive through all choices ends, with its report |
| ResolutionAnswers.SessionsRunInline | hearthstone_simulator/simulator/simulation_action.rs:207-379 | an accepted action with all its choices answered ends as the run that answers each choice on the spot |
| ResolutionSessions.DriveStaysSound | hearthstone_simulator/simulator/simulation_action.rs:284-331 | a drive ends done with nothing owed, paused with everything owned, or failed for a reason outside the tables |
| ResolutionSessions.NothingOwedMeansNothingRetained | hearthstone_simulator/simulator/resolver.rs:290-311 | an empty stack means empty tables, so the idle check never fires |
| ResolutionSessions.EverySessionStaysSound | hearthstone_simulator/simulator/simulation_action.rs:207-379 | after any actions and answers the session is at rest, the next sequence can begin, and no report names a missing, empty or filled entry or an outdated copy policy |
| ResolutionSessions.SessionsExecuteEachIdOnce | hearthstone_simulator/simulator/resolver.rs:105-128 | over a whole session, abandoned sequences included, no operation id is executed twice |
| ResolutionSessions.OneCompletionEach | hearthstone_simulator/simulator/resolver.rs:146-180 | every owed entry has exactly one completion on the stack and every other entry none |
| ResolutionSessions.BorrowersSitAboveTheCompletion | hearthstone_simulator/simulator/resolver.rs:165-180 | what an operation borrows is completed by exactly one operation below it |
| ResolutionSessions.TablesHaveOneOwnerEach | hearthstone_simulator/simulator/resolver.rs:290-311 | in every sound state each table entry has exactly one pending completion, its own or its slot's |
| TypingEffects.EffectIsTyped | hearthstone_simulator/simulator/simulation_effect_executor.rs:114-546 | executing an accepted effect pushes only accepted effects and does not go wrong |
| TypingEffects.DispatchIsTyped | hearthstone_simulator/simulator/simulation_event_resolver.rs:42-242 | any accepted operation leaves accepted operations and raises neither a missing modifiable event nor a scope error |
| ResolutionSafety.NewSessionsAreSafe | hearthstone_simulator/simulator/simulation_card_runtime.rs:23-39 | a new game is safe if every trigger with an eligible zone is accepted; other programs are checked when they are played |
| ResolutionSafety.ValidatedProgramsDoNotGoWrong | hearthstone_simulator/simulator/simulation_effect_executor.rs:55-77 | from a safe state no command ever reports a refused program, a missing modifiable event, a self-transform scope error or an internal mismatch |
| UnacceptedTriggers.UnacceptedTriggersGoWrong | hearthstone_simulator/simulator/simulation_event_resolver.rs:391-429 | in every new game, an active trigger on the end or the start of a turn whose first effect, inside any sequences, is one the run checks and is refused fails at the first end of a turn |
| UnacceptedTriggers.AcceptanceIsExactlyWhatIsNeeded | hearthstone_simulator/simulator/simulation_card_runtime.rs:23-39 | for new games whose active triggers react to turns and are decided by such a first effect, no session ever goes wrong if and only if the triggers were accepted |
| Scheduling.OperationsAreOrdinary | hearthstone_simulator/simulator/simulation_event_resolver.rs:42-242 | an operation that is no transforming effect, no attempt of a trigger and not the play of a self transform opens no scope and schedules no play, no transformation and no end of a trigger |
| SelfTransforms.OnlySelfPlaysOpenScopes | hearthstone_simulator/simulator/simulation_action.rs:472-576 | only a minion play whose program holds a self transform opens a play scope |
| SelfTransforms.RunResolvesTheResumption | hearthstone_simulator/simulator/simulation_action.rs:207-379 | all that an accepted command does is to resolve the operations it pushes, so the statement below speaks of the runs of the session |
| SelfTransforms.OtherActionsNeverTransformSelf | hearthstone_simulator/simulator/simulation_effect_executor.rs:624-634 | over any commands, before and after every answered choice, a self transform is executed only in a sequence that started by playing a minion whose program holds one |
| ResolutionValidators.ValidateDurabilityPayers | hearthstone_simulator/simulator/resolver.rs:265-288 | accepts if and only if no payment is conditional, payments have their own ids, and the table holds the payments of the stack and nothing else |
| ResolutionValidators.ValidateScopeWalk | hearthstone_simulator/simulator/simulation_checkpoint.rs:726-763 | the walk from the top accepts if and only if all references are live, each use of a scope lies above the scope's completion and is for its entity, completions are of retained scopes and unique, and every scope has one |
| ResolutionValidators.EveryPausePassesTheWalks | hearthstone_simulator/simulator/simulation_checkpoint.rs:684-770 | every state at rest, so every pause at a choice, passes the scope walk, the payer check and the marker and slot checks |
| RestoredPrograms.PausesHoldNoTransforms | hearthstone_simulator/simulator/simulation_effect_executor.rs:456-479 | scheduled transformations run before anything else, so none is pending at a choice |
| RestoredPrograms.SessionsStayOrderly | hearthstone_simulator/simulator/simulation_checkpoint.rs:382-390 | after any commands no transformation is pending, and all pending ids, also those of attempts to be ended, were given out |
| RestoredPrograms.RestoredExactlyWhenCopiesFit | hearthstone_simulator/simulator/simulation_checkpoint.rs:315-362 | a state at rest passes the checks of counters, tables and restored programs if and only if every enchantment carries triggers an attachment may have and every pending copy still fits the world |
| RestoredPrograms.SessionsAreRestoredExactlyWhenCopiesFit | hearthstone_simulator/simulator/simulation_resolution_validation.rs:12-165 | the same after any commands given to a new session |
| RestoredPrograms.PreparedExactly | hearthstone_simulator/simulator/simulation_effect_executor.rs:1352-1397 | with proper enchantments a copy can be prepared if and only if its source is gone, or its policy fits the source's zone, a weapon has durability, and, where there is room, the place is free and the card accepted |
| CopyPolicies.StoredPolicyIsIgnored | hearthstone_simulator/simulator/simulation_event_resolver.rs:217-230 | executing a copy does the same whatever policy was stored with the request |
| CopyPolicies.SessionsIgnorePolicies | hearthstone_simulator/simulator/simulation_event_resolver.rs:217-230 | sessions that differ only in stored policies give the same reports and states after any commands |
| CopyPolicies.LivePoliciesAreRestored | hearthstone_simulator/simulator/simulation_checkpoint.rs:315-362 | with its policies brought up to date a state at rest is accepted again if and only if enchantments are proper and the cards of pending copies valid |
| UnrestorablePauses.RefusedThoughItGoesOn | hearthstone_simulator/simulator/simulation_effect_executor.rs:1483-1495 | a safe session of a new game pauses at a choice; the saved pause is refused for the policy of a copy whose source has moved, and the answer carries the copy out |
| ResolutionDriver.Resolver.BeginSequence | hearthstone_simulator/simulator/resolver.rs:81-99 | refuses while anything is retained, else starts with the given budget |
| ResolutionDriver.Resolver.AbandonSequence | hearthstone_simulator/simulator/resolver.rs:105-117 | drops stack, tables and choice and keeps the id counter |
| ResolutionDriver.Resolver.PushAll | hearthstone_simulator/simulator/resolver.rs:130-144 | pushes in reverse, so the first operation is on top and has the highest id |
| ResolutionDriver.Resolver.ConsumeBudget | hearthstone_simulator/simulator/resolver.rs:186-195 | pays one unit, or names the operation that could not be paid |
| ResolutionDriver.Resolver.ExecuteOperation | hearthstone_simulator/simulator/simulation_event_resolver.rs:42-242 | executing in place is Executed; a failure is reported and leaves the fields alone |
| ResolutionDriver.Resolver.DriveResolution | hearthstone_simulator/simulator/simulation_action.rs:299-331 | the loop over the mutable stack computes the depth-first run, up to a pause or a failure |
| ResolutionDriver.Resolver.ResolveToPause | hearthstone_simulator/simulator/simulation_action.rs:284-351 | abandons on failure, waits at a choice, and otherwise goes idle after the invariant check |
| ResolutionDriver.Resolver.Apply | hearthstone_simulator/simulator/simulation_action.rs:207-282 | an action is refused without effect, or begins a sequence and resolves it |
| ResolutionDriver.Resolver.Choose | hearthstone_simulator/simulator/simulation_action.rs:353-379 | an offered option resumes the sequence, any other leaves the choice pending |
| TurnSchedules.TurnSchedule.GrantTurns | hearthstone_simulator/core/game.rs:57-81 | a grant adds to the counter of its timing, saturating, and anchors after-current grants |
| TurnSchedules.TurnSchedule.Next | hearthstone_simulator/core/game.rs:83-122 | pending turns, the resumed natural turn, next-series extras with the merge, after-current extras, and the natural turn take precedence in this order |
| TurnSchedules.TurnSchedule.StartNaturalSeries | hearthstone_simulator/core/game.rs:124-138 | queues all extras of the player's series behind the pending ones and starts the natural turn |
| TurnSchedules.NaturalTurnsAlternate | hearthstone_simulator/core/game.rs:83-138 | natural turns strictly alternate however extra turns are granted |
| TurnSchedules.TurnsAreConserved | hearthstone_simulator/core/game.rs:83-138 | ending a turn keeps each player's outstanding extras except the one taken, if and only if the merge does not saturate |
| TurnSchedules.GrantsAreKept | hearthstone_simulator/core/game.rs:57-81 | a grant adds its count if and only if its counter does not saturate |
| TurnSchedules.ExtraTurnsAreConserved | hearthstone_simulator/core/game.rs:56-138 | over any run within 32 bits, extras granted are those taken and those outstanding |
| TurnSchedules.ExtrasAreTakenWithinThreeMoreTurns | hearthstone_simulator/core/game.rs:83-138 | E outstanding extras are all taken within E + 3 turns if no more are granted |
| TurnSchedules.GrantOrderIsIrrelevant | hearthstone_simulator/core/game.rs:57-81 | the grants of one turn give the same schedule in any order |
| TurnSchedules.QueuedTurnsLeaveAnchors | hearthstone_simulator/core/game.rs:57-122 | a grant of at least one turn outlives its turn for the other player if and only if a queued turn or the resumed natural turn of that player comes next |
| TurnSchedules.AnchorAlwaysFitsUnlessLeft | hearthstone_simulator/core/game.rs:57-122 | over any run the anchor names the active player throughout if and only if no anchored turn ends towards the other player without consuming the grants |
| TurnSchedules.AssertionHoldsUnlessStale | hearthstone_simulator/core/game.rs:57-81 | over any run the assertion holds at every after-current grant if and only if no such grant meets an unconsumed one made in the other player's turn |
| TurnSchedules.AssertionDoesNotAlwaysHold | hearthstone_simulator/core/game.rs:57-122 | a run from the start of a game in which a later grant fails the assertion |
| Auras.Discover | hearthstone_simulator/simulator/aura.rs:124-222 | the three nested loops collect, for every category and target, what the providers give in their order |
| Auras.DiscoveredExactly | hearthstone_simulator/simulator/aura.rs:124-222 | an application is found if and only if an active, unsilenced provider's definition matches a receiving target and gives it |
| Auras.FoundInOrder | hearthstone_simulator/simulator/aura.rs:124-222 | applications are listed by order of play and id of their providers, by definition for one provider |
| Auras.DiscoveryIgnoresTheListing | hearthstone_simulator/simulator/aura.rs:124-160 | what is found does not depend on the order in which entities are iterated |
| Auras.AuraCaches.SetCache | hearthstone_simulator/simulator/aura.rs:323-361 | writes one cache of an existing entity and no other; an unknown entity changes nothing |
| Auras.AuraCaches.ReplaceCategory | hearthstone_simulator/simulator/aura.rs:236-268 | every cache of the category becomes what was discovered, stale ones become empty, other categories are untouched |
| Auras.AuraCaches.MergeProviderCategory | hearthstone_simulator/simulator/aura.rs:270-307 | each cache drops the provider's applications, keeps the others and appends the new ones |
| Auras.AuraCaches.RefreshAll | hearthstone_simulator/simulator/aura.rs:27-32 | whatever the caches held, afterwards all of them equal discovery; so it can be repeated without effect |
| Auras.AuraCaches.RefreshAfterDeaths | hearthstone_simulator/simulator/aura.rs:19-25 | attack and other auras equal discovery, health auras are left as they were |
| Auras.AuraCaches.RefreshHealthAttack | hearthstone_simulator/simulator/aura.rs:13-17 | health and attack auras equal discovery, other auras are left as they were |
| Auras.AuraCaches.RefreshProvider | hearthstone_simulator/simulator/aura.rs:34-44 | each cache drops what the provider gave before and takes what it gives now, in all three categories |
| Auras.AuraCaches.RefreshEachProvider | hearthstone_simulator/simulator/aura.rs:34-44 | from empty caches, refreshing the active providers one by one in order of play gives exactly the caches of a full refresh |
| Auras.RefreshTouchesOnlyItsProvider | hearthstone_simulator/simulator/aura.rs:34-44 | refreshing one provider replaces exactly its applications, keeps every other provider's in order, and is idempotent |
| HealthLaw.Character.Recalculate | hearthstone_simulator/simulator/enchantment.rs:159-223 | attack and maximum are the sums of base, modifiers and auras, the maximum at least zero, and damage is settled against the previous maximum |
| HealthLaw.DamageFallsByTheDrops | hearthstone_simulator/simulator/enchantment.rs:208-218 | after any run of recalculations damage is max(0, d - the sum of all drops of the maximum), and no subtraction saturates |
| HealthLaw.RecalculationNeverHurts | hearthstone_simulator/simulator/enchantment.rs:208-218 | recalculation never adds damage and never makes it negative |
| HealthLaw.LivingUnlessTheMaximumIsZero | hearthstone_simulator/simulator/death.rs:164-178 | a character living at the start is mortally wounded after a run if and only if the run ends at a maximum of zero |
| HealthLaw.PassingChangeHeals | hearthstone_simulator/simulator/enchantment.rs:208-218 | a passing change of the maximum, up or down, heals exactly a damaged character |
| Randomness.DeterministicRng.Next | hearthstone_simulator/core/rng.rs:43-52 | one step adds the increment and returns the mix of the new state |
| Randomness.DeterministicRng.Restore | hearthstone_simulator/core/rng.rs:33-41 | takes over a snapshot of the same algorithm and version and refuses any other |
| Randomness.MixIsInjective | hearthstone_simulator/core/rng.rs:43-52 | no two words have the same mix |
| Randomness.OutputsAreDistinct | hearthstone_simulator/core/rng.rs:43-52 | from any state the next 2^64 outputs are pairwise different |
| Randomness.SortAndDedup | hearthstone_simulator/simulator/rng.rs:11-12 | the result is strictly increasing and has exactly the given elements |
| Randomness.ChooseEntity | hearthstone_simulator/simulator/rng.rs:6-34 | picks the sorted candidate at the drawn word modulo their number; no candidates leave the generator alone |
| Randomness.ChoiceDependsOnTheSetOnly | hearthstone_simulator/simulator/rng.rs:6-34 | the pick depends on the set of candidates and the generator alone, not on order or repetition |
| JsonNumbers.TextIsRead | book_smartz/storage/application.rs:263-280 | every number text of RFC 8259, section 6, is taken apart into the sign, digits, fraction and exponent it was written with |
| JsonNumbers.NormalizedExactlyWhenItFits | book_smartz/storage/application.rs:263-280 | there is a canonical form if and only if the number is zero or all its exponents fit 64 bits |
| JsonNumbers.NormalizationKeepsTheValue | book_smartz/storage/application.rs:263-280 | the canonical form denotes the rational that the text denotes |
| JsonNumbers.CanonicalFormsAreUnique | book_smartz/storage/application.rs:263-280 | two canonical forms of the same rational are equal |
| JsonNumbers.CanonicalForm | book_smartz/storage/application.rs:261-280 | two texts get the same canonical form if and only if they denote the same rational |
| JsonNumbers.AcceptedExactlyWhenValuesAreKept | book_smartz/storage/application.rs:282-308 | a document is accepted if and only if every number in it keeps its exact value and has exponents that fit |
| WireKeys.KeyRoundTrip | book_smartz/storage/wire.rs:3-21 | every positive 64-bit number is read back from its key |
| WireKeys.AcceptedKeysAreCanonical | book_smartz/storage/wire.rs:10-21 | every accepted text is the key of the number it is read as |
| WireKeys.KeysSortAsNumbers | book_smartz/storage/wire.rs:3-8 | keys compare as texts exactly as the numbers compare |
| ApplicationRows.DecodeRows | book_smartz/storage/application.rs:139-163 | loads a history if and only if the rows hold it without a gap and the next sequence number would exist |
| ApplicationRows.StoredHistoriesAreLoaded | book_smartz/storage/application.rs:139-182 | rows hold a history exactly when they are what inserting that gapless history stores |
| CloudEvents.SequenceTextIsUnique | book_smartz/domain/cloudevents.rs:86-97 | exactly one text is read as a given sequence number |
| CloudEvents.NoRequiredFault | book_smartz/domain/cloudevents.rs:440-454 | the loop over the required names finds no fault if and only if all of them are non-empty texts |
| CloudEvents.DecodedExactly | book_smartz/domain/cloudevents.rs:362-430 | a document is decoded as an event if and only if it says that event in the one accepted way and its context is valid |
| CloudEvents.RoundTrip | book_smartz/domain/cloudevents.rs:212-302 | encoding fails only outside the years 0 to 9999, and what is encoded is decoded as the same event |
| CloudEvents.EncodingIsInjective | book_smartz/domain/cloudevents.rs:212-302 | different events are never encoded alike |
| CloudEvents.ReencodingKeepsTheEvent | book_smartz/domain/cloudevents.rs:303-314 | encoding a decoded document again keeps the event and every other field |
| DiagnosticsDelivery.StepKeepsSound | book_smartz/web/diagnostics.rs:87-258 | every step of producers, worker and shutdown keeps the accounting sound |
| DiagnosticsDelivery.LossesAreReportedExactly | book_smartz/web/diagnostics.rs:216-258 | the losses in the written summaries add up to the reported ones, which never exceed the counters or what was lost |
| DiagnosticsDelivery.EveryDropIsCounted | book_smartz/web/diagnostics.rs:115-150 | below 64 bits the drop counter lags behind the drops by exactly those about to be counted |
| DiagnosticsDelivery.EveryRecordIsAccountedFor | book_smartz/web/diagnostics.rs:113-210 | each offered record is refused, handed back, dropped or accepted, and each accepted item is queued, in hand, written, failed, discarded or acknowledged |
| DiagnosticsDelivery.DrainedMeansConsumed | book_smartz/web/diagnostics.rs:406-439 | every record accepted before an acknowledged drain marker was written or counted as failed |
| DiagnosticsDelivery.DrainAfterTheGateIsComplete | book_smartz/web/diagnostics.rs:397-439 | a marker acknowledged behind the closed gate has drained every ordinary record ever accepted |

## Left out

- Bevy's world, schedules and component storage: entities are maps from ids to the components that matter.
- The operations of the resolution machine are functions of the tables; only the driver around them is a class. Update of tables in place inside one operation is not captured.
- What the world answers arrives as input of each operation: selected targets, collected trigger seeds and their eligibility, amounts, kinds of drawn cards, and failures of other parts. The results hold for every such input.
- Stat, keyword, cost and continuous attachments are one effect of the model, because they treat the stack alike. Rejections inside native plans and copied cards are separate failures.
- Triggers of cards that start the game in decks are not validated when a game is set up. That the active ones are accepted is a hypothesis; that it is needed is proved for triggers on the ends and starts of turns whose first effect decides, since other unaccepted programs may run without harm.
- ValidateScopeWalk: covers the walk over the stack and the references of operations to tables; references to entities are left out.
- EveryPausePassesTheWalks: references of pending operations to entities are left out; the counters are among the checks of `RestoredExactlyWhenCopiesFit`.
- RestoredExactlyWhenCopiesFit: the session is restored with the natives it was saved with; the components of entities and the zone index are taken to be well formed.
- ExecuteOperation: a failing operation may have changed the world in part before it fails; the model drops that change, and the sequence is abandoned either way.
- ResolveToPause: the checks of weapons, zones, roles and the entity index that run before a session goes idle are left out.
- Overflow panics of 32-bit card arithmetic and of the id counters; saturating subtraction, saturating turn counters, wrapping words and 64-bit checks are modelled.
- Checkpoint encoding and restoring field by field, enumeration of legal actions, target filters, combat keywords: long but shallow.
- SQL, HTTP, views, cookies, tokens and migrations: a transaction is an atomic step that is acknowledged, lost after commit, or rolled back.
- The reader's lock: two transactions of one reader never interleave, requests do. Registration of books by other readers may happen between any two steps.
- UUIDs and instants are numbers in the ranking; in `CloudEvents` a UUID is its canonical text. Printing and parsing of instants and URI syntax belong to libraries and are parameters; the serialization of names and values to JSON text is left out, and so is which of several extension faults is named.
- ReencodingKeepsTheEvent: takes the document as decoded; what the CloudEvents library rewrites in other attributes is left out.
- The trace and the recalculation that a cache update starts are left out of `Auras`.
- The health law does not model the order of modifiers, because sums do not depend on it.
- The diagnostics worker is a state machine rather than a class, since its steps interleave with producers; clocks, the wording of records and the line boundary after a failed write are left out.
- The position counter of the generator may overflow after 2^64 words; the model lets it grow.
- Catalog search, profile editing, the other programs of the repository.
