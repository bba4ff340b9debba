/**
 What an unaccepted trigger does to a session.

 A game is set up without a look at the programs of its triggers. A trigger
 that reacts to the end or the start of a turn, where it lies, and whose first
 effect is one that the run itself checks, fails at the next end of a turn
 unless that effect was accepted.
 */
module UnacceptedTriggers {
  import opened Outcomes
  import opened Players
  import opened EffectLanguage
  import opened ResolutionMachine
  import opened ResolutionTyping
  import opened ResolutionRuns
  import opened ResolutionSessions
  import opened ResolutionSafety

  /** Effects whose validity the run checks when it reaches them. */
  predicate CheckedWhenRun(effect: Effect) {
    effect.ModifyEventValue? || effect.Native? || effect.Choose? || effect.ReplaceHero? || effect.AttachTriggers?
  }

  /** The effect that runs first, inside however many sequences, and their number. */
  function Leading(effect: Effect): Effect {
    match effect
    case Sequence(nested) => if nested == [] then effect else Leading(nested[0])
    case _ => effect
  }

  function Depth(effect: Effect): nat {
    match effect
    case Sequence(nested) => if nested == [] then 0 else 1 + Depth(nested[0])
    case _ => 0
  }

  predicate Refused(natives: set<NativeId>, effect: Effect, kind: EventKind) {
    CheckEffect(natives, Leading(effect), Some(kind), false).Some?
  }

  /** The first effect is checked when it runs, and it alone decides whether the program is accepted. */
  predicate FirstEffectDecides(natives: set<NativeId>, t: Trigger) {
    && t.program != [] && CheckedWhenRun(Leading(t.program[0]))
    && (Refused(natives, t.program[0], t.event) || Accepted(natives, t.program, Some(t.event)))
  }

  /** The trigger is active where its entity is, for an event that every end of a turn brings about. */
  predicate TurnsHere(e: GameEntity, t: Trigger) {
    t in e.card.triggers && !e.silenced && e.zone in t.eligibleZones && (t.event == TurnEnded || t.event == TurnStarted)
  }

  /** The world offers and queues just this trigger, and it is eligible. */
  function Offering(s: Seed): Input {
    Input(false, [], [s], [s], true, map[], [], false, false, 0, Burned(0), 0, None, None, 0, [], One)
  }

  function Offers(s: Seed): Oracle {
    _ => Offering(s)
  }

  function Budget(s: Seed): nat
    requires s.definition.program != []
  {
    13 + Depth(s.definition.program[0])
  }

  function EndOfTurn(s: Seed): Command
    requires s.definition.program != []
  {
    SubmitAction(EndTurnAction(One), true, Budget(s), Offers(s))
  }

  lemma RefusedEffectFails(g: Game, env: Env, context: EffectContext, effect: Effect, e: EventId, inp: Input)
    requires CheckedWhenRun(effect) && e in g.events && !Proposed(g.events[e].context.kind)
    requires CheckEffect(env.natives, effect, Some(g.events[e].context.kind), false).Some?
    ensures var r := RunOneEffect(g, env, context, effect, Some(e), None, inp); r.Err? && GoesWrong(r.error)
  {
    if effect.Choose? { AcceptedMeansEveryEffect(env.natives, [effect], None, false); }
  }

  // ---------- The run up to the failure ----------

  predicate FailsWrongly(o: Outcome) {
    o.Failed? && GoesWrong(o.failure)
  }

  lemma FirstPushIsOnTop(below: seq<Stacked>, next: ResolutionId, ops: seq<Operation>)
    requires ops != []
    ensures var stack := below + Numbered(next, ops); stack != [] && Top(stack).op == ops[0]
  {
  }

  /** The trigger can be discovered, and its first effect will be refused. */
  predicate Failing(natives: set<NativeId>, world: map<EntityId, GameEntity>, s: Seed) {
    && s.source in world && TurnsHere(world[s.source], s.definition)
    && s.definition.program != [] && CheckedWhenRun(Leading(s.definition.program[0]))
    && Refused(natives, s.definition.program[0], s.definition.event)
  }

  predicate OfKind(g: Game, e: EventId, kind: EventKind) {
    e in g.events && g.events[e].context.kind == kind
  }

  /** What is about to fail: the effect, the attempt, the event, or its preparation is on top. */
  predicate AboutToFail(natives: set<NativeId>, g: Game, op: Operation, s: Seed) {
    var kind := s.definition.event;
    && Failing(natives, g.world, s)
    && match op
       case PrepareEvent(context) => context.kind == kind
       case ResolveEvent(e) =>
         OfKind(g, e, kind) && g.events[e].prechecked.None? && g.events[e].candidates.None?
       case AttemptTrigger(c) => OfKind(g, c.event, kind) && c.definition == s.definition
       case RunEffect(_, effect, Some(e)) =>
         OfKind(g, e, kind) && CheckedWhenRun(Leading(effect)) && Refused(natives, effect, kind)
       case _ => false
  }

  function StepsToFailure(op: Operation, s: Seed): nat
    requires s.definition.program != []
  {
    match op
    case PrepareEvent(_) => 4 + Depth(s.definition.program[0])
    case ResolveEvent(_) => 3 + Depth(s.definition.program[0])
    case AttemptTrigger(_) => 2 + Depth(s.definition.program[0])
    case RunEffect(_, effect, _) => 1 + Depth(effect)
    case _ => 1
  }

  lemma OfferedSeedIsQueued(world: map<EntityId, GameEntity>, e: EventId, s: Seed)
    requires s.source in world && TurnsHere(world[s.source], s.definition)
    ensures Discover(world, s.definition.event, [s]) == [s]
    ensures Snapshot(e, [s], [s]) == [Candidate(s.source, e, s.definition, s.controller)]
  {
    assert [s][1..] == [];
  }

  /** The step fails wrongly, or what it puts on top is closer to the failure. */
  predicate Approaches(natives: set<NativeId>, op: Operation, s: Seed, r: StepResult)
    requires s.definition.program != []
  {
    match r
    case Err(f) => GoesWrong(f)
    case Ok(step) =>
      && step.pushes != [] && AboutToFail(natives, step.game, step.pushes[0], s)
      && StepsToFailure(step.pushes[0], s) < StepsToFailure(op, s)
  }

  lemma AnnouncingApproaches(natives: set<NativeId>, g: Game, env: Env, id: ResolutionId, op: Operation, s: Seed)
    requires AboutToFail(natives, g, op, s) && op.PrepareEvent?
    ensures Approaches(natives, op, s, Dispatch(g, env, id, op, Offering(s)))
  {
  }

  lemma ResolvingApproaches(natives: set<NativeId>, g: Game, env: Env, id: ResolutionId, op: Operation, s: Seed)
    requires AboutToFail(natives, g, op, s) && op.ResolveEvent?
    ensures Approaches(natives, op, s, Dispatch(g, env, id, op, Offering(s)))
  {
    OfferedSeedIsQueued(g.world, op.event, s);
  }

  lemma AttemptApproaches(natives: set<NativeId>, g: Game, env: Env, id: ResolutionId, op: Operation, s: Seed)
    requires AboutToFail(natives, g, op, s) && op.AttemptTrigger?
    ensures Approaches(natives, op, s, Dispatch(g, env, id, op, Offering(s)))
  {
  }

  lemma EffectApproaches(natives: set<NativeId>, g: Game, env: Env, id: ResolutionId, op: Operation, s: Seed)
    requires AboutToFail(natives, g, op, s) && op.RunEffect? && env.natives == natives
    ensures Approaches(natives, op, s, Dispatch(g, env, id, op, Offering(s)))
  {
    if !op.effect.Sequence? {
      RefusedEffectFails(g, env, op.context, op.effect, op.borrowed.value, Offering(s));
    }
  }

  lemma EveryStepApproaches(g: Game, env: Env, id: ResolutionId, op: Operation, s: Seed)
    requires AboutToFail(env.natives, g, op, s)
    ensures Approaches(env.natives, op, s, Dispatch(g, env, id, op, Offering(s)))
  {
    if op.PrepareEvent? {
      AnnouncingApproaches(env.natives, g, env, id, op, s);
    } else if op.ResolveEvent? {
      ResolvingApproaches(env.natives, g, env, id, op, s);
    } else if op.AttemptTrigger? {
      AttemptApproaches(env.natives, g, env, id, op, s);
    } else {
      EffectApproaches(env.natives, g, env, id, op, s);
    }
  }

  lemma {:induction false} TriggerFails(c: Core, natives: set<NativeId>, stack: seq<Stacked>, s: Seed)
    requires stack != [] && c.choice.None? && AboutToFail(natives, c.game, Top(stack).op, s)
    requires c.budget >= StepsToFailure(Top(stack).op, s)
    ensures FailsWrongly(Drive(c, natives, stack, Offers(s)))
    decreases c.budget, 1
  {
    var env := Env(natives, c.budget - 1, c.next);
    EveryStepApproaches(c.game, env, Top(stack).id, Top(stack).op, s);
    OneStep(c, natives, stack, Offers(s));
    ApproachFails(c, natives, stack, s, Dispatch(c.game, env, Top(stack).id, Top(stack).op, Offering(s)));
  }

  lemma {:induction false} ApproachFails(c: Core, natives: set<NativeId>, stack: seq<Stacked>, s: Seed, r: StepResult)
    requires stack != [] && s.definition.program != [] && c.budget >= StepsToFailure(Top(stack).op, s) && c.budget > 0
    requires Approaches(natives, Top(stack).op, s, r) && GoesOn(c, natives, stack, Offers(s), r)
    ensures FailsWrongly(Drive(c, natives, stack, Offers(s)))
    decreases c.budget, 0
  {
    if r.Ok? {
      FirstPushIsOnTop(Below(stack), c.next, r.value.pushes);
      TriggerFails(Stepped(c, Top(stack).id, r.value), natives, Below(stack) + Numbered(c.next, r.value.pushes), s);
    }
  }

  // ---------- A turn ends, and the next one starts ----------

  /** What the end of a turn leaves of the game. */
  predicate Tracks(c: Core, world: map<EntityId, GameEntity>, budget: nat) {
    c.choice.None? && c.game.world == world && !c.game.over && c.budget == budget
  }

  predicate Uneventful(op: Operation) {
    op == RunPhaseBoundary || op == CheckOutcome || op == RunStep(ThawCharacters(One))
  }

  lemma UneventfulPasses(c: Core, natives: set<NativeId>, lower: seq<Stacked>, top: Stacked, s: Seed)
    returns (after: Core)
    requires c.budget > 0 && Tracks(c, c.game.world, c.budget) && Uneventful(top.op)
    ensures Tracks(after, c.game.world, c.budget - 1)
    ensures Drive(c, natives, lower + [top], Offers(s)) == Drive(after, natives, lower, Offers(s))
  {
    Unmoved(c.game, Offering(s));
    var step := Step(c.game, []);
    StepGoesOn(c, natives, lower, top, Offers(s), step);
    NothingNumbered(lower, c.next);
    after := Stepped(c, top.id, step);
  }

  lemma OtherSeedIsNotQueued(g: Game, e: EventId, s: Seed)
    requires OfKind(g, e, TurnEnded) && g.events[e].prechecked.None? && g.events[e].candidates.None?
    requires s.definition.event != TurnEnded
    ensures Expand(g, e, Offering(s)) ==
            Ok(Step(g.(events := g.events[e := g.events[e].(candidates := Some([]))]), [FinishEvent(e)]))
  {
    assert [s][1..] == [];
    assert Discover(g.world, TurnEnded, [s]) == [];
    assert Snapshot(e, [], [s]) == [];
    assert QueuedCandidates(g, e, Offering(s)) == [];
    assert Attempts([]) + [FinishEvent(e)] == [FinishEvent(e)];
  }

  const ENDING := EventContext(TurnEnded, None, [], One, None, None)
  const STARTING := EventContext(TurnStarted, None, [], One, None, None)

  lemma EndingIsPrepared(c: Core, natives: set<NativeId>, lower: seq<Stacked>, id: ResolutionId, s: Seed)
    returns (after: Core)
    requires c.budget > 0 && Tracks(c, c.game.world, c.budget)
    ensures Tracks(after, c.game.world, c.budget - 1) && after.game == Record(c.game, ENDING, None)
    ensures Drive(c, natives, lower + [Stacked(id, PrepareEvent(ENDING))], Offers(s)) ==
            Drive(after, natives, lower + [Stacked(c.next, ResolveEvent(c.game.nextEvent))], Offers(s))
  {
    var step := Step(Record(c.game, ENDING, None), [ResolveEvent(c.game.nextEvent)]);
    StepGoesOn(c, natives, lower, Stacked(id, PrepareEvent(ENDING)), Offers(s), step);
    OneNumbered(c.next, ResolveEvent(c.game.nextEvent));
    after := Stepped(c, id, step);
  }

  lemma EndingIsExpanded(c: Core, natives: set<NativeId>, lower: seq<Stacked>, id: ResolutionId, e: EventId, s: Seed)
    returns (after: Core)
    requires c.budget > 0 && Tracks(c, c.game.world, c.budget) && s.definition.event != TurnEnded
    requires OfKind(c.game, e, TurnEnded) && c.game.events[e].prechecked.None? && c.game.events[e].candidates.None?
    ensures Tracks(after, c.game.world, c.budget - 1) && e in after.game.events
    ensures Drive(c, natives, lower + [Stacked(id, ResolveEvent(e))], Offers(s)) ==
            Drive(after, natives, lower + [Stacked(c.next, FinishEvent(e))], Offers(s))
  {
    var p := c.game.events[e].(candidates := Some([]));
    var step := Step(c.game.(events := c.game.events[e := p]), [FinishEvent(e)]);
    OtherSeedIsNotQueued(c.game, e, s);
    StepGoesOn(c, natives, lower, Stacked(id, ResolveEvent(e)), Offers(s), step);
    OneNumbered(c.next, FinishEvent(e));
    after := Stepped(c, id, step);
  }

  lemma EndingIsFinished(c: Core, natives: set<NativeId>, lower: seq<Stacked>, id: ResolutionId, e: EventId, s: Seed)
    returns (after: Core)
    requires c.budget > 0 && Tracks(c, c.game.world, c.budget) && e in c.game.events
    ensures Tracks(after, c.game.world, c.budget - 1)
    ensures Drive(c, natives, lower + [Stacked(id, FinishEvent(e))], Offers(s)) ==
            Drive(after, natives, lower, Offers(s))
  {
    var step := Step(TakeEvent(c.game, e), []);
    StepGoesOn(c, natives, lower, Stacked(id, FinishEvent(e)), Offers(s), step);
    NothingNumbered(lower, c.next);
    after := Stepped(c, id, step);
  }

  /** The event of the end passes a trigger that waits for the start. */
  lemma EndingPasses(c: Core, natives: set<NativeId>, lower: seq<Stacked>, id: ResolutionId, s: Seed)
    returns (after: Core)
    requires c.budget >= 3 && Tracks(c, c.game.world, c.budget) && s.definition.event != TurnEnded
    ensures Tracks(after, c.game.world, c.budget - 3)
    ensures Drive(c, natives, lower + [Stacked(id, PrepareEvent(ENDING))], Offers(s)) ==
            Drive(after, natives, lower, Offers(s))
  {
    var e := c.game.nextEvent;
    var prepared := EndingIsPrepared(c, natives, lower, id, s);
    var expanded := EndingIsExpanded(prepared, natives, lower, c.next, e, s);
    after := EndingIsFinished(expanded, natives, lower, prepared.next, e, s);
  }

  const END_OPS: seq<Operation> :=
    [PrepareEvent(ENDING), RunPhaseBoundary, CheckOutcome, RunStep(ThawCharacters(One)), RunStep(AdvanceTurn(One))]

  function EndStack(lower: seq<Stacked>, next: ResolutionId): seq<Stacked> {
    lower + [Stacked(next, END_OPS[4])] + [Stacked(next + 1, END_OPS[3])] + [Stacked(next + 2, END_OPS[2])]
    + [Stacked(next + 3, END_OPS[1])]
  }

  lemma EndOpsNumbered(lower: seq<Stacked>, next: ResolutionId)
    ensures lower + Numbered(next, END_OPS) == EndStack(lower, next) + [Stacked(next + 4, END_OPS[0])]
  {
    assert END_OPS[1..][1..][1..] == [END_OPS[3], END_OPS[4]];
    TwoNumbered(next, END_OPS[3], END_OPS[4]);
    assert Numbered(next, END_OPS[1..][1..]) ==
           Numbered(next, END_OPS[1..][1..][1..]) + [Stacked(next + 2, END_OPS[2])];
    assert Numbered(next, END_OPS[1..]) == Numbered(next, END_OPS[1..][1..]) + [Stacked(next + 3, END_OPS[1])];
    assert Numbered(next, END_OPS) == Numbered(next, END_OPS[1..]) + [Stacked(next + 4, END_OPS[0])];
  }

  lemma EndOfTurnSchedules(g: Game, env: Env, id: ResolutionId, inp: Input)
    ensures Dispatch(g, env, id, RunStep(EndTurn(One)), inp) == Ok(Step(g, END_OPS))
  {
  }

  lemma EndOfTurnRuns(c: Core, natives: set<NativeId>, lower: seq<Stacked>, id: ResolutionId, s: Seed)
    returns (after: Core)
    requires c.budget > 0 && Tracks(c, c.game.world, c.budget)
    ensures Tracks(after, c.game.world, c.budget - 1)
    ensures Drive(c, natives, lower + [Stacked(id, RunStep(EndTurn(One)))], Offers(s)) ==
            Drive(after, natives, lower + Numbered(c.next, END_OPS), Offers(s))
  {
    var step := Step(c.game, END_OPS);
    EndOfTurnSchedules(c.game, Env(natives, c.budget - 1, c.next), id, Offering(s));
    StepGoesOn(c, natives, lower, Stacked(id, RunStep(EndTurn(One))), Offers(s), step);
    after := Stepped(c, id, step);
  }

  lemma TurnAdvances(c: Core, natives: set<NativeId>, lower: seq<Stacked>, id: ResolutionId, s: Seed)
    returns (after: Core)
    requires c.budget > 0 && Tracks(c, c.game.world, c.budget)
    ensures Tracks(after, c.game.world, c.budget - 1)
    ensures Drive(c, natives, lower + [Stacked(id, RunStep(AdvanceTurn(One)))], Offers(s)) ==
            Drive(after, natives, lower + [Stacked(c.next, RunStep(StartTurn(One)))], Offers(s))
  {
    Unmoved(c.game, Offering(s));
    var step := Step(c.game, [RunStep(StartTurn(One))]);
    StepGoesOn(c, natives, lower, Stacked(id, RunStep(AdvanceTurn(One))), Offers(s), step);
    OneNumbered(c.next, RunStep(StartTurn(One)));
    after := Stepped(c, id, step);
  }

  lemma TurnStarts(c: Core, natives: set<NativeId>, lower: seq<Stacked>, id: ResolutionId, s: Seed)
    returns (after: Core)
    requires c.budget > 0 && Tracks(c, c.game.world, c.budget)
    ensures Tracks(after, c.game.world, c.budget - 1)
    ensures Drive(c, natives, lower + [Stacked(id, RunStep(StartTurn(One)))], Offers(s)) ==
            Drive(after, natives, lower + [Stacked(c.next, PrepareEvent(STARTING))], Offers(s))
  {
    var step := Step(c.game, [PrepareEvent(STARTING)]);
    StepGoesOn(c, natives, lower, Stacked(id, RunStep(StartTurn(One))), Offers(s), step);
    OneNumbered(c.next, PrepareEvent(STARTING));
    after := Stepped(c, id, step);
  }

  /** From the end of a turn to the start of the next one, past a trigger that waits for the start. */
  lemma NextTurnIsPrepared(c: Core, natives: set<NativeId>, lower: seq<Stacked>, next: ResolutionId, s: Seed)
    returns (after: Core, id: ResolutionId)
    requires c.budget >= 8 && Tracks(c, c.game.world, c.budget) && s.definition.event != TurnEnded
    ensures Tracks(after, c.game.world, c.budget - 8)
    ensures Drive(c, natives, EndStack(lower, next) + [Stacked(next + 4, PrepareEvent(ENDING))], Offers(s)) ==
            Drive(after, natives, lower + [Stacked(id, PrepareEvent(STARTING))], Offers(s))
  {
    var advance, thaw := [Stacked(next, END_OPS[4])], [Stacked(next + 1, END_OPS[3])];
    var check := [Stacked(next + 2, END_OPS[2])];
    var c1 := EndingPasses(c, natives, EndStack(lower, next), next + 4, s);
    var c2 := UneventfulPasses(c1, natives, lower + advance + thaw + check, Stacked(next + 3, END_OPS[1]), s);
    var c3 := UneventfulPasses(c2, natives, lower + advance + thaw, Stacked(next + 2, END_OPS[2]), s);
    var c4 := UneventfulPasses(c3, natives, lower + advance, Stacked(next + 1, END_OPS[3]), s);
    var c5 := TurnAdvances(c4, natives, lower, next, s);
    after := TurnStarts(c5, natives, lower, c4.next, s);
    id := c5.next;
  }

  lemma PreparedFails(c: Core, natives: set<NativeId>, lower: seq<Stacked>, id: ResolutionId, context: EventContext,
                      s: Seed)
    requires c.choice.None? && Failing(natives, c.game.world, s) && context.kind == s.definition.event
    requires c.budget >= 4 + Depth(s.definition.program[0])
    ensures FailsWrongly(Drive(c, natives, lower + [Stacked(id, PrepareEvent(context))], Offers(s)))
  {
    OnTop(lower, Stacked(id, PrepareEvent(context)));
    TriggerFails(c, natives, lower + [Stacked(id, PrepareEvent(context))], s);
  }

  lemma EndedTurnFails(c: Core, natives: set<NativeId>, lower: seq<Stacked>, next: ResolutionId, s: Seed)
    requires Tracks(c, c.game.world, c.budget) && Failing(natives, c.game.world, s) && c.budget + 1 >= Budget(s)
    ensures var stack := EndStack(lower, next) + [Stacked(next + 4, PrepareEvent(ENDING))];
            FailsWrongly(Drive(c, natives, stack, Offers(s)))
  {
    if s.definition.event == TurnEnded {
      PreparedFails(c, natives, EndStack(lower, next), next + 4, ENDING, s);
    } else {
      StartedTurnFails(c, natives, lower, next, s);
    }
  }

  lemma StartedTurnFails(c: Core, natives: set<NativeId>, lower: seq<Stacked>, next: ResolutionId, s: Seed)
    requires Tracks(c, c.game.world, c.budget) && Failing(natives, c.game.world, s) && c.budget + 1 >= Budget(s)
    requires s.definition.event == TurnStarted
    ensures var stack := EndStack(lower, next) + [Stacked(next + 4, PrepareEvent(ENDING))];
            FailsWrongly(Drive(c, natives, stack, Offers(s)))
  {
    var started, x := NextTurnIsPrepared(c, natives, lower, next, s);
    PreparedFails(started, natives, lower, x, STARTING, s);
  }

  lemma EndOfTurnFails(c: Core, natives: set<NativeId>, lower: seq<Stacked>, id: ResolutionId, s: Seed)
    requires Tracks(c, c.game.world, c.budget) && Failing(natives, c.game.world, s) && c.budget >= Budget(s)
    ensures FailsWrongly(Drive(c, natives, lower + [Stacked(id, RunStep(EndTurn(One)))], Offers(s)))
  {
    var ended := EndOfTurnRuns(c, natives, lower, id, s);
    EndedRunFails(c, ended, natives, lower, lower + [Stacked(id, RunStep(EndTurn(One)))], s);
  }

  lemma EndedRunFails(c: Core, ended: Core, natives: set<NativeId>, lower: seq<Stacked>, stack: seq<Stacked>, s: Seed)
    requires c.budget > 0 && Tracks(ended, c.game.world, c.budget - 1)
    requires Failing(natives, c.game.world, s) && c.budget >= Budget(s)
    requires Drive(c, natives, stack, Offers(s)) ==
             Drive(ended, natives, lower + Numbered(c.next, END_OPS), Offers(s))
    ensures FailsWrongly(Drive(c, natives, stack, Offers(s)))
  {
    EndOpsNumbered(lower, c.next);
    EndedTurnFails(ended, natives, lower, c.next, s);
  }

  // ---------- The exact condition ----------

  lemma ActionNumbered()
    ensures [] + Numbered(0, ActionOps(EndTurnAction(One))) ==
            [Stacked(0, CheckOutcome), Stacked(1, RunPhaseBoundary)] + [Stacked(2, RunStep(EndTurn(One)))]
  {
    assert ActionOps(EndTurnAction(One))[1..] == [RunPhaseBoundary, CheckOutcome];
    TwoNumbered(0, RunPhaseBoundary, CheckOutcome);
  }

  /** The first end of a turn reports the unaccepted trigger. */
  lemma UnacceptedTriggersGoWrong(natives: set<NativeId>, world: map<EntityId, GameEntity>, nextEntity: EntityId,
                                  s: Seed)
    requires s.source in world && TurnsHere(world[s.source], s.definition)
    requires FirstEffectDecides(natives, s.definition)
    requires !Accepted(natives, s.definition.program, Some(s.definition.event))
    ensures WentWrong(Run(NewSession(world, nextEntity), natives, EndOfTurn(s)).1)
  {
    var core := NewSession(world, nextEntity).core.(budget := Budget(s), next := 3);
    ActionNumbered();
    EndOfTurnFails(core, natives, [Stacked(0, CheckOutcome), Stacked(1, RunPhaseBoundary)], 2, s);
    EndingResolves(natives, world, nextEntity, s, core);
  }

  lemma EndingResolves(natives: set<NativeId>, world: map<EntityId, GameEntity>, nextEntity: EntityId, s: Seed,
                       core: Core)
    requires s.definition.program != []
    requires core == NewSession(world, nextEntity).core.(budget := Budget(s), next := 3)
    ensures var stack := [] + Numbered(0, ActionOps(EndTurnAction(One)));
            Run(NewSession(world, nextEntity), natives, EndOfTurn(s)) ==
            Settled(true, Drive(core, natives, stack, Offers(s)))
  {
  }

  ghost predicate NeverGoesWrong(m: Machine, natives: set<NativeId>) {
    forall commands, report :: report in RunSession(m, natives, commands).1 ==> !WentWrong(report)
  }

  lemma SafeSessionsNeverGoWrong(m: Machine, natives: set<NativeId>)
    requires SafelyAtRest(m, natives)
    ensures NeverGoesWrong(m, natives)
  {
    forall commands, report | report in RunSession(m, natives, commands).1 ensures !WentWrong(report) {
      ValidatedProgramsDoNotGoWrong(m, natives, commands);
    }
  }

  lemma FirstReport(m: Machine, natives: set<NativeId>, command: Command)
    ensures Run(m, natives, command).1 in RunSession(m, natives, [command]).1
  {
    assert RunSession(m, natives, [command]).1[0] == Run(m, natives, command).1;
  }

  lemma UnacceptedWorldsGoWrong(natives: set<NativeId>, world: map<EntityId, GameEntity>, nextEntity: EntityId,
                                x: EntityId)
    requires x in world && !TriggersTyped(natives, world[x].card.triggers)
    requires forall t :: t in world[x].card.triggers && t.eligibleZones != [] ==>
      TurnsHere(world[x], t) && FirstEffectDecides(natives, t)
    ensures !NeverGoesWrong(NewSession(world, nextEntity), natives)
  {
    EachTriggerIsTyped(natives, world[x].card.triggers);
    var t :| t in world[x].card.triggers && t.eligibleZones != [] && !Accepted(natives, t.program, Some(t.event));
    UnacceptedTriggersGoWrong(natives, world, nextEntity, Seed(x, t, One));
    FirstReport(NewSession(world, nextEntity), natives, EndOfTurn(Seed(x, t, One)));
  }

  /**
   When the active triggers of a new game react to turns where they lie, and
   their first effects decide, no session ever goes wrong exactly when all of
   them were accepted.
   */
  lemma AcceptanceIsExactlyWhatIsNeeded(natives: set<NativeId>, world: map<EntityId, GameEntity>, nextEntity: EntityId)
    requires EntitiesBelow(world, nextEntity)
    requires forall x, t :: x in world && t in world[x].card.triggers && t.eligibleZones != [] ==>
      TurnsHere(world[x], t) && FirstEffectDecides(natives, t)
    ensures NeverGoesWrong(NewSession(world, nextEntity), natives) <==> WorldTyped(natives, world)
  {
    if WorldTyped(natives, world) {
      NewSessionsAreSafe(natives, world, nextEntity);
      SafeSessionsNeverGoWrong(NewSession(world, nextEntity), natives);
    } else {
      var x :| x in world && !TriggersTyped(natives, world[x].card.triggers);
      UnacceptedWorldsGoWrong(natives, world, nextEntity, x);
    }
  }
}
