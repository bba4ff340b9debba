/**
 Safety of whole sessions: ownership and typing together.

 In a world whose triggers were accepted, no session ever meets a refused
 program, an event value it may not change or a misplaced self transform; and
 no self transform runs unless the play that contains it opened a scope.
 */
module ResolutionSafety {
  import opened Outcomes
  import opened EffectLanguage
  import opened ResolutionMachine
  import opened ResolutionOwnership
  import OwnershipDispatch
  import opened ResolutionTyping
  import TypingEffects
  import opened ResolutionRuns
  import opened ResolutionSessions

  ghost predicate StackTyped(natives: set<NativeId>, g: Game, stack: seq<Stacked>) {
    forall i :: 0 <= i < |stack| ==> OpTyped(natives, g.world, g.created, stack[i].op)
  }

  ghost predicate Safe(natives: set<NativeId>, c: Core, stack: seq<Stacked>) {
    Sound(c, stack) && GameTyped(natives, c.game) && StackTyped(natives, c.game, stack)
  }

  lemma StackTypedLater(natives: set<NativeId>, g: Game, h: Game, stack: seq<Stacked>)
    requires StackTyped(natives, g, stack)
    requires CreatedGrows(g.created, h.created) && WorldGrows(natives, g.world, h.world)
    ensures StackTyped(natives, h, stack)
  {
    forall i | 0 <= i < |stack| ensures OpTyped(natives, h.world, h.created, stack[i].op) {
      TypedLater(natives, g, h, stack[i].op);
    }
  }

  lemma PushesAreTyped(natives: set<NativeId>, g: Game, stack: seq<Stacked>, next: ResolutionId, ops: seq<Operation>)
    requires StackTyped(natives, g, stack) && AllTyped(natives, g, ops)
    ensures StackTyped(natives, g, stack + Numbered(next, ops))
  {
    NumberedIdsAreFresh(next, ops);
    var all := stack + Numbered(next, ops);
    forall i | 0 <= i < |all| ensures OpTyped(natives, g.world, g.created, all[i].op) {
      if i >= |stack| { assert all[i].op == ops[|ops| - 1 - (i - |stack|)]; }
    }
  }

  lemma BorrowedEventsAreLive(g: Game, next: ResolutionId, id: ResolutionId, op: Operation, n: Ledger, m: Ledger)
    requires Charge(n, id, op) == Some(m) && Settles(g, next, m)
    ensures TypingEffects.BorrowsLive(g, op)
  {
  }

  lemma TypedStepStaysTyped(natives: set<NativeId>, c: Core, stack: seq<Stacked>, r: Result<Step, Failure>)
    requires stack != [] && StackTyped(natives, c.game, stack) && StaysTyped(natives, c.game, r)
    ensures match r
            case Ok(step) =>
              && GameTyped(natives, step.game)
              && StackTyped(natives, step.game, Below(stack) + Numbered(c.next, step.pushes))
            case Err(f) => !GoesWrong(f)
  {
    if r.Ok? {
      StackTypedLater(natives, c.game, r.value.game, Below(stack));
      PushesAreTyped(natives, r.value.game, Below(stack), c.next, r.value.pushes);
    }
  }

  lemma AskedStaysTyped(natives: set<NativeId>, c: Core, stack: seq<Stacked>, oracle: Oracle)
    requires Safe(natives, c, stack) && stack != [] && c.budget > 0 && c.choice.None? && Top(stack).op.RequestChoice?
    ensures match Executed(c, natives, Top(stack), oracle)
            case Ok((after, pushed)) =>
              GameTyped(natives, after.game) && StackTyped(natives, after.game, Below(stack) + pushed)
            case Err(f) => !GoesWrong(f)
  {
    assert OpTyped(natives, c.game.world, c.game.created, Top(stack).op);
  }

  lemma ExecutedStaysTyped(natives: set<NativeId>, c: Core, stack: seq<Stacked>, oracle: Oracle)
    requires Safe(natives, c, stack) && stack != [] && c.budget > 0 && c.choice.None?
    ensures match Executed(c, natives, Top(stack), oracle)
            case Ok((after, pushed)) =>
              GameTyped(natives, after.game) && StackTyped(natives, after.game, Below(stack) + pushed)
            case Err(f) => !GoesWrong(f)
  {
    if Top(stack).op.RequestChoice? {
      AskedStaysTyped(natives, c, stack, oracle);
    } else {
      PaidStaysTyped(natives, c, stack, oracle);
    }
  }

  lemma DispatchesTyped(natives: set<NativeId>, c: Core, stack: seq<Stacked>, inp: Input)
    requires Safe(natives, c, stack) && stack != [] && c.budget > 0 && !Top(stack).op.RequestChoice?
    ensures StaysTyped(natives, c.game,
                       Dispatch(c.game, Env(natives, c.budget - 1, c.next), Top(stack).id, Top(stack).op, inp))
  {
    var top := Top(stack);
    BorrowedEventsAreLive(c.game, c.next, top.id, top.op, Owed(Below(stack)).value, Owed(stack).value);
    TypingEffects.DispatchIsTyped(c.game, Env(natives, c.budget - 1, c.next), top.id, top.op, inp);
  }

  lemma CarriedStaysTyped(natives: set<NativeId>, c: Core, stack: seq<Stacked>, top: Stacked, r: Result<Step, Failure>,
                          e: Result<(Core, seq<Stacked>), Failure>)
    requires stack != [] && c.budget > 0 && StackTyped(natives, c.game, stack) && StaysTyped(natives, c.game, r)
    requires Carries(c, top, r, e)
    ensures match e
            case Ok((after, pushed)) =>
              GameTyped(natives, after.game) && StackTyped(natives, after.game, Below(stack) + pushed)
            case Err(f) => !GoesWrong(f)
  {
    TypedStepStaysTyped(natives, c, stack, r);
  }

  lemma PaidStaysTyped(natives: set<NativeId>, c: Core, stack: seq<Stacked>, oracle: Oracle)
    requires Safe(natives, c, stack) && stack != [] && c.budget > 0 && !Top(stack).op.RequestChoice?
    ensures match Executed(c, natives, Top(stack), oracle)
            case Ok((after, pushed)) =>
              GameTyped(natives, after.game) && StackTyped(natives, after.game, Below(stack) + pushed)
            case Err(f) => !GoesWrong(f)
  {
    var top := Top(stack);
    DispatchesTyped(natives, c, stack, oracle(top.id));
    ExecutedCarries(natives, c, top, oracle);
    CarriedStaysTyped(natives, c, stack, top,
                      Dispatch(c.game, Env(natives, c.budget - 1, c.next), top.id, top.op, oracle(top.id)),
                      Executed(c, natives, top, oracle));
  }

  /** However a drive ends, it ends safely, and a failure is neither a mismatch nor a program gone wrong. */
  lemma {:induction false} DriveStaysSafe(natives: set<NativeId>, c: Core, stack: seq<Stacked>, oracle: Oracle)
    requires Safe(natives, c, stack) && c.choice.None?
    ensures match Drive(c, natives, stack, oracle)
            case Done(after) => Safe(natives, after, [])
            case Paused(after, rest) => Safe(natives, after, rest)
            case Failed(after, f) => GameTyped(natives, after.game) && !GoesWrong(f) && !OwnershipDispatch.Internal(f)
    decreases c.budget
  {
    if stack != [] && c.budget > 0 {
      ExecutedStaysSound(c, natives, stack, oracle);
      ExecutedStaysTyped(natives, c, stack, oracle);
      var r := Executed(c, natives, Top(stack), oracle);
      if r.Ok? && r.value.0.choice.None? {
        DriveStaysSafe(natives, r.value.0, Below(stack) + r.value.1, oracle);
      }
    }
  }

  // ---------- Sessions ----------

  ghost predicate SafelyAtRest(m: Machine, natives: set<NativeId>) {
    AtRest(m, natives) && GameTyped(natives, m.core.game) && StackTyped(natives, m.core.game, m.stack)
  }

  /** A new game: entities, counters, and nothing else. */
  function NewGame(world: map<EntityId, GameEntity>, nextEntity: EntityId): Game {
    Game(world, nextEntity, map[], 0, map[], 0, map[], 0, map[], map[], {}, map[], false, map[])
  }

  function NewSession(world: map<EntityId, GameEntity>, nextEntity: EntityId): Machine {
    Machine(Core(NewGame(world, nextEntity), None, 0, 0, []), [], false, AwaitingAction)
  }

  /** A new session is safe when the triggers of its world that some zone makes active were accepted. */
  lemma NewSessionsAreSafe(natives: set<NativeId>, world: map<EntityId, GameEntity>, nextEntity: EntityId)
    requires EntitiesBelow(world, nextEntity) && WorldTyped(natives, world)
    ensures SafelyAtRest(NewSession(world, nextEntity), natives)
  {
    assert Owed([]) == Some(NOTHING_OWED);
  }

  predicate WentWrong(report: Option<SessionError>) {
    report.Some? && report.value.ResolutionFailed? && GoesWrong(report.value.failure)
  }

  lemma PushedResolvesSafely(m: Machine, natives: set<NativeId>, ops: seq<Operation>, oracle: Oracle)
    requires Sound(m.core, m.stack) && GameTyped(natives, m.core.game) && StackTyped(natives, m.core.game, m.stack)
    requires forall op :: op in ops ==> Neutral(Owed(m.stack).value, op)
    requires AllTyped(natives, m.core.game, ops)
    ensures var (after, report) := ResolveToPause(Pushed(m, ops), natives, oracle);
            && GameTyped(natives, after.core.game) && StackTyped(natives, after.core.game, after.stack)
            && !WentWrong(report)
  {
    var p := Pushed(m, ops);
    PushedStaysSound(m, ops);
    PushesAreTyped(natives, m.core.game, m.stack, m.core.next, ops);
    DriveStaysSafe(natives, p.core, p.stack, oracle);
  }

  lemma BegunIsSafe(m: Machine, natives: set<NativeId>, action: Action, budget: nat, oracle: Oracle)
    requires SafelyAtRest(m, natives) && m.status == AwaitingAction && ProgramsAccepted(m.core.game, natives, action)
    ensures Begin(m.(status := Resolving), budget).Ok?
    ensures var begun := Begin(m.(status := Resolving), budget).value;
            var (after, report) := ResolveToPause(Pushed(begun, ActionOps(action)), natives, oracle);
            && GameTyped(natives, after.core.game) && StackTyped(natives, after.core.game, after.stack)
            && !WentWrong(report)
  {
    NothingOwedMeansNothingRetained(m.core.game, m.core.next);
    var begun := Begin(m.(status := Resolving), budget).value;
    assert OpTyped(natives, m.core.game.world, m.core.game.created, Compiled(action));
    PushedResolvesSafely(begun, natives, ActionOps(action), oracle);
  }

  lemma SubmitIsSafe(m: Machine, natives: set<NativeId>, action: Action, legal: bool, budget: nat, oracle: Oracle)
    requires SafelyAtRest(m, natives)
    ensures SafelyAtRest(Submit(m, natives, action, legal, budget, oracle).0, natives)
    ensures !WentWrong(Submit(m, natives, action, legal, budget, oracle).1)
  {
    SubmitComesToRest(m, natives, action, legal, budget, oracle);
    if !m.core.game.over && m.status == AwaitingAction && legal && ProgramsAccepted(m.core.game, natives, action) {
      BegunIsSafe(m, natives, action, budget, oracle);
    }
  }

  lemma AnswerIsSafe(m: Machine, natives: set<NativeId>, option: ChoiceId, oracle: Oracle)
    requires SafelyAtRest(m, natives)
    ensures var (after, report) := Answer(m, natives, option, oracle);
            SafelyAtRest(after, natives) && !WentWrong(report)
  {
    AnswerComesToRest(m, natives, option, oracle);
    if m.core.choice.Some? {
      FoundOptionIsOffered(m.core.choice.value.options, option);
      var found := FindOption(m.core.choice.value.options, option);
      if found.Some? {
        BranchIsTyped(natives, m.core.game, found.value.operations);
        PushedResolvesSafely(m, natives, found.value.operations, oracle);
      }
    }
  }

  lemma BranchIsTyped(natives: set<NativeId>, g: Game, ops: seq<Operation>)
    requires ValidBranch(natives, ops)
    ensures AllTyped(natives, g, ops)
  {
    forall op | op in ops ensures OpTyped(natives, g.world, g.created, op) {
      AcceptedMeansEveryEffect(natives, [op.effect], None, false);
      assert [op.effect][0] == op.effect;
    }
  }

  /** Whatever commands are given, no program ever goes wrong and no play scope is ever missing. */
  lemma {:induction false} ValidatedProgramsDoNotGoWrong(m: Machine, natives: set<NativeId>, commands: seq<Command>)
    requires SafelyAtRest(m, natives)
    ensures SafelyAtRest(RunSession(m, natives, commands).0, natives)
    ensures forall report :: report in RunSession(m, natives, commands).1 ==>
      !WentWrong(report) && !InternalReport(report)
    decreases |commands|
  {
    EverySessionStaysSound(m, natives, commands);
    if commands != [] {
      match commands[0]
      case SubmitAction(action, legal, budget, oracle) =>
        SubmitIsSafe(m, natives, action, legal, budget, oracle);
        ValidatedProgramsDoNotGoWrong(Run(m, natives, commands[0]).0, natives, commands[1..]);
      case SubmitChoice(option, oracle) =>
        AnswerIsSafe(m, natives, option, oracle);
        ValidatedProgramsDoNotGoWrong(Run(m, natives, commands[0]).0, natives, commands[1..]);
    }
  }
}
