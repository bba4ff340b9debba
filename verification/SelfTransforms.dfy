/**
 Self transforms run only inside a play that contains one.

 A play scope is opened only by playing a minion whose program contains a self
 transform. Where none is opened, no self transform is ever executed, before or
 after any choice of the sequence.
 */
module SelfTransforms {
  import opened Outcomes
  import opened EffectLanguage
  import opened ResolutionMachine
  import opened Scheduling
  import ResolutionOwnership
  import ResolutionTyping
  import opened ResolutionRuns
  import opened ResolutionSessions
  import opened ResolutionSafety

  predicate OpensNoScope(g: Game, r: StepResult) {
    r.Ok? ==> r.value.game.scopes.Keys <= g.scopes.Keys && NoPlays(r.value.pushes)
  }

  /** A scope is opened only by playing a minion that transforms itself, and nothing else schedules a play. */
  lemma OnlySelfPlaysOpenScopes(g: Game, env: Env, id: ResolutionId, op: Operation, inp: Input)
    requires !op.RequestChoice? && (Plays(op) ==> !PlaysASelfTransform(g.world, op.step.card))
    ensures OpensNoScope(g, Dispatch(g, env, id, op, inp))
  {
    if Transforming(op) {
      TransformingSchedules(g, env, id, op, inp);
    } else if op.AttemptTrigger? {
      AttemptsSchedule(g, env, id, op, inp);
    } else {
      OperationsAreOrdinary(g, env, id, op, inp);
    }
  }

  // ---------- Runs without a self transform ----------

  /** No self transform is among the operations the drive loop executes before it stops. */
  ghost predicate NeverTransformsSelf(c: Core, natives: set<NativeId>, stack: seq<Stacked>, oracle: Oracle)
    decreases c.budget
  {
    stack != [] && c.budget > 0 ==>
      && !(Top(stack).op.TransformEntity? && Top(stack).op.kind == PlayedSelf)
      && match Executed(c, natives, Top(stack), oracle)
         case Err(_) => true
         case Ok((after, pushed)) =>
           after.choice.Some? || NeverTransformsSelf(after, natives, Below(stack) + pushed, oracle)
  }

  predicate NoneToPlay(stack: seq<Stacked>) {
    forall i :: 0 <= i < |stack| ==> !Plays(stack[i].op)
  }

  lemma NoSelfTransformWithoutScope(natives: set<NativeId>, c: Core, stack: seq<Stacked>)
    requires Safe(natives, c, stack) && stack != [] && c.game.scopes == map[]
    ensures !(Top(stack).op.TransformEntity? && Top(stack).op.kind == PlayedSelf)
  {
    assert ResolutionTyping.OpTyped(natives, c.game.world, c.game.created, stack[|stack| - 1].op);
  }

  lemma PushesPlayNothing(stack: seq<Stacked>, next: ResolutionId, ops: seq<Operation>)
    requires NoneToPlay(stack) && NoPlays(ops)
    ensures NoneToPlay(stack + Numbered(next, ops))
  {
    NumberedIdsAreFresh(next, ops);
    var all := stack + Numbered(next, ops);
    forall i | 0 <= i < |all| ensures !Plays(all[i].op) {
      if i >= |stack| { assert all[i].op == ops[|ops| - 1 - (i - |stack|)]; }
    }
  }

  lemma NoScopesStay(g: Game, h: Game)
    requires g.scopes == map[] && h.scopes.Keys <= g.scopes.Keys
    ensures h.scopes == map[]
  {
    assert h.scopes.Keys == {};
  }

  lemma StaysUnscoped(natives: set<NativeId>, c: Core, stack: seq<Stacked>, oracle: Oracle)
    requires stack != [] && c.budget > 0 && c.game.scopes == map[] && NoneToPlay(Below(stack))
    requires Plays(Top(stack).op) ==> !PlaysASelfTransform(c.game.world, Top(stack).op.step.card)
    ensures match Executed(c, natives, Top(stack), oracle)
            case Err(_) => true
            case Ok((after, pushed)) => after.game.scopes == map[] && NoneToPlay(Below(stack) + pushed)
  {
    var top := Top(stack);
    if top.op.RequestChoice? {
      assert Below(stack) + [] == Below(stack);
    } else {
      DispatchStaysUnscoped(c, Env(natives, c.budget - 1, c.next), Below(stack), top, oracle(top.id));
      ExecutedCarries(natives, c, top, oracle);
      CarriedStaysUnscoped(c, top, Below(stack),
                           Dispatch(c.game, Env(natives, c.budget - 1, c.next), top.id, top.op, oracle(top.id)),
                           Executed(c, natives, top, oracle));
    }
  }

  lemma CarriedStaysUnscoped(c: Core, top: Stacked, below: seq<Stacked>, r: StepResult,
                             e: Result<(Core, seq<Stacked>), Failure>)
    requires c.budget > 0 && Carries(c, top, r, e)
    requires r.Ok? ==> r.value.game.scopes == map[] && NoneToPlay(below + Numbered(c.next, r.value.pushes))
    ensures e.Ok? ==> e.value.0.game.scopes == map[] && NoneToPlay(below + e.value.1)
  {
  }

  lemma DispatchStaysUnscoped(c: Core, env: Env, below: seq<Stacked>, top: Stacked, inp: Input)
    requires c.game.scopes == map[] && NoneToPlay(below) && !top.op.RequestChoice?
    requires Plays(top.op) ==> !PlaysASelfTransform(c.game.world, top.op.step.card)
    ensures match Dispatch(c.game, env, top.id, top.op, inp)
            case Err(_) => true
            case Ok(step) => step.game.scopes == map[] && NoneToPlay(below + Numbered(c.next, step.pushes))
  {
    OnlySelfPlaysOpenScopes(c.game, env, top.id, top.op, inp);
    var r := Dispatch(c.game, env, top.id, top.op, inp);
    if r.Ok? {
      NoScopesStay(c.game, r.value.game);
      PushesPlayNothing(below, c.next, r.value.pushes);
    }
  }

  lemma {:induction false} UnscopedRunsNeverTransformSelf(natives: set<NativeId>, c: Core, stack: seq<Stacked>,
                                                          oracle: Oracle)
    requires Safe(natives, c, stack) && c.choice.None? && c.game.scopes == map[]
    requires stack != [] ==> NoneToPlay(Below(stack))
    requires stack != [] && Plays(Top(stack).op) ==> !PlaysASelfTransform(c.game.world, Top(stack).op.step.card)
    ensures NeverTransformsSelf(c, natives, stack, oracle)
    decreases c.budget
  {
    if stack != [] && c.budget > 0 {
      NoSelfTransformWithoutScope(natives, c, stack);
      StaysUnscoped(natives, c, stack, oracle);
      ExecutedStaysSound(c, natives, stack, oracle);
      ExecutedStaysTyped(natives, c, stack, oracle);
      var r := Executed(c, natives, Top(stack), oracle);
      if r.Ok? && r.value.0.choice.None? {
        UnscopedRunsNeverTransformSelf(natives, r.value.0, Below(stack) + r.value.1, oracle);
      }
    }
  }

  /** A pause opens no scope and leaves nothing to play. */
  lemma {:induction false} PausesStayUnscoped(natives: set<NativeId>, c: Core, stack: seq<Stacked>, oracle: Oracle)
    requires c.choice.None? && c.game.scopes == map[]
    requires stack != [] ==> NoneToPlay(Below(stack))
    requires stack != [] && Plays(Top(stack).op) ==> !PlaysASelfTransform(c.game.world, Top(stack).op.step.card)
    ensures match Drive(c, natives, stack, oracle)
            case Paused(after, rest) => after.game.scopes == map[] && NoneToPlay(rest)
            case _ => true
    decreases c.budget
  {
    if stack != [] && c.budget > 0 {
      StaysUnscoped(natives, c, stack, oracle);
      var r := Executed(c, natives, Top(stack), oracle);
      if r.Ok? && r.value.0.choice.None? {
        PausesStayUnscoped(natives, r.value.0, Below(stack) + r.value.1, oracle);
      }
    }
  }

  lemma PushedActionIsSafe(m: Machine, natives: set<NativeId>, action: Action)
    requires Sound(m.core, m.stack) && m.stack == [] && ResolutionTyping.GameTyped(natives, m.core.game)
    requires ProgramsAccepted(m.core.game, natives, action)
    ensures Safe(natives, Pushed(m, ActionOps(action)).core, Pushed(m, ActionOps(action)).stack)
  {
    PushedStaysSound(m, ActionOps(action));
    assert ResolutionTyping.OpTyped(natives, m.core.game.world, m.core.game.created, Compiled(action));
    PushesAreTyped(natives, m.core.game, [], m.core.next, ActionOps(action));
  }

  lemma PushedActionStack(next: ResolutionId, action: Action)
    ensures var stack := [] + Numbered(next, ActionOps(action));
            stack != [] && Top(stack).op == Compiled(action) && NoneToPlay(Below(stack))
  {
    var stack := [] + Numbered(next, ActionOps(action));
    PushesPlayNothing([], next, ActionOps(action)[1..]);
    assert Below(stack) == [] + Numbered(next, ActionOps(action)[1..]);
  }

  // ---------- Whole sessions ----------

  /** What a command sets out to resolve, or None when it is refused. */
  function Resumption(m: Machine, natives: set<NativeId>, command: Command): Option<Machine> {
    match command
    case SubmitAction(action, legal, budget, _) => (
      if m.core.game.over || m.status != AwaitingAction || !legal || !ProgramsAccepted(m.core.game, natives, action)
      then None else
        match Begin(m.(status := Resolving), budget)
        case Err(_) => None
        case Ok(begun) => Some(Pushed(begun, ActionOps(action))))
    case SubmitChoice(option, _) =>
      if m.core.choice.None? then None else
        match FindOption(m.core.choice.value.options, option)
        case None => None
        case Some(chosen) => Some(Pushed(m, chosen.operations))
  }

  function OracleOf(command: Command): Oracle {
    if command.SubmitAction? then command.oracle else command.answerOracle
  }

  /** That is all a command does: it resolves its resumption. */
  lemma RunResolvesTheResumption(m: Machine, natives: set<NativeId>, command: Command)
    requires Resumption(m, natives, command).Some?
    ensures Run(m, natives, command) ==
            ResolveToPause(Resumption(m, natives, command).value, natives, OracleOf(command))
  {
  }

  /** Whether the sequence that the command starts or goes on with was started by playing a self transform. */
  predicate InSelfPlay(m: Machine, natives: set<NativeId>, selfPlay: bool, command: Command) {
    if command.SubmitAction? && Resumption(m, natives, command).Some?
    then command.action.PlayCardAction? && PlaysASelfTransform(m.core.game.world, command.action.card)
    else selfPlay
  }

  /** No command executes a self transform unless its sequence was started by playing one. */
  ghost predicate TransformsSelfOnlyInSelfPlays(m: Machine, natives: set<NativeId>, selfPlay: bool,
                                                commands: seq<Command>)
    decreases |commands|
  {
    commands != [] ==>
      && var playing := InSelfPlay(m, natives, selfPlay, commands[0]);
      && var resumed := Resumption(m, natives, commands[0]);
      && (!playing && resumed.Some? ==>
            NeverTransformsSelf(resumed.value.core, natives, resumed.value.stack, OracleOf(commands[0])))
      && TransformsSelfOnlyInSelfPlays(Run(m, natives, commands[0]).0, natives, playing, commands[1..])
  }

  /** Nothing is left of a sequence in which a self transform could still run. */
  predicate Unscoped(m: Machine) {
    m.core.game.scopes == map[] && NoneToPlay(m.stack)
  }

  lemma BegunNeverTransformsSelf(m: Machine, natives: set<NativeId>, action: Action, oracle: Oracle)
    requires Sound(m.core, m.stack) && m.stack == [] && m.core.choice.None? && m.core.game.scopes == map[]
    requires ResolutionTyping.GameTyped(natives, m.core.game) && ProgramsAccepted(m.core.game, natives, action)
    requires action.PlayCardAction? ==> !PlaysASelfTransform(m.core.game.world, action.card)
    ensures var p := Pushed(m, ActionOps(action));
            && NeverTransformsSelf(p.core, natives, p.stack, oracle)
            && var after := ResolveToPause(p, natives, oracle).0; (after.status == AwaitingChoice ==> Unscoped(after))
  {
    var p := Pushed(m, ActionOps(action));
    PushedActionIsSafe(m, natives, action);
    PushedActionStack(m.core.next, action);
    UnscopedRunsNeverTransformSelf(natives, p.core, p.stack, oracle);
    PausesStayUnscoped(natives, p.core, p.stack, oracle);
  }

  /** The operations of a valid choice play nothing. */
  lemma BranchPlaysNothing(natives: set<NativeId>, ops: seq<Operation>)
    requires ValidBranch(natives, ops)
    ensures NoPlays(ops)
  {
  }

  lemma ResumedNeverTransformsSelf(m: Machine, natives: set<NativeId>, ops: seq<Operation>, oracle: Oracle)
    requires SafelyAtRest(m, natives) && Unscoped(m) && ValidBranch(natives, ops)
    requires forall op :: op in ops ==> ResolutionOwnership.Neutral(Owed(m.stack).value, op)
    ensures var p := Pushed(m, ops);
            && NeverTransformsSelf(p.core, natives, p.stack, oracle)
            && var after := ResolveToPause(p, natives, oracle).0; (after.status == AwaitingChoice ==> Unscoped(after))
  {
    var p := Pushed(m, ops);
    PushedStaysSound(m, ops);
    BranchIsTyped(natives, m.core.game, ops);
    PushesAreTyped(natives, m.core.game, m.stack, m.core.next, ops);
    BranchPlaysNothing(natives, ops);
    PushesPlayNothing(m.stack, m.core.next, ops);
    UnscopedRunsNeverTransformSelf(natives, p.core, p.stack, oracle);
    PausesStayUnscoped(natives, p.core, p.stack, oracle);
  }

  /** One command of a sequence that played no self transform executes none and leaves none behind. */
  lemma CommandNeverTransformsSelf(m: Machine, natives: set<NativeId>, command: Command)
    requires SafelyAtRest(m, natives) && (command.SubmitAction? || Unscoped(m))
    requires Resumption(m, natives, command).Some? && !InSelfPlay(m, natives, false, command)
    ensures var p := Resumption(m, natives, command).value;
            NeverTransformsSelf(p.core, natives, p.stack, OracleOf(command))
    ensures var after := Run(m, natives, command).0; (after.status == AwaitingChoice ==> Unscoped(after))
  {
    RunResolvesTheResumption(m, natives, command);
    match command
    case SubmitAction(action, _, budget, oracle) =>
      NothingOwedMeansNothingRetained(m.core.game, m.core.next);
      BegunNeverTransformsSelf(Begin(m.(status := Resolving), budget).value, natives, action, oracle);
    case SubmitChoice(option, oracle) =>
      FoundOptionIsOffered(m.core.choice.value.options, option);
      ResumedNeverTransformsSelf(m, natives, FindOption(m.core.choice.value.options, option).value.operations, oracle);
  }

  /**
   Whatever commands are given and however choices are answered, a self
   transform is executed only in a sequence that started by playing one.
   */
  lemma {:induction false} OtherActionsNeverTransformSelf(m: Machine, natives: set<NativeId>, selfPlay: bool,
                                                          commands: seq<Command>)
    requires SafelyAtRest(m, natives) && (m.status == AwaitingChoice && !selfPlay ==> Unscoped(m))
    ensures TransformsSelfOnlyInSelfPlays(m, natives, selfPlay, commands)
    decreases |commands|
  {
    if commands != [] {
      var after, playing := Run(m, natives, commands[0]).0, InSelfPlay(m, natives, selfPlay, commands[0]);
      var resumed := Resumption(m, natives, commands[0]);
      RunIsSafe(m, natives, commands[0]);
      if !playing && resumed.Some? {
        CommandNeverTransformsSelf(m, natives, commands[0]);
      } else if resumed.None? {
        RefusedChangesNothing(m, natives, commands[0]);
      }
      OtherActionsNeverTransformSelf(after, natives, playing, commands[1..]);
    }
  }

  lemma RunIsSafe(m: Machine, natives: set<NativeId>, command: Command)
    requires SafelyAtRest(m, natives)
    ensures SafelyAtRest(Run(m, natives, command).0, natives)
  {
    match command
    case SubmitAction(action, legal, budget, oracle) => SubmitIsSafe(m, natives, action, legal, budget, oracle);
    case SubmitChoice(option, oracle) => AnswerIsSafe(m, natives, option, oracle);
  }

  lemma RefusedChangesNothing(m: Machine, natives: set<NativeId>, command: Command)
    requires SafelyAtRest(m, natives) && Resumption(m, natives, command).None?
    ensures Run(m, natives, command).0 == m
  {
    if m.status == AwaitingAction { NothingOwedMeansNothingRetained(m.core.game, m.core.next); }
  }
}
