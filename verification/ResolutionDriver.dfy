/**
 The resolver as it works in place: one stack, one budget, side tables and
 counters, changed by each primitive and by the drive loop.
 */
module ResolutionDriver {
  import opened Outcomes
  import opened EffectLanguage
  import opened ResolutionMachine
  import opened ResolutionRuns
  import opened ResolutionSessions

  class Resolver {
    var game: Game
    var choice: Option<ChoiceRequest>
    var stack: seq<Stacked>
    var budget: nat
    var next: ResolutionId
    var executed: seq<ResolutionId>
    var active: bool
    var status: Status
    const natives: set<NativeId>

    constructor (game: Game, natives: set<NativeId>)
      ensures State() == Machine(Core(game, None, 0, 0, []), [], false, IdleStatus(game)) && this.natives == natives
    {
      this.game, this.choice, this.stack, this.budget, this.next := game, None, [], 0, 0;
      this.executed, this.active, this.status := [], false, IdleStatus(game);
      this.natives := natives;
    }

    function Contents(): Core
      reads this
    {
      Core(game, choice, budget, next, executed)
    }

    function State(): Machine
      reads this
    {
      Machine(Contents(), stack, active, status)
    }

    /** Refuses to begin while anything of an earlier sequence is retained. */
    method BeginSequence(limit: nat) returns (error: Option<SessionError>)
      modifies this
      ensures match Begin(old(State()), limit)
              case Ok(begun) => error == None && State() == begun
              case Err(e) => error == Some(e) && State() == old(State())
    {
      if active || stack != [] || !NothingRetained(game) || choice.Some? {
        return Some(AlreadyResolving);
      }
      budget := limit;
      active := true;
      return None;
    }

    /** Drops the retained work; ids stay used. */
    method AbandonSequence()
      modifies this
      ensures State() == Abandoned(old(Contents()))
    {
      stack := [];
      game := game.(events := map[], slots := map[], draws := map[], scopes := map[], payers := map[],
                    transforms := {}, equips := map[]);
      choice := None;
      active := false;
      budget := 0;
      status := IdleStatus(game);
    }

    method Push(op: Operation) returns (id: ResolutionId)
      modifies this`stack, this`next
      ensures id == old(next) && next == old(next) + 1 && stack == old(stack) + [Stacked(id, op)]
    {
      id := next;
      next := next + 1;
      stack := stack + [Stacked(id, op)];
    }

    /** Pushes in reverse, so that the first operation is on top. */
    method PushAll(ops: seq<Operation>)
      modifies this`stack, this`next
      ensures stack == old(stack) + Numbered(old(next), ops) && next == old(next) + |ops|
    {
      var i := |ops|;
      while i > 0
        invariant 0 <= i <= |ops|
        invariant next == old(next) + |ops| - i
        invariant stack == old(stack) + Numbered(old(next), ops[i..])
      {
        assert ops[i - 1..][1..] == ops[i..];
        var _ := Push(ops[i - 1]);
        i := i - 1;
      }
      assert ops[0..] == ops;
    }

    method Pop() returns (top: Stacked)
      requires stack != []
      modifies this`stack
      ensures top == Top(old(stack)) && stack == Below(old(stack))
    {
      top := stack[|stack| - 1];
      stack := stack[..|stack| - 1];
    }

    method ConsumeBudget(operation: ResolutionId) returns (failure: Option<Failure>)
      modifies this`budget
      ensures old(budget) == 0 ==> failure == Some(BudgetExhausted(Some(operation))) && budget == 0
      ensures old(budget) > 0 ==> failure == None && budget == old(budget) - 1
    {
      if budget == 0 { return Some(BudgetExhausted(Some(operation))); }
      budget := budget - 1;
      return None;
    }

    /** Executes one popped operation and pushes what it schedules. */
    method ExecuteOperation(top: Stacked, oracle: Oracle) returns (failure: Option<Failure>)
      modifies this`game, this`choice, this`stack, this`next, this`executed
      ensures var paid := old(Contents()).(budget := old(budget) + 1);
              match Executed(paid, natives, top, oracle)
              case Ok((after, pushed)) => failure == None && Contents() == after && stack == old(stack) + pushed
              case Err(f) => failure == Some(f) && Contents() == old(Contents()) && stack == old(stack)
    {
      if top.op.RequestChoice? {
        if !ValidChoice(natives, top.op.choice) {
          return Some(InvalidProgram(ChoiceNeedsUniqueOptions));
        }
        if choice.Some? {
          return Some(PendingChoiceExists);
        }
        choice := Some(top.op.choice);
      } else {
        match Dispatch(game, Env(natives, budget, next), top.id, top.op, oracle(top.id)) {
          case Err(f) =>
            return Some(f);
          case Ok(step) =>
            game := step.game;
            PushAll(step.pushes);
        }
      }
      executed := executed + [top.id];
      return None;
    }

    /** The drive loop computes the depth-first run of the stack, up to a pause or a failure. */
    method DriveResolution(oracle: Oracle) returns (failure: Option<Failure>)
      modifies this`game, this`choice, this`stack, this`budget, this`next, this`executed
      ensures match RunAll(old(Contents()), natives, old(stack), oracle)
              case Done(after) => failure == None && Contents() == after && stack == []
              case Paused(after, rest) => failure == None && Contents() == after && stack == rest
              case Failed(at, f) =>
                failure == Some(f) && game == at.game && next == at.next && executed == at.executed
      ensures failure == None ==> (choice.Some? || stack == [])
    {
      ghost var start, whole := Contents(), stack;
      DriveIsDepthFirst(start, natives, whole, oracle);
      while stack != []
        invariant Drive(start, natives, whole, oracle) == Drive(Contents(), natives, stack, oracle)
        decreases budget
      {
        ghost var c, s := Contents(), stack;
        var top := Pop();
        var exhausted := ConsumeBudget(top.id);
        if exhausted.Some? { return exhausted; }
        assert c == Core(game, choice, budget + 1, next, executed) && top == Top(s) && stack == Below(s);
        failure := ExecuteOperation(top, oracle);
        DriveNext(c, natives, s, oracle, Executed(c, natives, top, oracle));
        if failure.Some? { return failure; }
        if choice.Some? { return None; }
      }
      return None;
    }

    method ResolveToPause(oracle: Oracle) returns (report: Option<SessionError>)
      requires choice.None?
      modifies this
      ensures (State(), report) == ResolutionSessions.ResolveToPause(old(State()), natives, oracle)
    {
      DriveIsDepthFirst(Contents(), natives, stack, oracle);
      PausesHaveAChoice(Contents(), natives, stack, oracle);
      var failure := DriveResolution(oracle);
      if failure.Some? {
        AbandonSequence();
        return Some(ResolutionFailed(failure.value));
      }
      if choice.Some? {
        status := AwaitingChoice;
        return None;
      }
      active := false;
      if !NothingRetained(game) || game.equips != map[] {
        AbandonSequence();
        return Some(InvariantBroken);
      }
      status := IdleStatus(game);
      return None;
    }

    method Apply(action: Action, legal: bool, limit: nat, oracle: Oracle) returns (report: Option<SessionError>)
      modifies this
      ensures (State(), report) == Submit(old(State()), natives, action, legal, limit, oracle)
    {
      if game.over { return Some(GameOver); }
      if status != AwaitingAction { return Some(NotAwaitingAction); }
      if !legal || !ProgramsAccepted(game, natives, action) { return Some(ActionRejected); }
      status := Resolving;
      report := BeginSequence(limit);
      if report.Some? { return; }
      ghost var begun := State();
      PushAll(ActionOps(action));
      assert Contents() == Pushed(begun, ActionOps(action)).core && stack == Pushed(begun, ActionOps(action)).stack;
      assert State() == Pushed(begun, ActionOps(action));
      report := ResolveToPause(oracle);
    }

    method Choose(option: ChoiceId, oracle: Oracle) returns (report: Option<SessionError>)
      modifies this
      ensures (State(), report) == Answer(old(State()), natives, option, oracle)
    {
      if choice.None? { return Some(NoPendingChoice); }
      var found := FindOption(choice.value.options, option);
      if found.None? { return Some(InvalidChoice(option)); }
      choice := None;
      status := Resolving;
      PushAll(found.value.operations);
      assert State() == Pushed(old(State()), found.value.operations);
      report := ResolveToPause(oracle);
    }
  }

  /** One turn of the drive loop. */
  lemma DriveNext(c: Core, natives: set<NativeId>, stack: seq<Stacked>, oracle: Oracle,
                  e: Result<(Core, seq<Stacked>), Failure>)
    requires stack != [] && c.budget > 0 && e == Executed(c, natives, Top(stack), oracle)
    ensures e.Err? ==> Drive(c, natives, stack, oracle) == Failed(c, e.error)
    ensures e.Ok? && e.value.0.choice.Some? ==>
      Drive(c, natives, stack, oracle) == Paused(e.value.0, Below(stack) + e.value.1)
    ensures e.Ok? && e.value.0.choice.None? ==>
      Drive(c, natives, stack, oracle) == Drive(e.value.0, natives, Below(stack) + e.value.1, oracle)
  {
  }

  /** A drive that pauses has a choice pending, and one that is done has none. */
  lemma {:induction false} PausesHaveAChoice(c: Core, natives: set<NativeId>, stack: seq<Stacked>, oracle: Oracle)
    requires c.choice.None?
    ensures match Drive(c, natives, stack, oracle)
            case Done(after) => after.choice.None?
            case Paused(after, _) => after.choice.Some?
            case Failed(_, _) => true
    decreases c.budget
  {
    if stack != [] && c.budget > 0 {
      var r := Executed(c, natives, Top(stack), oracle);
      if r.Ok? && r.value.0.choice.None? {
        PausesHaveAChoice(r.value.0, natives, Below(stack) + r.value.1, oracle);
      }
    }
  }
}
