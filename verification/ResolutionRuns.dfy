/**
 The drive loop over the LIFO stack, and the depth-first meaning it has.

 Pushing operations and driving the stack means: run each operation, and all
 that it schedules, to completion before the next one, and touch nothing below.
 */
module ResolutionRuns {
  import opened Outcomes
  import opened EffectLanguage
  import opened ResolutionMachine

  datatype Stacked = Stacked(id: ResolutionId, op: Operation)

  type Oracle = ResolutionId -> Input

  /** Everything but the stack: the game, a pending choice, the budget, the next id, the operations executed so far. */
  datatype Core = Core(game: Game, choice: Option<ChoiceRequest>, budget: nat, next: ResolutionId,
                       executed: seq<ResolutionId>)

  datatype Outcome =
    | Done(core: Core)
    | Paused(core: Core, rest: seq<Stacked>)
    | Failed(core: Core, failure: Failure)

  /** Operations in execution order as they lie on the stack: numbered from the last up, top last. */
  function Numbered(next: ResolutionId, ops: seq<Operation>): (s: seq<Stacked>)
    ensures |s| == |ops|
  {
    if ops == [] then [] else Numbered(next, ops[1..]) + [Stacked(next + |ops| - 1, ops[0])]
  }

  function Top(stack: seq<Stacked>): Stacked
    requires stack != []
  {
    stack[|stack| - 1]
  }

  function Below(stack: seq<Stacked>): seq<Stacked>
    requires stack != []
  {
    stack[..|stack| - 1]
  }

  /** Asking for a choice needs a valid request and no other pending choice. */
  function Asked(c: Core, natives: set<NativeId>, request: ChoiceRequest): Result<Core, Failure> {
    if !ValidChoice(natives, request) then Err(InvalidProgram(ChoiceNeedsUniqueOptions)) else
      if c.choice.Some? then Err(PendingChoiceExists) else Ok(c.(choice := Some(request)))
  }

  /** One popped operation, paid for and dispatched. */
  function Executed(c: Core, natives: set<NativeId>, top: Stacked, oracle: Oracle): Result<(Core,
                                                                                            seq<Stacked>), Failure>
    requires c.budget > 0
  {
    var paid := c.(budget := c.budget - 1, executed := c.executed + [top.id]);
    if top.op.RequestChoice? then
      match Asked(paid, natives, top.op.choice)
      case Err(f) => Err(f)
      case Ok(asked) => Ok((asked, []))
    else
      match Dispatch(c.game, Env(natives, paid.budget, c.next), top.id, top.op, oracle(top.id))
      case Err(f) => Err(f)
      case Ok(step) =>
        Ok((paid.(game := step.game, next := c.next + |step.pushes|), Numbered(c.next, step.pushes)))
  }

  /** The outcome of executing an operation as it follows from the dispatched step. */
  predicate Carries(c: Core, top: Stacked, r: StepResult, e: Result<(Core, seq<Stacked>), Failure>)
    requires c.budget > 0
  {
    match r
    case Err(f) => e == Err(f)
    case Ok(step) =>
      e == Ok((Core(step.game, c.choice, c.budget - 1, c.next + |step.pushes|, c.executed + [top.id]),
               Numbered(c.next, step.pushes)))
  }

  lemma ExecutedCarries(natives: set<NativeId>, c: Core, top: Stacked, oracle: Oracle)
    requires c.budget > 0 && !top.op.RequestChoice?
    ensures Carries(c, top, Dispatch(c.game, Env(natives, c.budget - 1, c.next), top.id, top.op, oracle(top.id)),
                    Executed(c, natives, top, oracle))
  {
  }

  /** The loop: pop, pay, execute, push; stop when the stack is empty or a choice is pending. */
  function Drive(c: Core, natives: set<NativeId>, stack: seq<Stacked>, oracle: Oracle): Outcome
    decreases c.budget
  {
    if stack == [] then Done(c) else
      if c.budget == 0 then Failed(c, BudgetExhausted(Some(Top(stack).id))) else
        match Executed(c, natives, Top(stack), oracle)
        case Err(f) => Failed(c, f)
        case Ok((after, pushed)) =>
          if after.choice.Some? then Paused(after, Below(stack) + pushed)
          else Drive(after, natives, Below(stack) + pushed, oracle)
  }

  /** After the operation of this id has taken this step. */
  function Stepped(c: Core, id: ResolutionId, step: Step): Core
    requires c.budget > 0
  {
    Core(step.game, None, c.budget - 1, c.next + |step.pushes|, c.executed + [id])
  }

  /** How the drive goes on from the outcome of its top operation. */
  predicate GoesOn(c: Core, natives: set<NativeId>, stack: seq<Stacked>, oracle: Oracle, r: StepResult)
    requires stack != [] && c.budget > 0
  {
    Drive(c, natives, stack, oracle) ==
      match r {
        case Err(f) => Failed(c, f)
        case Ok(step) =>
          Drive(Stepped(c, Top(stack).id, step), natives, Below(stack) + Numbered(c.next, step.pushes), oracle)
      }
  }

  lemma CarriedGoesOn(c: Core, natives: set<NativeId>, stack: seq<Stacked>, oracle: Oracle, r: StepResult,
                      e: Result<(Core, seq<Stacked>), Failure>)
    requires stack != [] && c.budget > 0 && c.choice.None?
    requires Carries(c, Top(stack), r, e) && e == Executed(c, natives, Top(stack), oracle)
    ensures GoesOn(c, natives, stack, oracle, r)
  {
  }

  lemma OneStep(c: Core, natives: set<NativeId>, stack: seq<Stacked>, oracle: Oracle)
    requires stack != [] && c.budget > 0 && c.choice.None? && !Top(stack).op.RequestChoice?
    ensures var env := Env(natives, c.budget - 1, c.next);
            GoesOn(c, natives, stack, oracle,
                   Dispatch(c.game, env, Top(stack).id, Top(stack).op, oracle(Top(stack).id)))
  {
    ExecutedCarries(natives, c, Top(stack), oracle);
    CarriedGoesOn(c, natives, stack, oracle,
                  Dispatch(c.game, Env(natives, c.budget - 1, c.next), Top(stack).id, Top(stack).op,
                           oracle(Top(stack).id)),
                  Executed(c, natives, Top(stack), oracle));
  }

  lemma StepCarriesOn(c: Core, natives: set<NativeId>, stack: seq<Stacked>, oracle: Oracle, r: StepResult, step: Step)
    requires stack != [] && c.budget > 0 && GoesOn(c, natives, stack, oracle, r) && r == Ok(step)
    ensures Drive(c, natives, stack, oracle) ==
            Drive(Stepped(c, Top(stack).id, step), natives, Below(stack) + Numbered(c.next, step.pushes), oracle)
  {
  }

  lemma OnTop(lower: seq<Stacked>, top: Stacked)
    ensures Top(lower + [top]) == top && Below(lower + [top]) == lower
  {
  }

  /** The drive after its top operation has taken this step. */
  lemma StepGoesOn(c: Core, natives: set<NativeId>, lower: seq<Stacked>, top: Stacked, oracle: Oracle, step: Step)
    requires c.budget > 0 && c.choice.None? && !top.op.RequestChoice?
    requires Dispatch(c.game, Env(natives, c.budget - 1, c.next), top.id, top.op, oracle(top.id)) == Ok(step)
    ensures Drive(c, natives, lower + [top], oracle) ==
            Drive(Stepped(c, top.id, step), natives, lower + Numbered(c.next, step.pushes), oracle)
  {
    OnTop(lower, top);
    OneStep(c, natives, lower + [top], oracle);
    StepCarriesOn(c, natives, lower + [top], oracle,
                  Dispatch(c.game, Env(natives, c.budget - 1, c.next), top.id, top.op, oracle(top.id)), step);
  }

  lemma OneNumbered(next: ResolutionId, a: Operation)
    ensures Numbered(next, [a]) == [Stacked(next, a)]
  {
    assert [a][1..] == [];
  }

  lemma TwoNumbered(next: ResolutionId, a: Operation, b: Operation)
    ensures Numbered(next, [a, b]) == [Stacked(next, b)] + [Stacked(next + 1, a)]
  {
    assert [a, b][1..] == [b];
    OneNumbered(next, b);
  }

  lemma NothingNumbered(lower: seq<Stacked>, next: ResolutionId)
    ensures lower + Numbered(next, []) == lower
  {
  }

  // ---------- Depth-first meaning ----------

  /** Runs one operation and everything it schedules. */
  function RunOne(c: Core, natives: set<NativeId>, top: Stacked, oracle: Oracle): (o: Outcome)
    ensures o.core.budget <= c.budget
    decreases c.budget, 0
  {
    if c.budget == 0 then Failed(c, BudgetExhausted(Some(top.id))) else
      match Executed(c, natives, top, oracle)
      case Err(f) => Failed(c, f)
      case Ok((after, pushed)) =>
        if after.choice.Some? then Paused(after, pushed) else RunAll(after, natives, pushed, oracle)
  }

  /** Runs the operations one after the other, the top one first; a pause keeps the others as they are. */
  function RunAll(c: Core, natives: set<NativeId>, stack: seq<Stacked>, oracle: Oracle): (o: Outcome)
    ensures o.core.budget <= c.budget
    decreases c.budget, |stack|
  {
    if stack == [] then Done(c) else
      match RunOne(c, natives, Top(stack), oracle)
      case Done(after) => RunAll(after, natives, Below(stack), oracle)
      case Paused(after, rest) => Paused(after, Below(stack) + rest)
      case Failed(after, f) => Failed(after, f)
  }

  /** Goes on with the operations that lay below, or leaves them below what is still pending. */
  function AndThen(o: Outcome, natives: set<NativeId>, lower: seq<Stacked>, oracle: Oracle): Outcome {
    match o
    case Done(c) => RunAll(c, natives, lower, oracle)
    case Paused(c, rest) => Paused(c, lower + rest)
    case Failed(c, f) => Failed(c, f)
  }

  /** The upper part runs to completion as if nothing lay below it, and only then the lower part. */
  lemma {:induction false} UpperPartFirst(
      c: Core, natives: set<NativeId>, lower: seq<Stacked>, upper: seq<Stacked>, oracle: Oracle)
    ensures RunAll(c, natives, lower + upper, oracle) ==
      AndThen(RunAll(c, natives, upper, oracle), natives, lower, oracle)
    decreases c.budget, |upper|
  {
    if upper == [] {
      assert lower + upper == lower;
    } else {
      assert Top(lower + upper) == Top(upper) && Below(lower + upper) == lower + Below(upper);
      match RunOne(c, natives, Top(upper), oracle)
      case Done(after) => UpperPartFirst(after, natives, lower, Below(upper), oracle);
      case Paused(_, rest) => assert lower + Below(upper) + rest == lower + (Below(upper) + rest);
      case Failed(_, _) =>
    }
  }

  /** The drive loop computes the depth-first meaning. */
  lemma {:induction false} DriveIsDepthFirst(c: Core, natives: set<NativeId>, stack: seq<Stacked>, oracle: Oracle)
    ensures Drive(c, natives, stack, oracle) == RunAll(c, natives, stack, oracle)
    decreases c.budget
  {
    if stack != [] && c.budget > 0 {
      var r := Executed(c, natives, Top(stack), oracle);
      if r.Ok? && r.value.0.choice.None? {
        DriveIsDepthFirst(r.value.0, natives, Below(stack) + r.value.1, oracle);
        UpperPartFirst(r.value.0, natives, Below(stack), r.value.1, oracle);
      }
    }
  }

  /** What lies below a driven part is untouched when the driver pauses, and is next when it is done. */
  lemma DrivingTouchesNothingBelow(
      c: Core, natives: set<NativeId>, lower: seq<Stacked>, upper: seq<Stacked>, oracle: Oracle)
    ensures
      match Drive(c, natives, upper, oracle)
      case Done(after) => Drive(c, natives, lower + upper, oracle) == Drive(after, natives, lower, oracle)
      case Paused(after, rest) => Drive(c, natives, lower + upper, oracle) == Paused(after, lower + rest)
      case Failed(after, f) => Drive(c, natives, lower + upper, oracle) == Failed(after, f)
  {
    DriveIsDepthFirst(c, natives, upper, oracle);
    DriveIsDepthFirst(c, natives, lower + upper, oracle);
    UpperPartFirst(c, natives, lower, upper, oracle);
    if Drive(c, natives, upper, oracle).Done? {
      DriveIsDepthFirst(Drive(c, natives, upper, oracle).core, natives, lower, oracle);
    }
  }

  // ---------- Choices ----------

  /** A pause always leaves a valid choice with at least one option. */
  lemma {:induction false} PausesOfferOptions(c: Core, natives: set<NativeId>, stack: seq<Stacked>, oracle: Oracle)
    requires c.choice.None? && Drive(c, natives, stack, oracle).Paused?
    ensures var p := Drive(c, natives, stack, oracle).core;
            p.choice.Some? && ValidChoice(natives, p.choice.value) && p.budget < c.budget
    decreases c.budget
  {
    var (after, pushed) := Executed(c, natives, Top(stack), oracle).value;
    if after.choice.None? {
      PausesOfferOptions(after, natives, Below(stack) + pushed, oracle);
    }
  }

  /** Picks an option of the pending choice, by the number of operations executed when it was asked. */
  type Answers = nat -> nat

  function ChosenOps(c: Core, answers: Answers): seq<Operation>
    requires c.choice.Some? && c.choice.value.options != []
  {
    var options := c.choice.value.options;
    options[answers(|c.executed|) % |options|].operations
  }

  /** Taking the pending choice; the operations of the picked option go on top of the stack. */
  function Answered(c: Core, answers: Answers): (Core, seq<Stacked>)
    requires c.choice.Some? && c.choice.value.options != []
  {
    var ops := ChosenOps(c, answers);
    (c.(choice := None, next := c.next + |ops|), Numbered(c.next, ops))
  }

  /** Drives to every pause, answers, and drives on, until the stack is empty or something fails. */
  function DriveThrough(c: Core, natives: set<NativeId>, stack: seq<Stacked>, oracle: Oracle, answers: Answers): Outcome
    requires c.choice.None?
    decreases c.budget
  {
    var o := Drive(c, natives, stack, oracle);
    if o.Paused? then
      PausesOfferOptions(c, natives, stack, oracle);
      var (resumed, chosen) := Answered(o.core, answers);
      DriveThrough(resumed, natives, o.rest + chosen, oracle, answers)
    else o
  }

  /** The same run without suspension: a choice is answered on the spot and its operations run in its place. */
  function RunOneInline(c: Core, natives: set<NativeId>, top: Stacked, oracle: Oracle, answers: Answers): (o: Outcome)
    requires c.choice.None?
    ensures o.core.budget <= c.budget && (o.Done? ==> o.core.choice.None?) && !o.Paused?
    decreases c.budget, 0
  {
    if c.budget == 0 then Failed(c, BudgetExhausted(Some(top.id))) else
      match Executed(c, natives, top, oracle)
      case Err(f) => Failed(c, f)
      case Ok((after, pushed)) =>
        if after.choice.Some? then
          var (resumed, chosen) := Answered(after, answers);
          RunInline(resumed, natives, chosen, oracle, answers)
        else RunInline(after, natives, pushed, oracle, answers)
  }

  function RunInline(c: Core, natives: set<NativeId>, stack: seq<Stacked>, oracle: Oracle,
                     answers: Answers): (o: Outcome)
    requires c.choice.None?
    ensures o.core.budget <= c.budget && (o.Done? ==> o.core.choice.None?) && !o.Paused?
    decreases c.budget, |stack|
  {
    if stack == [] then Done(c) else
      match RunOneInline(c, natives, Top(stack), oracle, answers)
      case Done(after) => RunInline(after, natives, Below(stack), oracle, answers)
      case Failed(after, f) => Failed(after, f)
  }

  lemma {:induction false} InlineUpperPartFirst(
      c: Core, natives: set<NativeId>, lower: seq<Stacked>, upper: seq<Stacked>, oracle: Oracle, answers: Answers)
    requires c.choice.None?
    ensures
      match RunInline(c, natives, upper, oracle, answers)
      case Done(after) =>
        RunInline(c, natives, lower + upper, oracle, answers) == RunInline(after, natives, lower, oracle, answers)
      case o => RunInline(c, natives, lower + upper, oracle, answers) == o
    decreases c.budget, |upper|
  {
    if upper == [] {
      assert lower + upper == lower;
    } else {
      assert Top(lower + upper) == Top(upper) && Below(lower + upper) == lower + Below(upper);
      var r := RunOneInline(c, natives, Top(upper), oracle, answers);
      if r.Done? {
        InlineUpperPartFirst(r.core, natives, lower, Below(upper), oracle, answers);
      }
    }
  }

  /** A run up to its first pause, then answered in place, is the run without suspension. */
  lemma {:induction false} InlineFromFirstPause(
      c: Core, natives: set<NativeId>, stack: seq<Stacked>, oracle: Oracle, answers: Answers)
    requires c.choice.None?
    ensures
      var o := Drive(c, natives, stack, oracle);
      if o.Paused? then
        && o.core.choice.Some? && o.core.choice.value.options != []
        && var (resumed, chosen) := Answered(o.core, answers);
           RunInline(c, natives, stack, oracle, answers) ==
             RunInline(resumed, natives, o.rest + chosen, oracle, answers)
      else RunInline(c, natives, stack, oracle, answers) == o
    decreases c.budget
  {
    if stack != [] && c.budget > 0 {
      var r := Executed(c, natives, Top(stack), oracle);
      if r.Ok? {
        var (after, pushed) := r.value;
        if after.choice.Some? {
          var (resumed, chosen) := Answered(after, answers);
          assert Below(stack) + pushed == Below(stack);
          InlineUpperPartFirst(resumed, natives, Below(stack), chosen, oracle, answers);
        } else {
          InlineFromFirstPause(after, natives, Below(stack) + pushed, oracle, answers);
          InlineUpperPartFirst(after, natives, Below(stack), pushed, oracle, answers);
        }
      }
    }
  }

  /** Suspending at choices and answering them is the same as pushing the chosen operations in place. */
  lemma {:induction false} SuspensionIsInvisible(
      c: Core, natives: set<NativeId>, stack: seq<Stacked>, oracle: Oracle, answers: Answers)
    requires c.choice.None?
    ensures DriveThrough(c, natives, stack, oracle, answers) == RunInline(c, natives, stack, oracle, answers)
    decreases c.budget
  {
    InlineFromFirstPause(c, natives, stack, oracle, answers);
    var o := Drive(c, natives, stack, oracle);
    if o.Paused? {
      PausesOfferOptions(c, natives, stack, oracle);
      var (resumed, chosen) := Answered(o.core, answers);
      SuspensionIsInvisible(resumed, natives, o.rest + chosen, oracle, answers);
    }
  }

  // ---------- Exactly once ----------

  /** Ids increase from the bottom of the stack to its top. */
  predicate Increasing(stack: seq<Stacked>) {
    forall i, j :: 0 <= i < j < |stack| ==> stack[i].id < stack[j].id
  }

  predicate IdsBelow(stack: seq<Stacked>, next: ResolutionId) {
    forall i :: 0 <= i < |stack| ==> stack[i].id < next
  }

  predicate Distinct(ids: seq<ResolutionId>) {
    forall j, k :: 0 <= j < k < |ids| ==> ids[j] != ids[k]
  }

  predicate NonePending(stack: seq<Stacked>, executed: seq<ResolutionId>) {
    forall i :: 0 <= i < |stack| ==> stack[i].id !in executed
  }

  /** Ids are given out once, and executed ones are neither pending nor repeated. */
  ghost predicate OnceOnly(c: Core, stack: seq<Stacked>) {
    && Increasing(stack) && IdsBelow(stack, c.next)
    && (forall x :: x in c.executed ==> x < c.next)
    && Distinct(c.executed) && NonePending(stack, c.executed)
  }

  lemma {:induction false} NumberedIdsAreFresh(next: ResolutionId, ops: seq<Operation>)
    ensures forall i :: 0 <= i < |ops| ==> Numbered(next, ops)[i].id == next + i
    ensures forall i :: 0 <= i < |ops| ==> Numbered(next, ops)[i].op == ops[|ops| - 1 - i]
    decreases |ops|
  {
    if ops != [] { NumberedIdsAreFresh(next, ops[1..]); }
  }

  /** Executing the top operation keeps ids unique: its own moves from the stack to the executed ones. */
  lemma PushingKeepsOnceOnly(c: Core, stack: seq<Stacked>, later: Core, ops: seq<Operation>)
    requires stack != [] && OnceOnly(c, stack)
    requires later.executed == c.executed + [Top(stack).id] && later.next == c.next + |ops|
    ensures OnceOnly(later, Below(stack) + Numbered(c.next, ops))
  {
    var pushed, after := Numbered(c.next, ops), Below(stack) + Numbered(c.next, ops);
    NumberedIdsAreFresh(c.next, ops);
    assert Increasing(after) by {
      forall i, j | 0 <= i < j < |after| ensures after[i].id < after[j].id {
        assert i < |stack| - 1 ==> stack[i].id < c.next;
        assert j < |stack| - 1 ==> stack[i].id < stack[j].id;
      }
    }
    assert NonePending(after, later.executed) by {
      forall i | 0 <= i < |after| ensures after[i].id !in later.executed {
        if i < |stack| - 1 {
          assert stack[i].id < Top(stack).id && stack[i].id !in c.executed;
        }
      }
    }
    assert Distinct(later.executed) by {
      assert stack[|stack| - 1].id !in c.executed;
    }
  }

  /** Every operation executed was paid for from the budget, and nothing else was. */
  lemma {:induction false} BudgetPaysForEachOperation(c: Core, natives: set<NativeId>, stack: seq<Stacked>,
                                                      oracle: Oracle)
    ensures var o := Drive(c, natives, stack, oracle);
            c.executed <= o.core.executed && |o.core.executed| + o.core.budget == |c.executed| + c.budget
    decreases c.budget
  {
    if stack != [] && c.budget > 0 {
      var r := Executed(c, natives, Top(stack), oracle);
      if r.Ok? && r.value.0.choice.None? {
        BudgetPaysForEachOperation(r.value.0, natives, Below(stack) + r.value.1, oracle);
      }
    }
  }

  /** Across all its suspensions, a sequence executes at most as many operations as its budget. */
  lemma {:induction false} OneBudgetForTheWholeSequence(
      c: Core, natives: set<NativeId>, stack: seq<Stacked>, oracle: Oracle, answers: Answers)
    requires c.choice.None?
    ensures var o := DriveThrough(c, natives, stack, oracle, answers);
            |o.core.executed| + o.core.budget == |c.executed| + c.budget
    decreases c.budget
  {
    BudgetPaysForEachOperation(c, natives, stack, oracle);
    var o := Drive(c, natives, stack, oracle);
    if o.Paused? {
      PausesOfferOptions(c, natives, stack, oracle);
      var (resumed, chosen) := Answered(o.core, answers);
      OneBudgetForTheWholeSequence(resumed, natives, o.rest + chosen, oracle, answers);
    }
  }

  /** However a run ends, no operation has been executed twice and none of the executed ones is still pending. */
  lemma {:induction false} EachOperationRunsOnce(c: Core, natives: set<NativeId>, stack: seq<Stacked>, oracle: Oracle)
    requires OnceOnly(c, stack)
    ensures var o := Drive(c, natives, stack, oracle);
            OnceOnly(o.core, if o.Paused? then o.rest else []) && c.next <= o.core.next
    decreases c.budget
  {
    if stack != [] && c.budget > 0 {
      ExecutedOnce(c, natives, stack, oracle);
      var r := Executed(c, natives, Top(stack), oracle);
      if r.Ok? && r.value.0.choice.None? {
        EachOperationRunsOnce(r.value.0, natives, Below(stack) + r.value.1, oracle);
      }
    }
  }

  lemma ExecutedOnce(c: Core, natives: set<NativeId>, stack: seq<Stacked>, oracle: Oracle)
    requires stack != [] && c.budget > 0 && OnceOnly(c, stack)
    ensures match Executed(c, natives, Top(stack), oracle)
            case Err(_) => true
            case Ok((after, pushed)) => OnceOnly(after, Below(stack) + pushed) && c.next <= after.next
  {
    var top := Top(stack);
    if top.op.RequestChoice? {
      AskedOnce(c, natives, stack, oracle);
    } else {
      ExecutedCarries(natives, c, top, oracle);
      CarriedOnce(c, stack,
                  Dispatch(c.game, Env(natives, c.budget - 1, c.next), top.id, top.op, oracle(top.id)),
                  Executed(c, natives, top, oracle));
    }
  }

  lemma AskedOnce(c: Core, natives: set<NativeId>, stack: seq<Stacked>, oracle: Oracle)
    requires stack != [] && c.budget > 0 && OnceOnly(c, stack) && Top(stack).op.RequestChoice?
    ensures match Executed(c, natives, Top(stack), oracle)
            case Err(_) => true
            case Ok((after, pushed)) => OnceOnly(after, Below(stack) + pushed) && c.next <= after.next
  {
    var r := Executed(c, natives, Top(stack), oracle);
    if r.Ok? { PushingKeepsOnceOnly(c, stack, r.value.0, []); }
  }

  lemma CarriedOnce(c: Core, stack: seq<Stacked>, r: StepResult, e: Result<(Core, seq<Stacked>), Failure>)
    requires stack != [] && c.budget > 0 && OnceOnly(c, stack) && Carries(c, Top(stack), r, e)
    ensures match e
            case Err(_) => true
            case Ok((after, pushed)) => OnceOnly(after, Below(stack) + pushed) && c.next <= after.next
  {
    if r.Ok? { PushingKeepsOnceOnly(c, stack, e.value.0, r.value.pushes); }
  }
}
