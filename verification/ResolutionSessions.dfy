/**
 Whole sessions: actions, pauses, answers and failures, one after another.

 In every reachable state the tables hold exactly what the pending operations
 will complete, so an idle game holds nothing and a paused one can be saved.
 */
module ResolutionSessions {
  import opened Outcomes
  import opened Players
  import opened EffectLanguage
  import opened ResolutionMachine
  import opened ResolutionOwnership
  import OwnershipDispatch
  import opened ResolutionRuns

  // ---------- The ledger of a stack ----------

  function Owed(stack: seq<Stacked>): Option<Ledger> {
    if stack == [] then Some(NOTHING_OWED) else
      match Owed(Below(stack))
      case None => None
      case Some(n) => Charge(n, Top(stack).id, Top(stack).op)
  }

  lemma {:induction false} OwedWithPushes(stack: seq<Stacked>, next: ResolutionId, ops: seq<Operation>)
    ensures Owed(stack + Numbered(next, ops)) ==
            match Owed(stack) {
              case None => None
              case Some(n) => ChargeAll(n, next, ops)
            }
    decreases |ops|
  {
    if ops == [] {
      assert stack + Numbered(next, ops) == stack;
    } else {
      OwedWithPushes(stack, next, ops[1..]);
      var all := stack + Numbered(next, ops);
      assert Below(all) == stack + Numbered(next, ops[1..]);
      assert Top(all) == Stacked(next + |ops| - 1, ops[0]);
    }
  }

  /** The tables hold exactly what the pending operations own, and every id is used once. */
  ghost predicate Sound(c: Core, stack: seq<Stacked>) {
    Owed(stack).Some? && Settles(c.game, c.next, Owed(stack).value) && OnceOnly(c, stack)
  }

  lemma AskedStaysSound(c: Core, natives: set<NativeId>, stack: seq<Stacked>, oracle: Oracle)
    requires Sound(c, stack) && stack != [] && c.budget > 0 && c.choice.None? && Top(stack).op.RequestChoice?
    ensures match Executed(c, natives, Top(stack), oracle)
            case Ok((after, pushed)) => Sound(after, Below(stack) + pushed)
            case Err(f) => !OwnershipDispatch.Internal(f)
  {
    var r := Executed(c, natives, Top(stack), oracle);
    if r.Ok? {
      PushingKeepsOnceOnly(c, stack, r.value.0, []);
      assert Below(stack) + r.value.1 == Below(stack) + Numbered(c.next, []) == Below(stack);
    }
  }

  lemma DispatchedStaysSound(c: Core, stack: seq<Stacked>, step: Step, after: Core)
    requires Owed(stack).Some? && OnceOnly(c, stack) && stack != []
    requires Resettled(Owed(Below(stack)).value, c.next, step)
    requires after.game == step.game && after.next == c.next + |step.pushes|
    requires after.executed == c.executed + [Top(stack).id]
    ensures Sound(after, Below(stack) + Numbered(c.next, step.pushes))
  {
    PushingKeepsOnceOnly(c, stack, after, step.pushes);
    OwedWithPushes(Below(stack), c.next, step.pushes);
  }

  lemma CarriedStaysSound(c: Core, stack: seq<Stacked>, r: StepResult, e: Result<(Core, seq<Stacked>), Failure>)
    requires Owed(stack).Some? && OnceOnly(c, stack) && stack != [] && c.budget > 0
    requires OwnershipDispatch.Owns(Owed(Below(stack)).value, c.next, r) && Carries(c, Top(stack), r, e)
    ensures match e
            case Ok((after, pushed)) => Sound(after, Below(stack) + pushed)
            case Err(f) => !OwnershipDispatch.Internal(f)
  {
    if r.Ok? { DispatchedStaysSound(c, stack, r.value, e.value.0); }
  }

  lemma ExecutedStaysSound(c: Core, natives: set<NativeId>, stack: seq<Stacked>, oracle: Oracle)
    requires Sound(c, stack) && stack != [] && c.budget > 0 && c.choice.None?
    ensures match Executed(c, natives, Top(stack), oracle)
            case Ok((after, pushed)) => Sound(after, Below(stack) + pushed)
            case Err(f) => !OwnershipDispatch.Internal(f)
  {
    var top := Top(stack);
    if top.op.RequestChoice? {
      AskedStaysSound(c, natives, stack, oracle);
    } else {
      var env, inp := Env(natives, c.budget - 1, c.next), oracle(top.id);
      OwnershipDispatch.DispatchOwns(c.game, env, top.id, top.op, inp, Owed(Below(stack)).value, Owed(stack).value);
      ExecutedCarries(natives, c, top, oracle);
      CarriedStaysSound(c, stack, Dispatch(c.game, env, top.id, top.op, inp), Executed(c, natives, top, oracle));
    }
  }

  /** However a drive ends: done with nothing owed, paused with everything owned, or failed for an outside reason. */
  lemma {:induction false} DriveStaysSound(c: Core, natives: set<NativeId>, stack: seq<Stacked>, oracle: Oracle)
    requires Sound(c, stack) && c.choice.None?
    ensures match Drive(c, natives, stack, oracle)
            case Done(after) => Sound(after, []) && after.choice.None?
            case Paused(after, rest) => Sound(after, rest)
            case Failed(after, f) =>
              && !OwnershipDispatch.Internal(f) && OnceOnly(after, [])
              && EntitiesBelow(after.game.world, after.game.nextEntity)
    decreases c.budget
  {
    if stack != [] && c.budget > 0 {
      ExecutedStaysSound(c, natives, stack, oracle);
      var r := Executed(c, natives, Top(stack), oracle);
      if r.Ok? && r.value.0.choice.None? {
        DriveStaysSound(r.value.0, natives, Below(stack) + r.value.1, oracle);
      }
    }
  }

  // ---------- The session ----------

  datatype Status = AwaitingAction | AwaitingChoice | Resolving | Complete

  datatype Action =
    | PlayCardAction(player: PlayerId, card: EntityId, target: Option<EntityId>)
    | AttackAction(player: PlayerId, attacker: EntityId, defender: EntityId)
    | HeroPowerAction(player: PlayerId, power: EntityId, target: Option<EntityId>)
    | EndTurnAction(player: PlayerId)
    | ConcedeAction(player: PlayerId)

  datatype Machine = Machine(core: Core, stack: seq<Stacked>, active: bool, status: Status)

  datatype SessionError =
    | GameOver | NotAwaitingAction | ActionRejected | NoPendingChoice | InvalidChoice(option: ChoiceId)
    | AlreadyResolving | InvariantBroken | ResolutionFailed(failure: Failure)

  predicate NothingRetained(g: Game) {
    && g.events == map[] && g.slots == map[] && g.draws == map[] && g.scopes == map[]
    && g.payers == map[] && g.transforms == {}
  }

  /** A sequence starts only when nothing at all is left from an earlier one. */
  function Begin(m: Machine, budget: nat): Result<Machine, SessionError> {
    if m.active || m.stack != [] || !NothingRetained(m.core.game) || m.core.choice.Some? then Err(AlreadyResolving)
    else Ok(m.(active := true, core := m.core.(budget := budget)))
  }

  function IdleStatus(g: Game): Status {
    if g.over then Complete else AwaitingAction
  }

  /** After a failure the retained work goes, the ids stay used and the world stays changed. */
  function Abandoned(c: Core): Machine {
    var g := c.game.(events := map[], slots := map[], draws := map[], scopes := map[], payers := map[],
                     transforms := {}, equips := map[]);
    Machine(c.(game := g, choice := None, budget := 0), [], false, IdleStatus(g))
  }

  /** Where a drive leaves the machine, and what it reports. */
  function Settled(active: bool, o: Outcome): (Machine, Option<SessionError>) {
    match o
    case Paused(c, rest) => (Machine(c, rest, active, AwaitingChoice), None)
    case Failed(c, f) => (Abandoned(c), Some(ResolutionFailed(f)))
    case Done(c) =>
      if NothingRetained(c.game) && c.game.equips == map[] && c.choice.None?
      then (Machine(c, [], false, IdleStatus(c.game)), None)
      else (Abandoned(c), Some(InvariantBroken))
  }

  function ResolveToPause(m: Machine, natives: set<NativeId>, oracle: Oracle): (Machine, Option<SessionError>) {
    Settled(m.active, Drive(m.core, natives, m.stack, oracle))
  }

  /** Operations pushed on top of the stack, which then resolves. */
  function Pushed(m: Machine, ops: seq<Operation>): Machine {
    Machine(m.core.(choice := None, next := m.core.next + |ops|), m.stack + Numbered(m.core.next, ops), m.active,
            Resolving)
  }

  function Compiled(action: Action): Operation {
    match action
    case PlayCardAction(player, card, target) => RunGuardedStep([Guard(card, Hand)], PlayCard(player, card, target))
    case AttackAction(player, attacker, defender) =>
      RunGuardedStep([Guard(attacker, Play), Guard(defender, Play)], Attack(player, attacker, defender))
    case HeroPowerAction(player, power, target) =>
      RunGuardedStep([Guard(power, Play)], UseHeroPower(player, power, target))
    case EndTurnAction(player) => RunStep(EndTurn(player))
    case ConcedeAction(player) => RunStep(Concede(player))
  }

  function ActionOps(action: Action): seq<Operation> {
    [Compiled(action), RunPhaseBoundary, CheckOutcome]
  }

  /** What the action validation asks of the programs it is about to run. */
  predicate ProgramsAccepted(g: Game, natives: set<NativeId>, action: Action) {
    match action
    case PlayCardAction(_, id, _) =>
      && id in g.world
      && CheckProgram(natives, g.world[id].card.effects, None, g.world[id].card.kind == Minion).None?
      && CheckTriggers(natives, g.world[id].card.triggers).None?
    case HeroPowerAction(_, id, _) =>
      && id in g.world && g.world[id].card.kind == HeroPower
      && CheckProgram(natives, g.world[id].card.effects, None, false).None?
    case _ => true
  }

  /** The rest of the action validation (turn, mana, targets) is the legal flag. */
  function Submit(m: Machine, natives: set<NativeId>, action: Action, legal: bool, budget: nat, oracle: Oracle)
    : (Machine, Option<SessionError>)
  {
    if m.core.game.over then (m, Some(GameOver)) else
      if m.status != AwaitingAction then (m, Some(NotAwaitingAction)) else
        if !legal || !ProgramsAccepted(m.core.game, natives, action) then (m, Some(ActionRejected)) else
          match Begin(m.(status := Resolving), budget)
          case Err(e) => (m.(status := Resolving), Some(e))
          case Ok(begun) => ResolveToPause(Pushed(begun, ActionOps(action)), natives, oracle)
  }

  function FindOption(options: seq<ChoiceOption>, id: ChoiceId): Option<ChoiceOption> {
    if options == [] then None else if options[0].id == id then Some(options[0]) else FindOption(options[1..], id)
  }

  function Answer(m: Machine, natives: set<NativeId>, option: ChoiceId, oracle: Oracle): (Machine,
                                                                                          Option<SessionError>) {
    if m.core.choice.None? then (m, Some(NoPendingChoice)) else
      match FindOption(m.core.choice.value.options, option)
      case None => (m, Some(InvalidChoice(option)))
      case Some(chosen) => ResolveToPause(Pushed(m, chosen.operations), natives, oracle)
  }

  datatype Command =
    | SubmitAction(action: Action, legal: bool, budget: nat, oracle: Oracle)
    | SubmitChoice(option: ChoiceId, answerOracle: Oracle)

  function Run(m: Machine, natives: set<NativeId>, command: Command): (Machine, Option<SessionError>) {
    match command
    case SubmitAction(action, legal, budget, oracle) => Submit(m, natives, action, legal, budget, oracle)
    case SubmitChoice(option, oracle) => Answer(m, natives, option, oracle)
  }

  /** The machine after all commands, with what each of them reported. */
  function RunSession(m: Machine, natives: set<NativeId>, commands: seq<Command>): (Machine, seq<Option<SessionError>>)
    decreases |commands|
  {
    if commands == [] then (m, []) else
      var (after, report) := Run(m, natives, commands[0]);
      var (last, reports) := RunSession(after, natives, commands[1..]);
      (last, [report] + reports)
  }

  // ---------- Every reachable state ----------

  /** At rest: idle with nothing retained, or paused at a valid choice with everything owned. */
  ghost predicate AtRest(m: Machine, natives: set<NativeId>) {
    && Sound(m.core, m.stack)
    && match m.status
       case AwaitingChoice =>
         m.active && m.core.choice.Some? && ValidChoice(natives, m.core.choice.value)
       case Resolving => false
       case _ => !m.active && m.stack == [] && m.core.choice.None? && m.status == IdleStatus(m.core.game)
  }

  /** Reports that a mismatch between stack and tables, or a leftover, would cause. */
  predicate InternalReport(report: Option<SessionError>) {
    match report
    case Some(AlreadyResolving) => true
    case Some(InvariantBroken) => true
    case Some(ResolutionFailed(f)) => OwnershipDispatch.Internal(f)
    case _ => false
  }

  lemma NothingOwedMeansNothingRetained(g: Game, next: ResolutionId)
    requires Settles(g, next, NOTHING_OWED)
    ensures NothingRetained(g) && g.equips == map[]
  {
    assert g.slots == map[] by { assert g.slots.Keys == {}; }
    assert g.draws == map[] by { assert g.draws.Keys == {}; }
    assert g.equips == map[] by { assert g.equips.Keys == {}; }
    assert forall e :: e in g.events ==> HeldBySlot(g.slots, e);
    assert g.events == map[];
  }

  /** Operations that only borrow may be pushed on any sound stack. */
  lemma PushedStaysSound(m: Machine, ops: seq<Operation>)
    requires Sound(m.core, m.stack)
    requires forall op :: op in ops ==> Neutral(Owed(m.stack).value, op)
    ensures Sound(Pushed(m, ops).core, Pushed(m, ops).stack)
  {
    NeutralOpsChargeNothing(Owed(m.stack).value, m.core.next, ops);
    OwedWithPushes(m.stack, m.core.next, ops);
    PushedIdsAreFresh(m.core, m.stack, ops, Pushed(m, ops).core);
  }

  lemma PushedIdsAreFresh(c: Core, stack: seq<Stacked>, ops: seq<Operation>, later: Core)
    requires OnceOnly(c, stack) && later.next == c.next + |ops| && later.executed == c.executed
    ensures OnceOnly(later, stack + Numbered(c.next, ops))
  {
    NumberedIdsAreFresh(c.next, ops);
  }

  lemma AbandonedIsAtRest(c: Core, natives: set<NativeId>)
    requires EntitiesBelow(c.game.world, c.game.nextEntity) && OnceOnly(c, [])
    ensures AtRest(Abandoned(c), natives)
  {
    assert Owed([]) == Some(NOTHING_OWED);
  }

  /** Resolving comes to rest again, and reports no mismatch. */
  lemma ResolveComesToRest(m: Machine, natives: set<NativeId>, oracle: Oracle)
    requires Sound(m.core, m.stack) && m.core.choice.None? && m.active
    ensures AtRest(ResolveToPause(m, natives, oracle).0, natives)
    ensures !InternalReport(ResolveToPause(m, natives, oracle).1)
  {
    DriveStaysSound(m.core, natives, m.stack, oracle);
    var o := Drive(m.core, natives, m.stack, oracle);
    match o
    case Paused(_, _) => PausesOfferOptions(m.core, natives, m.stack, oracle);
    case Failed(c, _) => AbandonedIsAtRest(c, natives);
    case Done(c) => NothingOwedMeansNothingRetained(c.game, c.next);
  }

  lemma BegunComesToRest(m: Machine, natives: set<NativeId>, action: Action, budget: nat, oracle: Oracle)
    requires AtRest(m, natives) && m.status == AwaitingAction
    ensures Begin(m.(status := Resolving), budget).Ok?
    ensures var begun := Begin(m.(status := Resolving), budget).value;
            && AtRest(ResolveToPause(Pushed(begun, ActionOps(action)), natives, oracle).0, natives)
            && !InternalReport(ResolveToPause(Pushed(begun, ActionOps(action)), natives, oracle).1)
  {
    NothingOwedMeansNothingRetained(m.core.game, m.core.next);
    var begun := Begin(m.(status := Resolving), budget).value;
    assert Sound(begun.core, begun.stack);
    PushedStaysSound(begun, ActionOps(action));
    ResolveComesToRest(Pushed(begun, ActionOps(action)), natives, oracle);
  }

  lemma SubmitComesToRest(m: Machine, natives: set<NativeId>, action: Action, legal: bool, budget: nat, oracle: Oracle)
    requires AtRest(m, natives)
    ensures AtRest(Submit(m, natives, action, legal, budget, oracle).0, natives)
    ensures !InternalReport(Submit(m, natives, action, legal, budget, oracle).1)
  {
    if !m.core.game.over && m.status == AwaitingAction && legal && ProgramsAccepted(m.core.game, natives, action) {
      BegunComesToRest(m, natives, action, budget, oracle);
    }
  }

  lemma {:induction false} FoundOptionIsOffered(options: seq<ChoiceOption>, id: ChoiceId)
    ensures FindOption(options, id).Some? ==> FindOption(options, id).value in options
    decreases |options|
  {
    if options != [] && options[0].id != id { FoundOptionIsOffered(options[1..], id); }
  }

  lemma AnswerComesToRest(m: Machine, natives: set<NativeId>, option: ChoiceId, oracle: Oracle)
    requires AtRest(m, natives)
    ensures AtRest(Answer(m, natives, option, oracle).0, natives)
    ensures !InternalReport(Answer(m, natives, option, oracle).1)
  {
    if m.core.choice.Some? {
      var found := FindOption(m.core.choice.value.options, option);
      FoundOptionIsOffered(m.core.choice.value.options, option);
      if found.Some? {
        PickedComesToRest(m, natives, found.value, oracle);
      }
    }
  }

  lemma PickedComesToRest(m: Machine, natives: set<NativeId>, chosen: ChoiceOption, oracle: Oracle)
    requires AtRest(m, natives) && m.core.choice.Some? && chosen in m.core.choice.value.options
    ensures AtRest(ResolveToPause(Pushed(m, chosen.operations), natives, oracle).0, natives)
    ensures !InternalReport(ResolveToPause(Pushed(m, chosen.operations), natives, oracle).1)
  {
    assert ValidBranch(natives, chosen.operations);
    PushedStaysSound(m, chosen.operations);
    ResolveComesToRest(Pushed(m, chosen.operations), natives, oracle);
  }

  /**
   After any commands the session is at rest: idle games retain nothing, the
   next sequence can always begin, the idle check never fires, and no command
   ever reports a missing, empty or already filled table entry.
   */
  lemma {:induction false} EverySessionStaysSound(m: Machine, natives: set<NativeId>, commands: seq<Command>)
    requires AtRest(m, natives)
    ensures AtRest(RunSession(m, natives, commands).0, natives)
    ensures forall report :: report in RunSession(m, natives, commands).1 ==> !InternalReport(report)
    decreases |commands|
  {
    if commands != [] {
      match commands[0]
      case SubmitAction(action, legal, budget, oracle) =>
        SubmitComesToRest(m, natives, action, legal, budget, oracle);
        EverySessionStaysSound(Run(m, natives, commands[0]).0, natives, commands[1..]);
      case SubmitChoice(option, oracle) =>
        AnswerComesToRest(m, natives, option, oracle);
        EverySessionStaysSound(Run(m, natives, commands[0]).0, natives, commands[1..]);
    }
  }

  /** Over a whole session, abandoned sequences included, no operation id is executed twice. */
  lemma {:induction false} SessionsExecuteEachIdOnce(m: Machine, natives: set<NativeId>, commands: seq<Command>)
    requires AtRest(m, natives)
    ensures var last := RunSession(m, natives, commands).0;
            m.core.executed <= last.core.executed && Distinct(last.core.executed)
    decreases |commands|
  {
    EverySessionStaysSound(m, natives, commands);
    if commands != [] {
      EverySessionStaysSound(m, natives, commands[..1]);
      HistoryGrows(m, natives, commands[0]);
      var after := Run(m, natives, commands[0]).0;
      assert RunSession(m, natives, commands[..1]).0 == after by {
        assert commands[..1][1..] == [];
      }
      SessionsExecuteEachIdOnce(after, natives, commands[1..]);
    }
  }

  lemma HistoryGrows(m: Machine, natives: set<NativeId>, command: Command)
    ensures m.core.executed <= Run(m, natives, command).0.core.executed
  {
    if command.SubmitAction? {
      var begun := Begin(m.(status := Resolving), command.budget);
      if begun.Ok? {
        var p := Pushed(begun.value, ActionOps(command.action));
        BudgetPaysForEachOperation(p.core, natives, p.stack, command.oracle);
      }
    } else if m.core.choice.Some? {
      var found := FindOption(m.core.choice.value.options, command.option);
      if found.Some? {
        var p := Pushed(m, found.value.operations);
        BudgetPaysForEachOperation(p.core, natives, p.stack, command.answerOracle);
      }
    }
  }

  // ---------- One completion for each entry, and borrowers above it ----------

  datatype Entry =
    | EventEntry(event: EventId) | SlotEntry(slot: SlotId) | DrawEntry(draw: DrawId)
    | ScopeEntry(scope: ResolutionId) | PayerEntry(payer: ResolutionId) | EquipEntry(weapon: EntityId)

  predicate Charged(n: Ledger, x: Entry) {
    match x
    case EventEntry(e) => e in n.events
    case SlotEntry(s) => s in n.slots
    case DrawEntry(d) => d in n.draws
    case ScopeEntry(s) => s in n.scopes
    case PayerEntry(p) => p in n.payers
    case EquipEntry(w) => w in n.equips
  }

  /** The operation takes the entry out of its table; a ResolveEvent does so unless its event is still proposed. */
  predicate Completes(proposed: map<EventId, bool>, id: ResolutionId, op: Operation, x: Entry) {
    match x
    case EventEntry(e) =>
      || op == FinishEvent(e) || (op == ResolveEvent(e) && e in proposed && !proposed[e])
      || (op.ApplyDamage? && op.event == e) || (op.ApplyHealing? && op.event == e)
    case SlotEntry(slot) => op == ResolveEventSlot(slot)
    case DrawEntry(d) => op == FinishDraw(d) || (op.ContinueDraw? && op.result == d)
    case ScopeEntry(scope) => op.FinishPlayedSelf? && id == scope
    case PayerEntry(p) => op.RunStep? && op.step.ConsumeDurability? && id == p
    case EquipEntry(w) => op.RunStep? && op.step == FinishEquip(w)
  }

  /** The operation reads or changes the entry and leaves it in its table. */
  predicate BorrowsEntry(proposed: map<EventId, bool>, op: Operation, x: Entry) {
    match x
    case EventEntry(e) =>
      || (op.AttemptTrigger? && op.candidate.event == e) || (op.RunEffect? && op.borrowed == Some(e))
      || (op == ResolveEvent(e) && e in proposed && proposed[e])
    case SlotEntry(slot) =>
      (op.ProcessDamage? || op.ApplyDamage? || op.ProcessHealing? || op.ApplyHealing?) && op.slot == slot
    case DrawEntry(d) => op.ProcessDraw? && op.result == d
    case ScopeEntry(scope) =>
      || (op.RunPlayEffect? && op.scope == scope) || (op.TransformEntity? && op.playScope == Some(scope))
    case _ => false
  }

  function Completions(proposed: map<EventId, bool>, stack: seq<Stacked>, x: Entry): nat {
    if stack == [] then 0 else
      Completions(proposed, Below(stack), x) + if Completes(proposed, Top(stack).id, Top(stack).op, x) then 1 else 0
  }

  ghost predicate MarkedBy(n: Ledger, proposed: map<EventId, bool>) {
    forall e :: e in n.events ==> e in proposed && proposed[e] == n.events[e]
  }

  lemma ChargingKeepsEvents(n: Ledger, id: ResolutionId, op: Operation, m: Ledger, e: EventId)
    requires Charge(n, id, op) == Some(m) && e in n.events
    ensures e in m.events && m.events[e] == n.events[e]
  {
    if op.RunStep? || op.RunGuardedStep? {} else if EventOperation(op) {} else {}
  }

  lemma MarksPersist(n: Ledger, id: ResolutionId, op: Operation, m: Ledger, proposed: map<EventId, bool>)
    requires Charge(n, id, op) == Some(m) && MarkedBy(m, proposed)
    ensures MarkedBy(n, proposed)
  {
    forall e | e in n.events ensures e in proposed && proposed[e] == n.events[e] {
      ChargingKeepsEvents(n, id, op, m, e);
    }
  }

  /** A completion charges the entry it will take away, which nothing below it charges. */
  lemma CompletionCharges(n: Ledger, id: ResolutionId, op: Operation, m: Ledger, proposed: map<EventId, bool>, x: Entry)
    requires Charge(n, id, op) == Some(m) && MarkedBy(m, proposed) && id !in n.payers
    requires Completes(proposed, id, op, x)
    ensures !Charged(n, x) && Charged(m, x)
  {
    match x
    case EventEntry(e) => if e in n.events { ChargingKeepsEvents(n, id, op, m, e); }
    case _ =>
  }

  lemma OnlyCompletionChargesEvents(n: Ledger, id: ResolutionId, op: Operation, m: Ledger, proposed: map<EventId,
                                    bool>, e: EventId)
    requires Charge(n, id, op) == Some(m) && MarkedBy(m, proposed) && e !in n.events && e in m.events
    ensures Completes(proposed, id, op, EventEntry(e))
  {
    if op.RunStep? || op.RunGuardedStep? {} else if EventOperation(op) {} else if HealthOperation(op) {} else {}
  }

  lemma OnlyCompletionChargesSlots(n: Ledger, id: ResolutionId, op: Operation, m: Ledger, s: SlotId)
    requires Charge(n, id, op) == Some(m)
    ensures s in n.slots ==> s in m.slots
    ensures s in m.slots && s !in n.slots ==> op == ResolveEventSlot(s)
  {
    if op.RunStep? || op.RunGuardedStep? {} else if EventOperation(op) {} else if HealthOperation(op) {} else {}
  }

  lemma OnlyCompletionChargesDraws(n: Ledger, id: ResolutionId, op: Operation, m: Ledger, d: DrawId)
    requires Charge(n, id, op) == Some(m)
    ensures d in n.draws ==> d in m.draws
    ensures d in m.draws && d !in n.draws ==> op == FinishDraw(d) || (op.ContinueDraw? && op.result == d)
  {
    if op.RunStep? || op.RunGuardedStep? {} else if DrawOperation(op) {} else if HealthOperation(op) {} else {}
  }

  lemma OnlyCompletionChargesScopes(n: Ledger, id: ResolutionId, op: Operation, m: Ledger, s: ResolutionId)
    requires Charge(n, id, op) == Some(m)
    ensures s in n.scopes ==> s in m.scopes
    ensures s in m.scopes && s !in n.scopes ==> op.FinishPlayedSelf? && id == s
  {
    if op.RunStep? || op.RunGuardedStep? {} else if EventOperation(op) {} else {}
  }

  lemma OnlyCompletionChargesSteps(n: Ledger, id: ResolutionId, op: Operation, m: Ledger, p: ResolutionId, w: EntityId)
    requires Charge(n, id, op) == Some(m)
    ensures p in n.payers ==> p in m.payers
    ensures p in m.payers && p !in n.payers ==> op.RunStep? && op.step.ConsumeDurability? && id == p
    ensures w in n.equips ==> w in m.equips
    ensures w in m.equips && w !in n.equips ==> op.RunStep? && op.step == FinishEquip(w)
  {
    if op.RunStep? {} else if op.RunGuardedStep? {} else {}
  }

  /** One pending operation charges exactly the entries it completes, and none twice. */
  lemma ChargedExactlyByCompletion(n: Ledger, id: ResolutionId, op: Operation, m: Ledger, proposed: map<EventId,
                                   bool>, x: Entry)
    requires Charge(n, id, op) == Some(m) && MarkedBy(m, proposed) && id !in n.payers
    ensures Completes(proposed, id, op, x) ==> !Charged(n, x)
    ensures Charged(m, x) <==> Charged(n, x) || Completes(proposed, id, op, x)
  {
    if Completes(proposed, id, op, x) {
      CompletionCharges(n, id, op, m, proposed, x);
    } else {
      match x
      case EventEntry(e) =>
        if e in n.events {
          ChargingKeepsEvents(n, id, op, m, e);
        } else if e in m.events {
          OnlyCompletionChargesEvents(n, id, op, m, proposed, e);
        }
      case SlotEntry(s) => OnlyCompletionChargesSlots(n, id, op, m, s);
      case DrawEntry(d) => OnlyCompletionChargesDraws(n, id, op, m, d);
      case ScopeEntry(s) => OnlyCompletionChargesScopes(n, id, op, m, s);
      case PayerEntry(p) => OnlyCompletionChargesSteps(n, id, op, m, p, 0);
      case EquipEntry(w) => OnlyCompletionChargesSteps(n, id, op, m, 0, w);
    }
  }

  lemma BorrowedIsCharged(n: Ledger, id: ResolutionId, op: Operation, proposed: map<EventId, bool>, x: Entry)
    requires Charge(n, id, op).Some? && MarkedBy(Charge(n, id, op).value, proposed)
    requires BorrowsEntry(proposed, op, x)
    ensures Charged(n, x)
  {
    if DrawOperation(op) {} else if HealthOperation(op) {} else if EventOperation(op) {} else {}
  }

  /** Payments are charged under ids of the stack, so none is charged at or above a higher id. */
  lemma {:induction false} PayersComeFromTheStack(stack: seq<Stacked>, id: ResolutionId)
    requires Owed(stack).Some? && IdsBelow(stack, id)
    ensures id !in Owed(stack).value.payers
    decreases |stack|
  {
    if stack != [] {
      PayersComeFromTheStack(Below(stack), id);
      OnlyCompletionChargesSteps(Owed(Below(stack)).value, Top(stack).id, Top(stack).op, Owed(stack).value, id, 0);
    }
  }

  /** Every charged entry has exactly one completion on the stack, and every other entry has none. */
  lemma {:induction false} OneCompletionEach(stack: seq<Stacked>, proposed: map<EventId, bool>, x: Entry)
    requires Owed(stack).Some? && Increasing(stack) && MarkedBy(Owed(stack).value, proposed)
    ensures Completions(proposed, stack, x) == if Charged(Owed(stack).value, x) then 1 else 0
    decreases |stack|
  {
    if stack != [] {
      PayersComeFromTheStack(Below(stack), Top(stack).id);
      MarksPersist(Owed(Below(stack)).value, Top(stack).id, Top(stack).op, Owed(stack).value, proposed);
      ChargedExactlyByCompletion(Owed(Below(stack)).value, Top(stack).id, Top(stack).op, Owed(stack).value, proposed,
                                 x);
      OneCompletionEach(Below(stack), proposed, x);
    }
  }

  /** Whatever an operation borrows is completed by exactly one operation below it. */
  lemma {:induction false} BorrowersSitAboveTheCompletion(stack: seq<Stacked>, proposed: map<EventId, bool>, x: Entry,
                                                          j: nat)
    requires Owed(stack).Some? && Increasing(stack) && MarkedBy(Owed(stack).value, proposed)
    requires j < |stack| && BorrowsEntry(proposed, stack[j].op, x)
    ensures Completions(proposed, stack[..j], x) == 1
    decreases |stack|
  {
    MarksPersist(Owed(Below(stack)).value, Top(stack).id, Top(stack).op, Owed(stack).value, proposed);
    if j == |stack| - 1 {
      BorrowedIsCharged(Owed(Below(stack)).value, Top(stack).id, Top(stack).op, proposed, x);
      OneCompletionEach(Below(stack), proposed, x);
    } else {
      BorrowersSitAboveTheCompletion(Below(stack), proposed, x, j);
      assert Below(stack)[..j] == stack[..j];
    }
  }

  predicate InTables(g: Game, x: Entry) {
    match x
    case EventEntry(e) => e in g.events
    case SlotEntry(s) => s in g.slots
    case DrawEntry(d) => d in g.draws
    case ScopeEntry(s) => s in g.scopes
    case PayerEntry(p) => p in g.payers
    case EquipEntry(w) => w in g.equips
  }

  /**
   In every sound state, a table entry has exactly one pending completion. An
   event that fills a slot is completed through that slot instead.
   */
  lemma TablesHaveOneOwnerEach(c: Core, stack: seq<Stacked>, x: Entry)
    requires Sound(c, stack) && InTables(c.game, x)
    ensures var proposed := Owed(stack).value.events;
            || Completions(proposed, stack, x) == 1
            || (x.EventEntry? && exists s :: s in c.game.slots && c.game.slots[s] == Some(x.event)
                                         && Completions(proposed, stack, SlotEntry(s)) == 1)
  {
    var n := Owed(stack).value;
    OneCompletionEach(stack, n.events, x);
    if !Charged(n, x) {
      assert x.EventEntry? && HeldBySlot(c.game.slots, x.event);
      var s :| s in c.game.slots && c.game.slots[s] == Some(x.event);
      OneCompletionEach(stack, n.events, SlotEntry(s));
    }
  }
}
