/**
 Who owns what on the resolution stack.

 The pending operations, read from the bottom of the stack up, charge a ledger:
 a completion operation adds the entry it will take away, and every borrower
 needs that entry to be there already. The tables of the game settle the ledger
 when they hold exactly the entries charged. Executing an operation keeps them
 settled and never meets a missing, empty or filled entry.
 */
module ResolutionOwnership {
  import opened Outcomes
  import opened EffectLanguage
  import opened ResolutionMachine

  /**
   Entries charged by pending completions. An event is marked when it is still
   proposed, a slot when it must still be vacant, a draw when it must be filled.
   */
  datatype Ledger = Ledger(
    events: map<EventId, bool>,
    slots: map<SlotId, bool>,
    draws: map<DrawId, bool>,
    scopes: map<ResolutionId, EntityId>,
    payers: map<ResolutionId, Payer>,
    equips: set<EntityId>)

  const NOTHING_OWED := Ledger(map[], map[], map[], map[], map[], {})

  function Owe(n: Ledger, allowed: bool, charged: Ledger): Option<Ledger> {
    if allowed then Some(charged) else None
  }

  predicate UnscopedBranches(request: ChoiceRequest) {
    forall i, j :: 0 <= i < |request.options| && 0 <= j < |request.options[i].operations| ==>
      request.options[i].operations[j].RunEffect? && request.options[i].operations[j].borrowed.None?
  }

  /** Only a played-self transform carries a scope, and then it comes from the subject of that scope. */
  predicate ScopedTransform(n: Ledger, scope: Option<ResolutionId>, source: Option<EntityId>, kind: TransformKind) {
    scope.Some? ==> kind == PlayedSelf && scope.value in n.scopes && source == Some(n.scopes[scope.value])
  }

  /** The ledger with one more pending operation on top; None when the operation could not complete there. */
  function Charge(n: Ledger, id: ResolutionId, op: Operation): Option<Ledger> {
    match op
    case PrepareEvent(context) => Owe(n, !Proposed(context.kind), n)
    case ResolveEvent(e) =>
      if e in n.events then Owe(n, n.events[e], n) else Some(n.(events := n.events[e := false]))
    case FinishEvent(e) => Owe(n, e !in n.events, n.(events := n.events[e := false]))
    case ResolveEventSlot(s) => Owe(n, s !in n.slots, n.(slots := n.slots[s := false]))
    case AttemptTrigger(c) => Owe(n, c.event in n.events, n)
    case RunEffect(_, _, event) => Owe(n, event.Some? ==> event.value in n.events, n)
    case RunPlayEffect(scope, context, _) =>
      Owe(n, scope in n.scopes && context.source == Some(n.scopes[scope]), n)
    case ProcessDamage(_, s) => ChargeVacant(n, s)
    case ProcessHealing(_, s) => ChargeVacant(n, s)
    case ApplyDamage(_, e, s) => ChargeApply(n, e, s)
    case ApplyHealing(_, e, s) => ChargeApply(n, e, s)
    case ProcessDraw(_, _, d) => Owe(n, d in n.draws && n.draws[d], n.(draws := n.draws[d := false]))
    case FinishDraw(d) => Owe(n, d !in n.draws, n.(draws := n.draws[d := true]))
    case ContinueDraw(d, _, _, _) => Owe(n, d !in n.draws, n.(draws := n.draws[d := true]))
    case TransformEntity(scope, _, source, _, kind) => Owe(n, ScopedTransform(n, scope, source, kind), n)
    case FinishPlayedSelf(subject, _) => Owe(n, n.scopes == map[], n.(scopes := map[id := subject]))
    case RequestChoice(request) => Owe(n, UnscopedBranches(request), n)
    case RunStep(step) => ChargeStep(n, id, step)
    case RunGuardedStep(_, step) =>
      Owe(n, !step.FinishEquip? && !step.ConsumeDurability? && ChargeStep(n, id, step).Some?, n)
    case _ => Some(n)
  }

  function ChargeVacant(n: Ledger, s: SlotId): Option<Ledger> {
    Owe(n, s in n.slots && !n.slots[s], n.(slots := n.slots[s := true]))
  }

  function ChargeApply(n: Ledger, e: EventId, s: SlotId): Option<Ledger> {
    Owe(n, e !in n.events && s in n.slots && !n.slots[s],
        n.(events := n.events[e := true], slots := n.slots[s := true]))
  }

  function ChargeStep(n: Ledger, id: ResolutionId, step: SequenceStep): Option<Ledger> {
    match step
    case FinishEquip(weapon) => Owe(n, weapon !in n.equips, n.(equips := n.equips + {weapon}))
    case ConsumeDurability(player, weapon) =>
      Owe(n, id !in n.payers, n.(payers := n.payers[id := (player, weapon)]))
    case PlayCard(_, _, _) => Owe(n, n.scopes == map[], n)
    case _ => Some(n)
  }

  /** Operations in execution order, numbered from the last one up, as pushing them in reverse does. */
  function ChargeAll(n: Ledger, next: ResolutionId, ops: seq<Operation>): Option<Ledger>
    decreases |ops|
  {
    if ops == [] then Some(n) else
      match ChargeAll(n, next, ops[1..])
      case None => None
      case Some(below) => Charge(below, next + |ops| - 1, ops[0])
  }

  // ---------- Settled tables ----------

  ghost predicate HeldBySlot(slots: map<SlotId, Option<EventId>>, e: EventId) {
    exists s :: s in slots && slots[s] == Some(e)
  }

  /** The events are the owed ones and, apart from them, one for each filled slot. */
  ghost predicate EventsSettle(events: map<EventId, PreparedEvent>, slots: map<SlotId, Option<EventId>>,
                               owed: map<EventId, bool>) {
    && (forall e :: e in owed ==> e in events && Proposed(events[e].context.kind) == owed[e])
    && (forall e :: e in events ==> e in owed || HeldBySlot(slots, e))
    && (forall s :: s in slots && slots[s].Some? ==> HoldsFinal(events, owed, slots[s].value))
    && OneSlotEach(slots)
  }

  predicate HoldsFinal(events: map<EventId, PreparedEvent>, owed: map<EventId, bool>, e: EventId) {
    e in events && e !in owed && !Proposed(events[e].context.kind)
  }

  ghost predicate OneSlotEach(slots: map<SlotId, Option<EventId>>) {
    forall s, t :: s in slots && t in slots && slots[s].Some? && slots[s] == slots[t] ==> s == t
  }

  ghost predicate SlotsSettle(slots: map<SlotId, Option<EventId>>, owed: map<SlotId, bool>, bound: SlotId) {
    && slots.Keys == owed.Keys
    && forall s :: s in slots ==> s < bound && (owed[s] ==> slots[s].None?)
  }

  ghost predicate DrawsSettle(draws: map<DrawId, Option<DrawOutcome>>, owed: map<DrawId, bool>, bound: DrawId) {
    && draws.Keys == owed.Keys
    && forall d :: d in draws ==> d < bound && draws[d].Some? == owed[d]
  }

  /** Every scope belongs to a minion of the world. */
  ghost predicate ScopesLive(scopes: map<ResolutionId, EntityId>, world: map<EntityId, GameEntity>,
                             next: ResolutionId) {
    forall s :: s in scopes ==> s < next && scopes[s] in world && world[scopes[s]].card.kind == Minion
  }

  ghost predicate MarksScoped(transforms: set<EntityId>, scopes: map<ResolutionId, EntityId>) {
    forall e :: e in transforms ==> exists s :: s in scopes && scopes[s] == e
  }

  ghost predicate PayersBelow(payers: map<ResolutionId, Payer>, next: ResolutionId) {
    forall p :: p in payers ==> p < next
  }

  /** Events stay below their counter and their snapshots name their own event. */
  ghost predicate EventsNamed(events: map<EventId, PreparedEvent>, next: EventId) {
    forall e :: e in events ==> e < next && OwnSnapshot(events[e], e)
  }

  predicate OwnSnapshot(p: PreparedEvent, e: EventId) {
    p.candidates.Some? ==> forall c :: c in p.candidates.value ==> c.event == e
  }

  /** The tables hold exactly what the ledger charges, under identifiers already given out. */
  ghost predicate Settles(g: Game, next: ResolutionId, n: Ledger) {
    && EventsSettle(g.events, g.slots, n.events) && EventsNamed(g.events, g.nextEvent)
    && SlotsSettle(g.slots, n.slots, g.nextSlot)
    && DrawsSettle(g.draws, n.draws, g.nextDraw)
    && g.scopes == n.scopes && ScopesLive(n.scopes, g.world, next) && MarksScoped(g.transforms, n.scopes)
    && g.payers == n.payers && PayersBelow(n.payers, next)
    && g.equips.Keys == n.equips
    && EntitiesBelow(g.world, g.nextEntity)
  }

  /** The pushes of a step settle on top of what is pending below. */
  ghost predicate Resettled(n: Ledger, next: ResolutionId, step: Step) {
    && ChargeAll(n, next, step.pushes).Some?
    && Settles(step.game, next + |step.pushes|, ChargeAll(n, next, step.pushes).value)
  }

  // ---------- Charging lists ----------

  predicate Neutral(n: Ledger, op: Operation) {
    match op
    case PrepareEvent(context) => !Proposed(context.kind)
    case ResolveEvent(e) => e in n.events && n.events[e]
    case AttemptTrigger(c) => c.event in n.events
    case RunEffect(_, _, event) => event.Some? ==> event.value in n.events
    case RunPlayEffect(scope, context, _) => scope in n.scopes && context.source == Some(n.scopes[scope])
    case TransformEntity(scope, _, source, _, kind) => ScopedTransform(n, scope, source, kind)
    case RequestChoice(request) => UnscopedBranches(request)
    case RunStep(step) => !step.FinishEquip? && !step.ConsumeDurability? && (step.PlayCard? ==> n.scopes == map[])
    case RunGuardedStep(_, step) =>
      !step.FinishEquip? && !step.ConsumeDurability? && (step.PlayCard? ==> n.scopes == map[])
    case RunPhaseBoundary => true
    case RefreshAuras => true
    case CheckOutcome => true
    case FinishTrigger(_, _) => true
    case ProcessDamageBatch(_) => true
    case ProcessHealingBatch(_) => true
    case CopyEntity(_, _, _, _, _) => true
    case _ => false
  }

  /** Operations that only borrow leave the ledger as it is. */
  lemma {:induction false} NeutralOpsChargeNothing(n: Ledger, next: ResolutionId, ops: seq<Operation>)
    requires forall op :: op in ops ==> Neutral(n, op)
    ensures ChargeAll(n, next, ops) == Some(n)
    decreases |ops|
  {
    if ops != [] {
      NeutralOpsChargeNothing(n, next, ops[1..]);
      assert Neutral(n, ops[0]);
    }
  }

  lemma {:induction false} ChargeConcatenation(n: Ledger, next: ResolutionId, xs: seq<Operation>, ys: seq<Operation>)
    ensures ChargeAll(n, next, xs + ys) ==
            match ChargeAll(n, next, ys) {
              case None => None
              case Some(below) => ChargeAll(below, next + |ys|, xs)
            }
    decreases |xs|
  {
    if xs == [] {
      assert xs + ys == ys;
    } else {
      ChargeConcatenation(n, next, xs[1..], ys);
      assert (xs + ys)[1..] == xs[1..] + ys;
    }
  }

  // ---------- What each table change does to the events ----------

  lemma RecordedEventIsOwed(events: map<EventId, PreparedEvent>, slots: map<SlotId, Option<EventId>>,
                            owed: map<EventId, bool>, e: EventId, p: PreparedEvent)
    requires EventsSettle(events, slots, owed) && e !in events
    ensures e !in owed
    ensures EventsSettle(events[e := p], slots, owed[e := Proposed(p.context.kind)])
  {
    var after, now := events[e := p], owed[e := Proposed(p.context.kind)];
    forall s | s in slots && slots[s].Some? ensures HoldsFinal(after, now, slots[s].value) {
      assert HoldsFinal(events, owed, slots[s].value);
    }
  }

  lemma TakenEventIsPaid(events: map<EventId, PreparedEvent>, slots: map<SlotId, Option<EventId>>,
                         owed: map<EventId, bool>, e: EventId)
    requires EventsSettle(events, slots, owed) && e in owed
    ensures EventsSettle(events - {e}, slots, owed - {e})
  {
    forall s | s in slots && slots[s].Some? ensures HoldsFinal(events - {e}, owed - {e}, slots[s].value) {
      assert HoldsFinal(events, owed, slots[s].value);
    }
  }

  /** Rewriting an event without changing its kind. */
  lemma RewrittenEventSettles(events: map<EventId, PreparedEvent>, slots: map<SlotId, Option<EventId>>,
                              owed: map<EventId, bool>, e: EventId, p: PreparedEvent)
    requires EventsSettle(events, slots, owed) && e in events && p.context.kind == events[e].context.kind
    ensures EventsSettle(events[e := p], slots, owed)
  {
    forall s | s in slots && slots[s].Some? ensures HoldsFinal(events[e := p], owed, slots[s].value) {
      assert HoldsFinal(events, owed, slots[s].value);
    }
  }

  /** Resolving a filled slot turns its event into an owed one; an empty slot just goes. */
  lemma ReleasedSlotOwesItsEvent(events: map<EventId, PreparedEvent>, slots: map<SlotId, Option<EventId>>,
                                 owed: map<EventId, bool>, s: SlotId)
    requires EventsSettle(events, slots, owed) && s in slots
    ensures slots[s].None? ==> EventsSettle(events, slots - {s}, owed)
    ensures slots[s].Some? ==> slots[s].value !in owed
    ensures slots[s].Some? ==> EventsSettle(events, slots - {s}, owed[slots[s].value := false])
  {
    var rest := slots - {s};
    var now := if slots[s].Some? then owed[slots[s].value := false] else owed;
    assert slots[s].Some? ==> HoldsFinal(events, owed, slots[s].value);
    forall t | t in rest && rest[t].Some? ensures HoldsFinal(events, now, rest[t].value) {
      assert HoldsFinal(events, owed, slots[t].value);
    }
    forall e | e in events ensures e in now || HeldBySlot(rest, e) {
      if e !in owed && slots[s] != Some(e) {
        var t :| t in slots && slots[t] == Some(e);
        assert t in rest && rest[t] == Some(e);
      }
    }
  }

  /** Filling a vacant slot with a fresh final event owes nothing new. */
  lemma FilledSlotHoldsItsEvent(events: map<EventId, PreparedEvent>, slots: map<SlotId, Option<EventId>>,
                                owed: map<EventId, bool>, s: SlotId, e: EventId, p: PreparedEvent)
    requires EventsSettle(events, slots, owed) && e !in events && !Proposed(p.context.kind)
    requires s in slots && slots[s].None?
    ensures EventsSettle(events[e := p], slots[s := Some(e)], owed)
  {
    var filled := slots[s := Some(e)];
    forall t | t in filled && filled[t].Some? ensures HoldsFinal(events[e := p], owed, filled[t].value) {
      if t != s { assert HoldsFinal(events, owed, slots[t].value); }
    }
    forall x | x in events[e := p] ensures x in owed || HeldBySlot(filled, x) {
      if x == e {
        assert filled[s] == Some(e);
      } else if x !in owed {
        var t :| t in slots && slots[t] == Some(x);
        assert filled[t] == Some(x);
      }
    }
    assert OneSlotEach(filled) by {
      forall t, u | t in filled && u in filled && filled[t].Some? && filled[t] == filled[u] ensures t == u {
        assert t != s ==> HoldsFinal(events, owed, slots[t].value);
        assert u != s ==> HoldsFinal(events, owed, slots[u].value);
      }
    }
  }

  lemma NewSlotSettles(events: map<EventId, PreparedEvent>, slots: map<SlotId, Option<EventId>>,
                       owed: map<EventId, bool>, s: SlotId)
    requires EventsSettle(events, slots, owed) && s !in slots
    ensures EventsSettle(events, slots[s := None], owed)
  {
    forall x | x in events ensures x in owed || HeldBySlot(slots[s := None], x) {
      if x !in owed {
        var t :| t in slots && slots[t] == Some(x);
        assert slots[s := None][t] == Some(x);
      }
    }
  }
}
