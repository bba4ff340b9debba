/**
 Every operation keeps the ledger settled: what it takes from the tables it
 either finishes or hands to the operations it pushes.
 */
module OwnershipSteps {
  import opened Outcomes
  import opened Players
  import opened EffectLanguage
  import opened ResolutionMachine
  import opened ResolutionOwnership

  // ---------- World and event primitives ----------

  lemma LaterStillSettles(g: Game, next: ResolutionId, later: ResolutionId, n: Ledger)
    requires Settles(g, next, n) && next <= later
    ensures Settles(g, later, n)
  {
  }

  lemma MovedSettles(g: Game, inp: Input, next: ResolutionId, n: Ledger)
    requires Settles(g, next, n)
    ensures Settles(Moved(g, inp), next, n)
  {
    assert ScopesLive(n.scopes, Moved(g, inp).world, next);
    assert EntitiesBelow(Moved(g, inp).world, g.nextEntity);
  }

  lemma {:induction false} SpawnSettles(
      g: Game, cards: seq<Card>, zone: Zone, controller: PlayerId, next: ResolutionId, n: Ledger)
    requires Settles(g, next, n)
    ensures Settles(Spawn(g, cards, zone, controller), next, n)
    decreases |cards|
  {
    if cards != [] {
      var one := g.(world := g.world[g.nextEntity := GameEntity(cards[0], zone, controller, false)],
                    nextEntity := g.nextEntity + 1);
      assert ScopesLive(n.scopes, one.world, next);
      assert EntitiesBelow(one.world, one.nextEntity);
      SpawnSettles(one, cards[1..], zone, controller, next, n);
    }
  }

  /** A recorded event becomes one more owed entry, marked when it is proposed. */
  lemma RecordOwesTheEvent(g: Game, context: EventContext, seeds: Option<seq<Seed>>, next: ResolutionId, n: Ledger)
    requires Settles(g, next, n)
    ensures g.nextEvent !in n.events
    ensures Settles(Record(g, context, seeds), next, n.(events := n.events[g.nextEvent := Proposed(context.kind)]))
  {
    RecordedEventIsOwed(g.events, g.slots, n.events, g.nextEvent, PreparedEvent(context, seeds, None));
    assert EventsNamed(Record(g, context, seeds).events, g.nextEvent + 1);
  }

  lemma ResettledBy(n: Ledger, next: ResolutionId, step: Step, k: Ledger)
    requires ChargeAll(n, next, step.pushes) == Some(k) && Settles(step.game, next, k)
    ensures Resettled(n, next, step)
  {
    LaterStillSettles(step.game, next, next + |step.pushes|, k);
  }

  /** A step whose pushes only borrow. */
  lemma NeutralStep(n: Ledger, next: ResolutionId, step: Step)
    requires Settles(step.game, next, n)
    requires forall op :: op in step.pushes ==> Neutral(n, op)
    ensures Resettled(n, next, step)
  {
    NeutralOpsChargeNothing(n, next, step.pushes);
    ResettledBy(n, next, step, n);
  }

  lemma ChargeOne(n: Ledger, next: ResolutionId, op: Operation)
    ensures ChargeAll(n, next, [op]) == Charge(n, next, op)
  {
    assert [op][1..] == [];
  }

  /** Operations that only borrow, above one last operation. */
  lemma NeutralAbove(n: Ledger, m: Ledger, next: ResolutionId, before: seq<Operation>, last: Operation)
    requires Charge(n, next, last) == Some(m)
    requires forall op :: op in before ==> Neutral(m, op)
    ensures ChargeAll(n, next, before + [last]) == Some(m)
  {
    ChargeOne(n, next, last);
    ChargeConcatenation(n, next, before, [last]);
    NeutralOpsChargeNothing(m, next + 1, before);
  }

  /** A final event recorded and resolved last, after operations that only borrow. */
  lemma RecordAndResolve(g: Game, context: EventContext, seeds: Option<seq<Seed>>, next: ResolutionId, n: Ledger,
                         before: seq<Operation>)
    requires Settles(g, next, n) && !Proposed(context.kind)
    requires forall op :: op in before ==> Neutral(n.(events := n.events[g.nextEvent := false]), op)
    ensures Resettled(n, next, Step(Record(g, context, seeds), before + [ResolveEvent(g.nextEvent)]))
  {
    RecordOwesTheEvent(g, context, seeds, next, n);
    NeutralAbove(n, n.(events := n.events[g.nextEvent := false]), next, before, ResolveEvent(g.nextEvent));
  }

  // ---------- Events ----------

  lemma ExpandSettles(g: Game, next: ResolutionId, e: EventId, inp: Input, m: Ledger)
    requires Settles(g, next, m) && e in g.events
    ensures Settles(Expand(g, e, inp).value.game, next, m)
    ensures OwnSnapshot(Expand(g, e, inp).value.game.events[e], e)
  {
    var after := Expand(g, e, inp).value.game;
    assert OwnSnapshot(g.events[e], e) && OwnSnapshot(after.events[e], e);
    RewrittenEventSettles(g.events, g.slots, m.events, e, after.events[e]);
    assert EventsNamed(after.events, g.nextEvent);
  }

  lemma AttemptsBorrowTheEvent(n: Ledger, e: EventId, candidates: seq<Candidate>)
    requires e in n.events && forall c :: c in candidates ==> c.event == e
    ensures forall op :: op in Attempts(candidates) ==> Neutral(n, op)
  {
    forall op | op in Attempts(candidates) ensures Neutral(n, op) {
      assert op.candidate in candidates;
    }
  }

  lemma ExpandedOpsCharge(n: Ledger, m: Ledger, next: ResolutionId, id: ResolutionId, e: EventId,
                          candidates: seq<Candidate>)
    requires Charge(n, id, ResolveEvent(e)) == Some(m)
    requires forall c :: c in candidates ==> c.event == e
    ensures ChargeAll(n, next, Attempts(candidates) + if m.events[e] then [] else [FinishEvent(e)]) == Some(m)
  {
    AttemptsBorrowTheEvent(m, e, candidates);
    if m.events[e] {
      assert Attempts(candidates) + [] == Attempts(candidates);
      NeutralOpsChargeNothing(n, next, Attempts(candidates));
    } else {
      NeutralAbove(n, m, next, Attempts(candidates), FinishEvent(e));
    }
  }

  lemma ExpandOwns(g: Game, next: ResolutionId, id: ResolutionId, e: EventId, inp: Input, n: Ledger, m: Ledger,
                   step: Step)
    requires Charge(n, id, ResolveEvent(e)) == Some(m) && Settles(g, next, m) && Expand(g, e, inp) == Ok(step)
    ensures Resettled(n, next, step)
  {
    ExpandSettles(g, next, e, inp, m);
    ExpandedOpsCharge(n, m, next, id, e, step.game.events[e].candidates.value);
    ResettledBy(n, next, step, m);
  }

  lemma FinishEventOwns(g: Game, next: ResolutionId, id: ResolutionId, e: EventId, n: Ledger, m: Ledger)
    requires Charge(n, id, FinishEvent(e)) == Some(m) && Settles(g, next, m)
    ensures e in g.events && Resettled(n, next, Step(TakeEvent(g, e), []))
  {
    TakenEventIsPaid(g.events, g.slots, m.events, e);
    assert m.events - {e} == n.events;
  }

  lemma AttemptOwns(g: Game, next: ResolutionId, id: ResolutionId, c: Candidate, inp: Input, n: Ledger, step: Step)
    requires c.event in n.events && Settles(g, next, n) && Attempt(g, id, c, inp) == Ok(step)
    ensures Resettled(n, next, step)
  {
    NeutralStep(n, next, step);
  }

  /** The slot goes, and with it the ledger's charge for it. */
  lemma TakenSlotSettles(g: Game, next: ResolutionId, s: SlotId, n: Ledger, m: Ledger, owed: map<EventId, bool>)
    requires s !in n.slots && m == n.(slots := n.slots[s := false]) && Settles(g, next, m)
    requires EventsSettle(g.events, g.slots - {s}, owed)
    ensures Settles(g.(slots := g.slots - {s}), next, n.(events := owed))
  {
    assert SlotsSettle(g.slots - {s}, n.slots, g.nextSlot);
  }

  lemma RunSlotOwns(g: Game, next: ResolutionId, id: ResolutionId, s: SlotId, n: Ledger, m: Ledger, step: Step)
    requires Charge(n, id, ResolveEventSlot(s)) == Some(m) && Settles(g, next, m) && RunSlot(g, s) == Ok(step)
    ensures Resettled(n, next, step)
  {
    ReleasedSlotOwesItsEvent(g.events, g.slots, m.events, s);
    if g.slots[s].Some? {
      FilledSlotOwns(g, next, s, n, m, g.slots[s].value);
    } else {
      TakenSlotSettles(g, next, s, n, m, n.events);
      EmptySlotOwns(n, next, g.(slots := g.slots - {s}));
    }
  }

  lemma EmptySlotOwns(n: Ledger, next: ResolutionId, taken: Game)
    requires Settles(taken, next, n)
    ensures Resettled(n, next, Step(taken, []))
  {
  }

  lemma FilledSlotOwns(g: Game, next: ResolutionId, s: SlotId, n: Ledger, m: Ledger, e: EventId)
    requires s !in n.slots && m == n.(slots := n.slots[s := false]) && Settles(g, next, m)
    requires e !in n.events && EventsSettle(g.events, g.slots - {s}, n.events[e := false])
    ensures Resettled(n, next, Step(g.(slots := g.slots - {s}), [ResolveEvent(e)]))
  {
    var owing := n.(events := n.events[e := false]);
    TakenSlotSettles(g, next, s, n, m, n.events[e := false]);
    ChargeOne(n, next, ResolveEvent(e));
    LaterStillSettles(g.(slots := g.slots - {s}), next, next + 1, owing);
  }

  // ---------- Runs of fresh entries ----------

  /** The map with count consecutive keys marked. */
  function MarkedFrom(m: map<nat, bool>, first: nat, count: nat, mark: bool): map<nat, bool>
    decreases count
  {
    if count == 0 then m else MarkedFrom(m, first + 1, count - 1, mark)[first := mark]
  }

  lemma {:induction false} MarkedOnlyFrom(m: map<nat, bool>, x: nat, first: nat, count: nat, mark: bool)
    requires x < first
    ensures x in MarkedFrom(m, first, count, mark) <==> x in m
    ensures x in m ==> MarkedFrom(m, first, count, mark)[x] == m[x]
    decreases count
  {
    if count > 0 { MarkedOnlyFrom(m, x, first + 1, count - 1, mark); }
  }

  lemma {:induction false} MarksCommute(m: map<nat, bool>, x: nat, b: bool, first: nat, count: nat, mark: bool)
    requires x < first
    ensures MarkedFrom(m[x := b], first, count, mark) == MarkedFrom(m, first, count, mark)[x := b]
    decreases count
  {
    if count > 0 { MarksCommute(m, x, b, first + 1, count - 1, mark); }
  }

  lemma {:induction false} MarkedAgain(m: map<nat, bool>, first: nat, count: nat)
    ensures MarkedFrom(MarkedFrom(m, first, count, false), first, count, true) == MarkedFrom(m, first, count, true)
    ensures forall k :: first <= k < first + count ==>
      k in MarkedFrom(m, first, count, false) && !MarkedFrom(m, first, count, false)[k]
    decreases count
  {
    if count > 0 {
      MarkedAgain(m, first + 1, count - 1);
      MarksCommute(MarkedFrom(m, first + 1, count - 1, false), first, false, first + 1, count - 1, true);
    }
  }

  lemma DeathIsOwed(g: Game, d: DeathRecord, next: ResolutionId, n: Ledger)
    requires Settles(g, next, n)
    ensures RecordDeath(g, d).nextEvent == g.nextEvent + 1
    ensures Settles(RecordDeath(g, d), next, n.(events := n.events[g.nextEvent := false]))
  {
    var context := Plain(Death, Some(d.entity), [d.entity], d.controller);
    RecordOwesTheEvent(g, context, Some(Discover(g.world, Death, d.seeds)), next, n);
  }

  lemma {:induction false} DeathsAreOwed(g: Game, deaths: seq<DeathRecord>, next: ResolutionId, n: Ledger)
    requires Settles(g, next, n)
    ensures Settles(RecordDeaths(g, deaths), next, n.(events := MarkedFrom(n.events, g.nextEvent, |deaths|, false)))
    decreases |deaths|
  {
    if deaths != [] {
      DeathIsOwed(g, deaths[0], next, n);
      DeathsAreOwed(RecordDeath(g, deaths[0]), deaths[1..], next, n.(events := n.events[g.nextEvent := false]));
      MarksCommute(n.events, g.nextEvent, false, g.nextEvent + 1, |deaths| - 1, false);
    }
  }

  lemma {:induction false} ResolveFromCharges(n: Ledger, next: ResolutionId, first: EventId, count: nat)
    requires forall e :: e in n.events ==> e < first
    ensures |ResolveFrom(first, count)| == count
    ensures ChargeAll(n, next, ResolveFrom(first, count)) ==
      Some(n.(events := MarkedFrom(n.events, first, count, false)))
    decreases count
  {
    if count > 0 {
      ResolveFromCharges(n, next, first + 1, count - 1);
      MarkedOnlyFrom(n.events, first, first + 1, count - 1, false);
      assert ResolveFrom(first, count)[1..] == ResolveFrom(first + 1, count - 1);
    }
  }

  lemma PhaseBoundaryOwns(g: Game, next: ResolutionId, inp: Input, n: Ledger)
    requires Settles(g, next, n)
    ensures Resettled(n, next, PhaseBoundary(g, inp))
  {
    MovedSettles(g, inp, next, n);
    DeathsAreOwed(Moved(g, inp), inp.deaths, next, n);
    if inp.deaths != [] {
      var ops := ResolveFrom(g.nextEvent, |inp.deaths|);
      ChargeOne(n, next, RunPhaseBoundary);
      ChargeConcatenation(n, next, ops, [RunPhaseBoundary]);
      ResolveFromCharges(n, next + 1, g.nextEvent, |inp.deaths|);
    }
  }

  // ---------- Damage and healing ----------

  lemma AllocatedSlotIsOwed(g: Game, next: ResolutionId, n: Ledger)
    requires Settles(g, next, n)
    ensures Settles(AllocateSlot(g), next, n.(slots := n.slots[g.nextSlot := true]))
  {
    NewSlotSettles(g.events, g.slots, n.events, g.nextSlot);
    var slots, owed := g.slots[g.nextSlot := None], n.slots[g.nextSlot := true];
    assert slots.Keys == owed.Keys;
    assert SlotsSettle(slots, owed, g.nextSlot + 1);
  }

  lemma {:induction false} AllocatedSlotsAreOwed(g: Game, count: nat, next: ResolutionId, n: Ledger)
    requires Settles(g, next, n)
    ensures Settles(AllocateSlots(g, count), next, n.(slots := MarkedFrom(n.slots, g.nextSlot, count, true)))
    decreases count
  {
    if count > 0 {
      AllocatedSlotIsOwed(g, next, n);
      var one, owed := AllocateSlot(g), n.(slots := n.slots[g.nextSlot := true]);
      AllocatedSlotsAreOwed(one, count - 1, next, owed);
      MarksCommute(n.slots, g.nextSlot, true, g.nextSlot + 1, count - 1, true);
      assert AllocateSlots(g, count) == AllocateSlots(one, count - 1);
      assert n.(slots := MarkedFrom(n.slots, g.nextSlot, count, true)) ==
             owed.(slots := MarkedFrom(owed.slots, one.nextSlot, count - 1, true));
    }
  }

  lemma {:induction false} SlotOpsCharge(n: Ledger, next: ResolutionId, first: SlotId, count: nat)
    requires forall s :: s in n.slots ==> s < first
    ensures |SlotOps(first, count)| == count
    ensures ChargeAll(n, next, SlotOps(first, count)) == Some(n.(slots := MarkedFrom(n.slots, first, count, false)))
    decreases count
  {
    if count > 0 {
      SlotOpsCharge(n, next, first + 1, count - 1);
      MarkedOnlyFrom(n.slots, first, first + 1, count - 1, false);
      assert SlotOps(first, count)[1..] == SlotOps(first + 1, count - 1);
    }
  }

  lemma {:induction false} HealthOpsCharge(n: Ledger, next: ResolutionId, damage: bool, requests: seq<HealthRequest>,
                                           first: SlotId)
    requires forall s :: first <= s < first + |requests| ==> s in n.slots && !n.slots[s]
    ensures |HealthOps(damage, requests, first)| == |requests|
    ensures ChargeAll(n, next, HealthOps(damage, requests, first)) ==
            Some(n.(slots := MarkedFrom(n.slots, first, |requests|, true)))
    decreases |requests|
  {
    if requests != [] {
      HealthOpsCharge(n, next, damage, requests[1..], first + 1);
      MarkedOnlyFrom(n.slots, first, first + 1, |requests| - 1, true);
      assert HealthOps(damage, requests, first)[1..] == HealthOps(damage, requests[1..], first + 1);
    }
  }

  /** Each slot is filled by one operation and resolved by another one below. */
  lemma BatchCharges(n: Ledger, next: ResolutionId, damage: bool, requests: seq<HealthRequest>, first: SlotId)
    requires forall s :: s in n.slots ==> s < first
    ensures ChargeAll(n, next, HealthOps(damage, requests, first) + SlotOps(first, |requests|)) ==
            Some(n.(slots := MarkedFrom(n.slots, first, |requests|, true)))
  {
    var count := |requests|;
    SlotOpsCharge(n, next, first, count);
    MarkedAgain(n.slots, first, count);
    HealthOpsCharge(n.(slots := MarkedFrom(n.slots, first, count, false)), next + count, damage, requests, first);
    ChargeConcatenation(n, next, HealthOps(damage, requests, first), SlotOps(first, count));
  }

  lemma ExpandBatchOwns(g: Game, next: ResolutionId, damage: bool, requests: seq<HealthRequest>, n: Ledger)
    requires Settles(g, next, n)
    ensures Resettled(n, next, ExpandBatch(g, damage, requests))
  {
    AllocatedSlotsAreOwed(g, |requests|, next, n);
    assert forall s :: s in n.slots ==> s in g.slots && s < g.nextSlot;
    BatchCharges(n, next, damage, requests, g.nextSlot);
    ResettledBy(n, next, ExpandBatch(g, damage, requests), n.(slots := MarkedFrom(n.slots, g.nextSlot, |requests|,
                                                                                  true)));
  }
}
