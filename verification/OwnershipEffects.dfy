/** The ledger through health changes, draws, transformations, copies and effects. */
module OwnershipEffects {
  import opened Outcomes
  import opened Players
  import opened EffectLanguage
  import opened ResolutionMachine
  import opened ResolutionOwnership
  import opened OwnershipSteps

  // ---------- Damage and healing ----------

  lemma VacancyMayBeDropped(g: Game, next: ResolutionId, s: SlotId, n: Ledger, m: Ledger)
    requires ChargeVacant(n, s) == Some(m) && Settles(g, next, m)
    ensures Settles(g, next, n)
  {
    assert m.slots.Keys == n.slots.Keys;
    assert SlotsSettle(g.slots, n.slots, g.nextSlot);
  }

  /** A proposed event and the operation that consumes it. */
  lemma ProposedPairCharges(n: Ledger, m: Ledger, next: ResolutionId, e: EventId, s: SlotId, apply: Operation)
    requires ChargeVacant(n, s) == Some(m) && e !in n.events
    requires (apply.ApplyDamage? || apply.ApplyHealing?) && apply.event == e && apply.slot == s
    ensures ChargeAll(n, next, [ResolveEvent(e), apply]) == Some(m.(events := m.events[e := true]))
  {
    ChargeOne(n, next, apply);
    assert [ResolveEvent(e), apply][1..] == [apply];
  }

  lemma ProcessHealthOwns(g: Game, next: ResolutionId, damage: bool, request: HealthRequest, s: SlotId, inp: Input,
                          n: Ledger, m: Ledger)
    requires ChargeVacant(n, s) == Some(m) && Settles(g, next, m)
    ensures Resettled(n, next, ProcessHealth(g, damage, request, s, inp))
  {
    var step := ProcessHealth(g, damage, request, s, inp);
    MovedSettles(g, inp, next, m);
    if step.pushes == [] {
      VacancyMayBeDropped(step.game, next, s, n, m);
    } else {
      var e := g.nextEvent;
      RecordOwesTheEvent(Moved(g, inp), step.game.events[e].context, None, next, m);
      ProposedPairCharges(n, m, next, e, s, step.pushes[1]);
      assert step.pushes == [ResolveEvent(e), step.pushes[1]];
      ResettledBy(n, next, step, m.(events := m.events[e := true]));
    }
  }

  lemma TakenProposalSettles(g: Game, next: ResolutionId, e: EventId, s: SlotId, inp: Input, n: Ledger, m: Ledger)
    requires ChargeApply(n, e, s) == Some(m) && Settles(g, next, m)
    ensures e in g.events && Settles(Moved(TakeEvent(g, e), inp), next, n.(slots := m.slots))
  {
    assert m.events - {e} == n.events;
    TakenEventIsPaid(g.events, g.slots, m.events, e);
    assert EventsNamed(g.events - {e}, g.nextEvent);
    assert Settles(TakeEvent(g, e), next, n.(slots := m.slots));
    MovedSettles(TakeEvent(g, e), inp, next, n.(slots := m.slots));
  }

  /** The slot held for the event takes it: nothing more is owed. */
  lemma FillSlotSettles(g: Game, next: ResolutionId, s: SlotId, context: EventContext, n: Ledger, m: Ledger)
    requires ChargeVacant(n, s) == Some(m) && Settles(g, next, m) && !Proposed(context.kind)
    ensures FillSlot(g, s, context).Ok? && Settles(FillSlot(g, s, context).value.game, next, n)
  {
    var f, p := g.nextEvent, PreparedEvent(context, None, None);
    FilledSlotHoldsItsEvent(g.events, g.slots, n.events, s, f, p);
    SlotKeysStay(g.slots, n.slots, m.slots, s, f, g.nextSlot);
    assert EventsNamed(g.events[f := p], f + 1);
  }

  lemma SlotKeysStay(slots: map<SlotId, Option<EventId>>, owed: map<SlotId, bool>, vacant: map<SlotId, bool>, s: SlotId,
                     f: EventId, next: SlotId)
    requires SlotsSettle(slots, vacant, next) && s in owed && !owed[s] && vacant == owed[s := true]
    ensures SlotsSettle(slots[s := Some(f)], owed, next)
  {
    assert slots[s := Some(f)].Keys == vacant.Keys == owed.Keys;
  }

  lemma ApplyHealthOwns(g: Game, next: ResolutionId, damage: bool, request: HealthRequest, e: EventId, s: SlotId,
                        inp: Input, n: Ledger, m: Ledger)
    requires ChargeApply(n, e, s) == Some(m) && Settles(g, next, m)
    ensures ApplyHealth(g, damage, request, e, s, inp).Ok?
    ensures Resettled(n, next, ApplyHealth(g, damage, request, e, s, inp).value)
  {
    TakenProposalSettles(g, next, e, s, inp, n, m);
    var taken := Moved(TakeEvent(g, e), inp);
    var proposed := ProposedValue(g.events[e]);
    var actual := ActualChange(damage, proposed, inp.operand);
    var vacant := n.(slots := m.slots);
    if actual == 0 {
      VacancyMayBeDropped(taken, next, s, n, vacant);
      NeutralStep(n, next, Step(taken, []));
    } else {
      var context := EventContext(if damage then DamageDealt else Healed, request.source,
                                  [request.target], inp.nextPlayer, Some(proposed), Some(actual));
      FillSlotSettles(taken, next, s, context, n, vacant);
      NeutralStep(n, next, FillSlot(taken, s, context).value);
    }
  }

  // ---------- Draws ----------

  lemma AllocatedDrawIsOwed(g: Game, next: ResolutionId, n: Ledger)
    requires Settles(g, next, n)
    ensures Settles(AllocateDraw(g), next, n.(draws := n.draws[g.nextDraw := false]))
  {
    var draws, owed := g.draws[g.nextDraw := None], n.draws[g.nextDraw := false];
    assert draws.Keys == owed.Keys;
    assert DrawsSettle(draws, owed, g.nextDraw + 1);
  }

  lemma {:induction false} AllocatedDrawsAreOwed(g: Game, count: nat, next: ResolutionId, n: Ledger)
    requires Settles(g, next, n)
    ensures Settles(AllocateDraws(g, count), next, n.(draws := MarkedFrom(n.draws, g.nextDraw, count, false)))
    decreases count
  {
    if count > 0 {
      AllocatedDrawIsOwed(g, next, n);
      AllocatedDrawsAreOwed(AllocateDraw(g), count - 1, next, n.(draws := n.draws[g.nextDraw := false]));
      MarksCommute(n.draws, g.nextDraw, false, g.nextDraw + 1, count - 1, false);
    }
  }

  /** A draw and its completion: vacant before the draw runs, filled when the completion does. */
  lemma DrawPairCharges(n: Ledger, next: ResolutionId, draw: Operation, done: Operation, rest: seq<Operation>,
                        below: Ledger)
    requires draw.ProcessDraw? && (done.FinishDraw? || done.ContinueDraw?) && draw.result == done.result
    requires ChargeAll(n, next, rest) == Some(below) && done.result !in below.draws
    ensures ChargeAll(n, next, [draw, done] + rest) == Some(below.(draws := below.draws[done.result := false]))
  {
    var ops := [draw, done] + rest;
    assert ops[1..][1..] == rest;
    assert below.draws[done.result := true][done.result := false] == below.draws[done.result := false];
  }

  lemma {:induction false} DrawOpsCharge(n: Ledger, next: ResolutionId, player: PlayerId, source: Option<EntityId>,
                                         first: DrawId, count: nat)
    requires forall d :: d in n.draws ==> d < first
    ensures ChargeAll(n, next, DrawOps(player, source, first, count)) ==
            Some(n.(draws := MarkedFrom(n.draws, first, count, false)))
    decreases count
  {
    if count > 0 {
      DrawOpsCharge(n, next, player, source, first + 1, count - 1);
      MarkedOnlyFrom(n.draws, first, first + 1, count - 1, false);
      DrawPairCharges(n, next, ProcessDraw(player, source, first), FinishDraw(first),
                      DrawOps(player, source, first + 1, count - 1),
                      n.(draws := MarkedFrom(n.draws, first + 1, count - 1, false)));
    }
  }

  lemma DrawOwns(g: Game, next: ResolutionId, player: PlayerId, source: Option<EntityId>, count: nat, n: Ledger)
    requires Settles(g, next, n)
    ensures Resettled(n, next, Step(AllocateDraws(g, count), DrawOps(player, source, g.nextDraw, count)))
  {
    AllocatedDrawsAreOwed(g, count, next, n);
    assert forall d :: d in n.draws ==> d in g.draws && d < g.nextDraw;
    DrawOpsCharge(n, next, player, source, g.nextDraw, count);
  }

  lemma DrawThenOwns(g: Game, next: ResolutionId, context: EffectContext, player: PlayerId, effects: seq<Effect>,
                     policy: DrawPolicy, n: Ledger)
    requires Settles(g, next, n)
    ensures Resettled(n, next, RunDrawThen(g, context, player, effects, policy))
  {
    var d := g.nextDraw;
    AllocatedDrawIsOwed(g, next, n);
    var draw, done := ProcessDraw(player, context.source, d), ContinueDraw(d, context, effects, policy);
    assert d !in n.draws;
    DrawPairCharges(n, next, draw, done, [], n);
    assert [draw, done] + [] == [draw, done];
    ResettledBy(n, next, RunDrawThen(g, context, player, effects, policy), n.(draws := n.draws[d := false]));
  }

  lemma FillDrawOwns(g: Game, next: ResolutionId, player: PlayerId, source: Option<EntityId>, d: DrawId, inp: Input,
                     n: Ledger, m: Ledger, step: Step)
    requires d in n.draws && n.draws[d] && m == n.(draws := n.draws[d := false]) && Settles(g, next, m)
    requires FillDraw(g, player, source, d, inp) == Ok(step)
    ensures Resettled(n, next, step)
  {
    MovedSettles(g, inp, next, m);
    var filled := Moved(g, inp).(draws := g.draws[d := Some(inp.outcome)]);
    assert DrawsSettle(filled.draws, n.draws, g.nextDraw) by { assert filled.draws.Keys == n.draws.Keys; }
    if inp.outcome.Drawn? {
      RecordAndResolve(filled, Plain(CardDrawn, source, [inp.outcome.card], player), None, next, n, []);
      assert step.pushes == [] + [ResolveEvent(g.nextEvent)];
    } else {
      NeutralStep(n, next, step);
    }
  }

  lemma TakeDrawPays(g: Game, next: ResolutionId, d: DrawId, n: Ledger, m: Ledger)
    requires d !in n.draws && m == n.(draws := n.draws[d := true]) && Settles(g, next, m)
    ensures TakeDraw(g, d).Ok? && Settles(TakeDraw(g, d).value.0, next, n)
  {
    assert DrawsSettle(g.draws - {d}, n.draws, g.nextDraw) by { assert (g.draws - {d}).Keys == n.draws.Keys; }
  }

  lemma ContinueDrawOwns(g: Game, next: ResolutionId, d: DrawId, context: EffectContext, effects: seq<Effect>,
                         policy: DrawPolicy, n: Ledger, m: Ledger, step: Step)
    requires d !in n.draws && m == n.(draws := n.draws[d := true]) && Settles(g, next, m)
    requires ContinueWithDraw(g, d, context, effects, policy) == Ok(step)
    ensures Resettled(n, next, step)
  {
    TakeDrawPays(g, next, d, n, m);
    NeutralStep(n, next, step);
  }

  // ---------- Transformation, copying, play scopes ----------

  lemma TransformTargetSettles(g: Game, next: ResolutionId, natives: set<NativeId>, target: EntityId, card: Card,
                               inp: Input, n: Ledger)
    requires Settles(g, next, n) && TransformTarget(g, natives, target, card, inp).Ok?
    ensures Settles(TransformTarget(g, natives, target, card, inp).value, next, n)
  {
    var changed := g.(world := g.world[target := g.world[target].(card := card, silenced := false)]);
    assert ScopesLive(n.scopes, changed.world, next);
    assert EntitiesBelow(changed.world, g.nextEntity);
    MovedSettles(changed, inp, next, n);
  }

  lemma MarkedTransformSettles(g: Game, next: ResolutionId, scope: ResolutionId, target: EntityId, n: Ledger)
    requires Settles(g, next, n) && scope in n.scopes && n.scopes[scope] == target
    ensures Settles(g.(transforms := g.transforms + {target}), next, n)
  {
    assert MarksScoped(g.transforms + {target}, n.scopes);
  }

  lemma TransformOwns(g: Game, next: ResolutionId, natives: set<NativeId>, op: Operation, inp: Input, n: Ledger,
                      step: Step)
    requires op.TransformEntity? && Settles(g, next, n)
    requires RunTransform(g, natives, op, inp) == Ok(step)
    ensures Resettled(n, next, step)
  {
    TransformTargetSettles(g, next, natives, op.target, op.card, inp, n);
    var changed := TransformTarget(g, natives, op.target, op.card, inp).value;
    if op.kind == PlayedSelf {
      MarkedTransformSettles(changed, next, op.playScope.value, op.target, n);
      NeutralStep(n, next, Step(changed.(transforms := changed.transforms + {op.target}), []));
    } else {
      NeutralStep(n, next, Step(changed, if op.kind == NonSpell then [RefreshAuras] else []));
    }
  }

  lemma CloseScope(g: Game, next: ResolutionId, id: ResolutionId, subject: EntityId, n: Ledger, m: Ledger)
    requires n.scopes == map[] && m == n.(scopes := map[id := subject]) && Settles(g, next, m)
    ensures LivePlayScope(g, id, subject)
    ensures Settles(g.(scopes := g.scopes - {id}, transforms := g.transforms - {subject}), next, n)
  {
    assert id in m.scopes;
    assert g.scopes - {id} == n.scopes;
    assert MarksScoped(g.transforms - {subject}, n.scopes);
    assert ScopesLive(n.scopes, g.world, next);
  }

  lemma TwoRecordsSettle(g: Game, next: ResolutionId, first: EventContext, second: EventContext,
                         seeds: Option<seq<Seed>>,
                         n: Ledger)
    requires Settles(g, next, n) && !Proposed(first.kind) && !Proposed(second.kind)
    ensures g.nextEvent !in n.events && g.nextEvent + 1 !in n.events
    ensures Settles(Record(Record(g, first, None), second, seeds), next,
                    n.(events := n.events[g.nextEvent := false][g.nextEvent + 1 := false]))
  {
    RecordOwesTheEvent(g, first, None, next, n);
    RecordOwesTheEvent(Record(g, first, None), second, seeds, next, n.(events := n.events[g.nextEvent := false]));
  }

  lemma AfterPlayedSelfOwns(g: Game, next: ResolutionId, subject: EntityId, controller: PlayerId, seeds: seq<Seed>,
                            n: Ledger)
    requires Settles(g, next, n)
    ensures Resettled(n, next, AfterPlayedSelf(g, subject, controller, seeds))
  {
    TwoRecordsOwn(g, next, Plain(AfterPlayAndSummon, Some(subject), [subject], controller),
                  Plain(AfterPlay, Some(subject), [subject], controller), Some(seeds), n);
  }

  lemma TwoRecordsOwn(g: Game, next: ResolutionId, first: EventContext, second: EventContext,
                      seeds: Option<seq<Seed>>, n: Ledger)
    requires Settles(g, next, n) && !Proposed(first.kind) && !Proposed(second.kind)
    ensures Resettled(n, next, Step(Record(Record(g, first, None), second, seeds),
                                    [ResolveEvent(g.nextEvent), RunPhaseBoundary, ResolveEvent(g.nextEvent + 1)]))
  {
    TwoRecordsSettle(g, next, first, second, seeds, n);
    TwoEventsCharge(n, next, g.nextEvent);
    ResettledBy(n, next, Step(Record(Record(g, first, None), second, seeds),
                              [ResolveEvent(g.nextEvent), RunPhaseBoundary, ResolveEvent(g.nextEvent + 1)]),
                n.(events := n.events[g.nextEvent := false][g.nextEvent + 1 := false]));
  }

  lemma FinishPlayOwns(g: Game, next: ResolutionId, id: ResolutionId, subject: EntityId, seeds: seq<Seed>,
                       n: Ledger, m: Ledger)
    requires n.scopes == map[] && m == n.(scopes := map[id := subject]) && Settles(g, next, m)
    ensures FinishPlay(g, id, subject, seeds).Ok? && Resettled(n, next, FinishPlay(g, id, subject, seeds).value)
  {
    CloseScope(g, next, id, subject, n, m);
    if subject in g.transforms {
      AfterPlayedSelfOwns(g.(scopes := g.scopes - {id}, transforms := g.transforms - {subject}), next,
                          subject, g.world[subject].controller, seeds, n);
    }
  }

  lemma TwoEventsCharge(n: Ledger, next: ResolutionId, e: EventId)
    requires e !in n.events && e + 1 !in n.events
    ensures ChargeAll(n, next, [ResolveEvent(e), RunPhaseBoundary, ResolveEvent(e + 1)]) ==
            Some(n.(events := n.events[e := false][e + 1 := false]))
  {
    var ops := [ResolveEvent(e), RunPhaseBoundary, ResolveEvent(e + 1)];
    var k := n.(events := n.events[e + 1 := false]);
    assert ops == [ResolveEvent(e)] + [RunPhaseBoundary] + [ResolveEvent(e + 1)];
    NeutralAbove(n, k, next, [RunPhaseBoundary], ResolveEvent(e + 1));
    assert ops[1..] == [RunPhaseBoundary] + [ResolveEvent(e + 1)];
    assert n.events[e + 1 := false][e := false] == n.events[e := false][e + 1 := false];
  }

  lemma CopyOwns(g: Game, next: ResolutionId, natives: set<NativeId>, op: Operation, inp: Input, n: Ledger, step: Step)
    requires op.CopyEntity? && Settles(g, next, n)
    requires RunCopy(g, natives, op, inp) == Ok(step)
    ensures Resettled(n, next, step)
  {
    if PrepareCopy(g, natives, op, inp) == Ok(true) {
      var card := g.world[op.original].card;
      if op.playState {
        SummonsOwn(g, next, [card] + AttachedCards(g.world, inp.attachments), op.copyController, op.originating, inp,
                   n);
      } else {
        SpawnSettles(g, [card], op.destination, op.copyController, next, n);
        MovedSettles(Spawn(g, [card], op.destination, op.copyController), inp, next, n);
      }
    }
  }

  /** Spawning into play and announcing it. */
  lemma SummonsOwn(g: Game, next: ResolutionId, cards: seq<Card>, controller: PlayerId, source: Option<EntityId>,
                   inp: Input, n: Ledger)
    requires Settles(g, next, n)
    ensures Resettled(n, next, AnnounceSummons(g, cards, controller, source, inp))
  {
    SpawnSettles(g, cards, Play, controller, next, n);
    var spawned := Spawn(g, cards, Play, controller);
    MovedSettles(spawned, inp, next, n);
    RecordAndResolve(Moved(spawned, inp), Plain(Summoned, source, [g.nextEntity], controller), None, next, n,
                     [RefreshAuras]);
    assert [RefreshAuras] + [ResolveEvent(g.nextEvent)] == [RefreshAuras, ResolveEvent(g.nextEvent)];
  }
}
