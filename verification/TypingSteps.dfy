/** Every operation keeps the game typed and pushes only typed operations. */
module TypingSteps {
  import opened Outcomes
  import opened Players
  import opened EffectLanguage
  import opened ResolutionMachine
  import opened ResolutionTyping

  lemma Unchanged(natives: set<NativeId>, g: Game)
    requires GameTyped(natives, g)
    ensures Extends(natives, g, g)
  {
  }

  lemma TypedResult(natives: set<NativeId>, g: Game, r: StepResult)
    requires r.Err? ==> !GoesWrong(r.error)
    requires r.Ok? ==> Extends(natives, g, r.value.game) && AllTyped(natives, r.value.game, r.value.pushes)
    ensures StaysTyped(natives, g, r)
  {
  }

  /** Changes to tables that hold no programs. */
  lemma OtherTables(natives: set<NativeId>, g: Game, h: Game)
    requires GameTyped(natives, g)
    requires h.world == g.world && h.nextEntity == g.nextEntity && h.created == g.created && h.nextEvent == g.nextEvent
    requires h.events == g.events
    ensures Extends(natives, g, h)
  {
  }

  // ---------- Events ----------

  lemma QueuedCandidatesAreTyped(natives: set<NativeId>, g: Game, e: EventId, inp: Input)
    requires GameTyped(natives, g) && e in g.events
    ensures forall c :: c in QueuedCandidates(g, e, inp) ==>
      c.event == e && CandidateTyped(natives, c, g.events[e].context.kind)
  {
    var prepared, kind := g.events[e], g.events[e].context.kind;
    assert EventTyped(natives, prepared, e);
    if prepared.candidates.None? {
      DiscoveredSeedsAreTyped(natives, g.world, kind, inp.seeds);
      SnapshotIsTyped(natives, e, if prepared.prechecked.Some? then prepared.prechecked.value
                                  else Discover(g.world, kind, inp.seeds), inp.queued, kind);
    }
  }

  /** Rewriting a recorded event without changing its kind. */
  lemma RewrittenEventExtends(natives: set<NativeId>, g: Game, e: EventId, p: PreparedEvent)
    requires GameTyped(natives, g) && e in g.events
    requires p.context.kind == g.events[e].context.kind && EventTyped(natives, p, e)
    ensures Extends(natives, g, g.(events := g.events[e := p]))
  {
    RewrittenEventsAreTyped(natives, g.events, g.created, e, p);
  }

  lemma RewrittenEventsAreTyped(natives: set<NativeId>, events: map<EventId, PreparedEvent>, created: map<EventId,
                                EventKind>,
                                e: EventId, p: PreparedEvent)
    requires EventsTyped(natives, events, created) && e in events
    requires p.context.kind == events[e].context.kind && EventTyped(natives, p, e)
    ensures EventsTyped(natives, events[e := p], created)
  {
  }

  lemma AttemptsAreTyped(natives: set<NativeId>, g: Game, e: EventId, candidates: seq<Candidate>)
    requires e in g.created
    requires forall c :: c in candidates ==> c.event == e && CandidateTyped(natives, c, g.created[e])
    ensures AllTyped(natives, g, Attempts(candidates))
  {
    forall op | op in Attempts(candidates) ensures OpTyped(natives, g.world, g.created, op) {
      assert op.candidate in candidates;
    }
  }

  lemma ExpandIsTyped(natives: set<NativeId>, g: Game, e: EventId, inp: Input)
    requires GameTyped(natives, g)
    ensures StaysTyped(natives, g, Expand(g, e, inp))
  {
    if e in g.events {
      var candidates := QueuedCandidates(g, e, inp);
      var p := g.events[e].(candidates := Some(candidates));
      QueuedCandidatesAreTyped(natives, g, e, inp);
      assert EventTyped(natives, g.events[e], e) && EventTyped(natives, p, e);
      RewrittenEventExtends(natives, g, e, p);
      AttemptsAreTyped(natives, g, e, candidates);
      TypedResult(natives, g, Expand(g, e, inp));
    }
  }

  lemma AttemptIsTyped(natives: set<NativeId>, g: Game, id: ResolutionId, c: Candidate, inp: Input)
    requires GameTyped(natives, g) && c.event in g.created && CandidateTyped(natives, c, g.created[c.event])
    ensures StaysTyped(natives, g, Attempt(g, id, c, inp))
  {
    Unchanged(natives, g);
    var r := Attempt(g, id, c, inp);
    if r.Ok? && inp.eligible {
      var targets := g.events[c.event].context.targets;
      var context := EffectContext(if c.source in g.world then Some(c.source) else None, c.controller,
                                   if targets == [] then None else Some(targets[0]), None);
      EffectsAreTyped(natives, g, context, c.definition.program, Some(c.event), None);
    }
    TypedResult(natives, g, r);
  }

  lemma TakenEventExtends(natives: set<NativeId>, g: Game, e: EventId)
    requires GameTyped(natives, g)
    ensures Extends(natives, g, TakeEvent(g, e))
  {
  }

  lemma {:induction false} DeathsExtend(natives: set<NativeId>, g: Game, deaths: seq<DeathRecord>)
    requires GameTyped(natives, g)
    ensures Extends(natives, g, RecordDeaths(g, deaths))
    decreases |deaths|
  {
    if deaths == [] {
      Unchanged(natives, g);
    } else {
      var d := deaths[0];
      DiscoveredSeedsAreTyped(natives, g.world, Death, d.seeds);
      RecordExtends(natives, g, Plain(Death, Some(d.entity), [d.entity], d.controller),
                    Some(Discover(g.world, Death, d.seeds)));
      DeathsExtend(natives, RecordDeath(g, d), deaths[1..]);
      ExtendsTransitively(natives, g, RecordDeath(g, d), RecordDeaths(g, deaths));
    }
  }

  lemma {:induction false} ResolvesAreTyped(natives: set<NativeId>, g: Game, first: EventId, count: nat)
    ensures AllTyped(natives, g, ResolveFrom(first, count))
    decreases count
  {
    if count > 0 { ResolvesAreTyped(natives, g, first + 1, count - 1); }
  }

  lemma PhaseBoundaryIsTyped(natives: set<NativeId>, g: Game, inp: Input)
    requires GameTyped(natives, g)
    ensures StaysTyped(natives, g, Ok(PhaseBoundary(g, inp)))
  {
    MovedExtends(natives, g, inp);
    DeathsExtend(natives, Moved(g, inp), inp.deaths);
    var step := PhaseBoundary(g, inp);
    ExtendsTransitively(natives, g, Moved(g, inp), step.game);
    ResolvesAreTyped(natives, step.game, g.nextEvent, |inp.deaths|);
    TypedResult(natives, g, Ok(step));
  }

  // ---------- Damage and healing ----------

  lemma {:induction false} SlotOpsAreTyped(natives: set<NativeId>, g: Game, first: SlotId, count: nat)
    ensures AllTyped(natives, g, SlotOps(first, count))
    decreases count
  {
    if count > 0 { SlotOpsAreTyped(natives, g, first + 1, count - 1); }
  }

  lemma {:induction false} HealthOpsAreTyped(natives: set<NativeId>, g: Game, damage: bool,
                                             requests: seq<HealthRequest>, first: SlotId)
    ensures AllTyped(natives, g, HealthOps(damage, requests, first))
    decreases |requests|
  {
    if requests != [] { HealthOpsAreTyped(natives, g, damage, requests[1..], first + 1); }
  }

  lemma ExpandBatchIsTyped(natives: set<NativeId>, g: Game, damage: bool, requests: seq<HealthRequest>)
    requires GameTyped(natives, g)
    ensures StaysTyped(natives, g, Ok(ExpandBatch(g, damage, requests)))
  {
    var step := ExpandBatch(g, damage, requests);
    OtherTables(natives, g, step.game);
    HealthOpsAreTyped(natives, step.game, damage, requests, g.nextSlot);
    SlotOpsAreTyped(natives, step.game, g.nextSlot, |requests|);
    TypedResult(natives, g, Ok(step));
  }

  lemma ProcessHealthIsTyped(natives: set<NativeId>, g: Game, damage: bool, request: HealthRequest, slot: SlotId,
                             inp: Input)
    requires GameTyped(natives, g)
    ensures StaysTyped(natives, g, Ok(ProcessHealth(g, damage, request, slot, inp)))
  {
    var step := ProcessHealth(g, damage, request, slot, inp);
    MovedExtends(natives, g, inp);
    if step.pushes != [] {
      RecordExtends(natives, Moved(g, inp), step.game.events[g.nextEvent].context, None);
      ExtendsTransitively(natives, g, Moved(g, inp), step.game);
    }
    TypedResult(natives, g, Ok(step));
  }

  lemma ApplyHealthIsTyped(natives: set<NativeId>, g: Game, damage: bool, request: HealthRequest, e: EventId,
                           slot: SlotId,
                           inp: Input)
    requires GameTyped(natives, g)
    ensures StaysTyped(natives, g, ApplyHealth(g, damage, request, e, slot, inp))
  {
    if e in g.events {
      TakenEventExtends(natives, g, e);
      MovedExtends(natives, TakeEvent(g, e), inp);
      var taken := Moved(TakeEvent(g, e), inp);
      ExtendsTransitively(natives, g, TakeEvent(g, e), taken);
      var proposed := ProposedValue(g.events[e]);
      var actual := ActualChange(damage, proposed, inp.operand);
      if actual == 0 {
        TypedResult(natives, g, Ok(Step(taken, [])));
      } else {
        var context := EventContext(if damage then DamageDealt else Healed, request.source, [request.target],
                                    inp.nextPlayer, Some(proposed), Some(actual));
        FillSlotIsTyped(natives, g, taken, slot, context);
      }
    }
  }

  lemma FillSlotIsTyped(natives: set<NativeId>, g: Game, h: Game, slot: SlotId, context: EventContext)
    requires Extends(natives, g, h) && context.proposed.Some?
    ensures StaysTyped(natives, g, FillSlot(h, slot, context))
  {
    var recorded := Record(h, context, None);
    RecordExtends(natives, h, context, None);
    ExtendsTransitively(natives, g, h, recorded);
    if slot in h.slots {
      OtherTables(natives, recorded, recorded.(slots := h.slots[slot := Some(h.nextEvent)]));
      ExtendsTransitively(natives, g, recorded, recorded.(slots := h.slots[slot := Some(h.nextEvent)]));
    }
    TypedResult(natives, g, FillSlot(h, slot, context));
  }

  // ---------- Draws ----------

  lemma {:induction false} DrawOpsAreTyped(natives: set<NativeId>, g: Game, player: PlayerId, source: Option<EntityId>,
                                           first: DrawId, count: nat)
    ensures AllTyped(natives, g, DrawOps(player, source, first, count))
    decreases count
  {
    if count > 0 { DrawOpsAreTyped(natives, g, player, source, first + 1, count - 1); }
  }

  lemma FillDrawIsTyped(natives: set<NativeId>, g: Game, player: PlayerId, source: Option<EntityId>, d: DrawId,
                        inp: Input)
    requires GameTyped(natives, g)
    ensures StaysTyped(natives, g, FillDraw(g, player, source, d, inp))
  {
    var r := FillDraw(g, player, source, d, inp);
    if r.Ok? {
      var filled := Moved(g, inp).(draws := g.draws[d := Some(inp.outcome)]);
      MovedExtends(natives, g, inp);
      OtherTables(natives, Moved(g, inp), filled);
      ExtendsTransitively(natives, g, Moved(g, inp), filled);
      if inp.outcome.Drawn? {
        RecordExtends(natives, filled, Plain(CardDrawn, source, [inp.outcome.card], player), None);
        ExtendsTransitively(natives, g, filled, r.value.game);
      }
    }
    TypedResult(natives, g, r);
  }

  lemma ContinueDrawIsTyped(natives: set<NativeId>, g: Game, d: DrawId, context: EffectContext, effects: seq<Effect>,
                            policy: DrawPolicy)
    requires GameTyped(natives, g) && Accepted(natives, effects, None)
    ensures StaysTyped(natives, g, ContinueWithDraw(g, d, context, effects, policy))
  {
    var taken := g.(draws := g.draws - {d});
    OtherTables(natives, g, taken);
    forall c: EffectContext ensures AllTyped(natives, taken, Effects(c, effects, None, None)) {
      EffectsAreTyped(natives, taken, c, effects, None, None);
    }
    TypedResult(natives, g, ContinueWithDraw(g, d, context, effects, policy));
  }
}
