/**
 Validated programs do not go wrong.

 A pending operation is typed when the programs it carries were accepted for
 the context they will run in. Executing a typed operation pushes typed
 operations, and never finds an event value it may not modify, a played-self
 transform outside its play, or a program the validator would refuse.
 */
module ResolutionTyping {
  import opened Outcomes
  import opened Players
  import opened EffectLanguage
  import opened ResolutionMachine

  // ---------- Typed tables and operations ----------

  predicate Accepted(natives: set<NativeId>, program: seq<Effect>, event: Option<EventKind>) {
    CheckProgram(natives, program, event, false).None?
  }

  predicate SeedTyped(natives: set<NativeId>, s: Seed, kind: EventKind) {
    s.definition.event == kind && Accepted(natives, s.definition.program, Some(kind))
  }

  predicate CandidateTyped(natives: set<NativeId>, c: Candidate, kind: EventKind) {
    c.definition.event == kind && Accepted(natives, c.definition.program, Some(kind))
  }

  /** A proposed event has a value to modify, and all its triggers were accepted for its kind. */
  predicate EventTyped(natives: set<NativeId>, p: PreparedEvent, e: EventId) {
    var kind := p.context.kind;
    && (Proposed(kind) ==> p.context.proposed.Some?)
    && (p.prechecked.Some? ==> forall s :: s in p.prechecked.value ==> SeedTyped(natives, s, kind))
    && (p.candidates.Some? ==> forall c :: c in p.candidates.value ==> c.event == e && CandidateTyped(natives, c, kind))
  }

  ghost predicate EventsTyped(natives: set<NativeId>, events: map<EventId, PreparedEvent>, created: map<EventId,
                              EventKind>) {
    forall e :: e in events ==>
      e in created && created[e] == events[e].context.kind && EventTyped(natives, events[e], e)
  }

  /** Every trigger that some zone makes active was accepted for the event it watches. */
  predicate TriggersTyped(natives: set<NativeId>, triggers: seq<Trigger>) {
    triggers != [] ==>
      && (triggers[0].eligibleZones != [] ==> Accepted(natives, triggers[0].program, Some(triggers[0].event)))
      && TriggersTyped(natives, triggers[1..])
  }

  ghost predicate WorldTyped(natives: set<NativeId>, world: map<EntityId, GameEntity>) {
    forall x :: x in world ==> TriggersTyped(natives, world[x].card.triggers)
  }

  lemma {:induction false} EachTriggerIsTyped(natives: set<NativeId>, triggers: seq<Trigger>)
    ensures TriggersTyped(natives, triggers) <==>
            forall t :: t in triggers && t.eligibleZones != [] ==> Accepted(natives, t.program, Some(t.event))
  {
    if triggers != [] {
      EachTriggerIsTyped(natives, triggers[1..]);
      assert triggers == [triggers[0]] + triggers[1..];
    }
  }

  lemma {:induction false} CheckedTriggersAreTyped(natives: set<NativeId>, triggers: seq<Trigger>)
    requires CheckTriggers(natives, triggers).None?
    ensures TriggersTyped(natives, triggers)
  {
    if triggers != [] { CheckedTriggersAreTyped(natives, triggers[1..]); }
  }

  ghost predicate CreatedBelow(created: map<EventId, EventKind>, next: EventId) {
    forall e :: e in created ==> e < next
  }

  ghost predicate GameTyped(natives: set<NativeId>, g: Game) {
    && WorldTyped(natives, g.world) && EntitiesBelow(g.world, g.nextEntity)
    && EventsTyped(natives, g.events, g.created) && CreatedBelow(g.created, g.nextEvent)
  }

  /** Events keep their kind; a card in the world stays or is replaced by an accepted minion. */
  ghost predicate CreatedGrows(c: map<EventId, EventKind>, d: map<EventId, EventKind>) {
    forall e :: e in c ==> e in d && d[e] == c[e]
  }

  ghost predicate WorldGrows(natives: set<NativeId>, w: map<EntityId, GameEntity>, v: map<EntityId, GameEntity>) {
    forall x :: x in w ==> x in v && CardGrows(natives, w[x].card, v[x].card)
  }

  predicate CardGrows(natives: set<NativeId>, c: Card, d: Card) {
    c == d || (c.kind == Minion && d.kind == Minion && CheckCard(natives, d).None?)
  }

  /** The program of a playable card was accepted for its kind, and only weapons pay durability. */
  predicate Playable(natives: set<NativeId>, card: Card) {
    CheckProgram(natives, card.effects, None, card.kind == Minion).None?
  }

  predicate StepTyped(natives: set<NativeId>, world: map<EntityId, GameEntity>, step: SequenceStep) {
    match step
    case PlayCard(_, id, _) => id in world && Playable(natives, world[id].card)
    case UseHeroPower(_, id, _) =>
      id in world && Playable(natives, world[id].card) && world[id].card.kind != Minion
    case ConsumeDurability(_, weapon) => weapon in world && world[weapon].card.kind == Weapon
    case _ => true
  }

  predicate OpTyped(natives: set<NativeId>, world: map<EntityId, GameEntity>, created: map<EventId, EventKind>,
                    op: Operation) {
    match op
    case RunStep(step) => StepTyped(natives, world, step)
    case RunGuardedStep(_, step) => StepTyped(natives, world, step)
    case PrepareEvent(context) => Proposed(context.kind) ==> context.proposed.Some?
    case AttemptTrigger(c) => c.event in created && CandidateTyped(natives, c, created[c.event])
    case RunPlayEffect(_, _, effect) => CheckEffect(natives, effect, None, true).None?
    case RunEffect(_, effect, event) =>
      && (event.Some? ==> event.value in created)
      && CheckEffect(natives, effect, if event.Some? then Some(created[event.value]) else None, false).None?
    case ContinueDraw(_, _, effects, _) => Accepted(natives, effects, None)
    case TransformEntity(scope, target, source, card, kind) =>
      && CheckCard(natives, card).None?
      && (kind == PlayedSelf ==> scope.Some? && source == Some(target))
      && (kind != PlayedSelf ==> scope.None?)
    case FinishPlayedSelf(_, seeds) => forall s :: s in seeds ==> SeedTyped(natives, s, AfterPlay)
    case RequestChoice(request) => ValidChoice(natives, request)
    case _ => true
  }

  ghost predicate AllTyped(natives: set<NativeId>, g: Game, ops: seq<Operation>) {
    forall op :: op in ops ==> OpTyped(natives, g.world, g.created, op)
  }

  /** Failures a validated program must never meet. */
  predicate GoesWrong(f: Failure) {
    match f
    case NothingToModify => true
    case PlayedSelfNeedsScope => true
    case OrdinaryTransformHasScope => true
    case InvalidProgram(_) => true
    case NativeUnregistered(_) => true
    case _ => false
  }

  ghost predicate StaysTyped(natives: set<NativeId>, g: Game, r: StepResult) {
    match r
    case Err(f) => !GoesWrong(f)
    case Ok(step) =>
      && GameTyped(natives, step.game) && AllTyped(natives, step.game, step.pushes)
      && CreatedGrows(g.created, step.game.created) && WorldGrows(natives, g.world, step.game.world)
  }

  /** A typed operation stays typed while the game goes on above it. */
  lemma TypedLater(natives: set<NativeId>, g: Game, h: Game, op: Operation)
    requires OpTyped(natives, g.world, g.created, op)
    requires CreatedGrows(g.created, h.created) && WorldGrows(natives, g.world, h.world)
    ensures OpTyped(natives, h.world, h.created, op)
  {
    if op.RunStep? || op.RunGuardedStep? {
      StepTypedLater(natives, g.world, h.world, op.step);
    }
  }

  lemma StepTypedLater(natives: set<NativeId>, w: map<EntityId, GameEntity>, v: map<EntityId, GameEntity>,
                       step: SequenceStep)
    requires StepTyped(natives, w, step) && WorldGrows(natives, w, v)
    ensures StepTyped(natives, v, step)
  {
    if step.PlayCard? {
      assert CardGrows(natives, w[step.card].card, v[step.card].card);
    } else if step.UseHeroPower? {
      assert CardGrows(natives, w[step.power].card, v[step.power].card);
    } else if step.ConsumeDurability? {
      assert CardGrows(natives, w[step.weapon].card, v[step.weapon].card);
    }
  }

  // ---------- Primitives ----------

  ghost predicate Extends(natives: set<NativeId>, g: Game, h: Game) {
    GameTyped(natives, h) && CreatedGrows(g.created, h.created) && WorldGrows(natives, g.world, h.world)
  }

  lemma MovedExtends(natives: set<NativeId>, g: Game, inp: Input)
    requires GameTyped(natives, g)
    ensures Extends(natives, g, Moved(g, inp))
  {
  }

  lemma ExtendsTransitively(natives: set<NativeId>, g: Game, h: Game, i: Game)
    requires Extends(natives, g, h) && Extends(natives, h, i)
    ensures Extends(natives, g, i)
  {
    forall x | x in g.world ensures x in i.world && CardGrows(natives, g.world[x].card, i.world[x].card) {
      assert CardGrows(natives, g.world[x].card, h.world[x].card);
    }
  }

  lemma {:induction false} SpawnExtends(natives: set<NativeId>, g: Game, cards: seq<Card>, zone: Zone,
                                        controller: PlayerId)
    requires GameTyped(natives, g) && forall c :: c in cards ==> TriggersTyped(natives, c.triggers)
    ensures Extends(natives, g, Spawn(g, cards, zone, controller))
    decreases |cards|
  {
    if cards != [] {
      var one := g.(world := g.world[g.nextEntity := GameEntity(cards[0], zone, controller, false)],
                    nextEntity := g.nextEntity + 1);
      assert Extends(natives, g, one);
      SpawnExtends(natives, one, cards[1..], zone, controller);
      ExtendsTransitively(natives, g, one, Spawn(g, cards, zone, controller));
    }
  }

  ghost predicate SeedsTyped(natives: set<NativeId>, seeds: Option<seq<Seed>>, kind: EventKind) {
    seeds.Some? ==> forall s :: s in seeds.value ==> SeedTyped(natives, s, kind)
  }

  lemma RecordExtends(natives: set<NativeId>, g: Game, context: EventContext, seeds: Option<seq<Seed>>)
    requires GameTyped(natives, g) && (Proposed(context.kind) ==> context.proposed.Some?)
    requires SeedsTyped(natives, seeds, context.kind)
    ensures Extends(natives, g, Record(g, context, seeds))
  {
    assert EventTyped(natives, PreparedEvent(context, seeds, None), g.nextEvent);
  }

  /** Discovered seeds come from the world, whose triggers were accepted. */
  lemma DiscoveredSeedsAreTyped(natives: set<NativeId>, world: map<EntityId, GameEntity>, kind: EventKind,
                                offered: seq<Seed>)
    requires WorldTyped(natives, world)
    ensures forall s :: s in Discover(world, kind, offered) ==> SeedTyped(natives, s, kind)
  {
    forall s | s in Discover(world, kind, offered) ensures SeedTyped(natives, s, kind) {
      assert Discoverable(world, kind, s);
      EachTriggerIsTyped(natives, world[s.source].card.triggers);
    }
  }

  lemma SnapshotIsTyped(natives: set<NativeId>, e: EventId, seeds: seq<Seed>, queued: seq<Seed>, kind: EventKind)
    requires forall s :: s in seeds ==> SeedTyped(natives, s, kind)
    ensures forall c :: c in Snapshot(e, seeds, queued) ==> CandidateTyped(natives, c, kind) && c.event == e
  {
  }

  /** The operations of an accepted program are typed. */
  lemma EffectsAreTyped(natives: set<NativeId>, g: Game, context: EffectContext, effects: seq<Effect>,
                        event: Option<EventId>, scope: Option<ResolutionId>)
    requires event.Some? ==> event.value in g.created && scope.None?
    requires var kind := if event.Some? then Some(g.created[event.value]) else None;
             CheckProgram(natives, effects, kind, scope.Some?).None?
    ensures AllTyped(natives, g, Effects(context, effects, event, scope))
  {
    AcceptedMeansEveryEffect(natives, effects, if event.Some? then Some(g.created[event.value]) else None, scope.Some?);
  }

  lemma AllTypedTogether(natives: set<NativeId>, g: Game, xs: seq<Operation>, ys: seq<Operation>)
    requires AllTyped(natives, g, xs) && AllTyped(natives, g, ys)
    ensures AllTyped(natives, g, xs + ys)
  {
  }
}
