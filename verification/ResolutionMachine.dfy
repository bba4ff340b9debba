/**
 One-shot resolution operations and what executing each of them does.

 An operation changes the game state, which holds the side tables, and names
 the operations to run next, in execution order. It is never shown the pending
 stack. Whatever it reads from the game world beyond the entities' cards, zones
 and controllers arrives in its Input.
 */
module ResolutionMachine {
  import opened Outcomes
  import opened Players
  import opened EffectLanguage

  datatype EffectContext = EffectContext(
    source: Option<EntityId>, controller: PlayerId, declaredTarget: Option<EntityId>, drawnCard: Option<EntityId>)

  datatype EventContext = EventContext(
    kind: EventKind, source: Option<EntityId>, targets: seq<EntityId>, controller: PlayerId,
    proposed: Option<int>, actual: Option<int>)

  datatype Seed = Seed(source: EntityId, definition: Trigger, controller: PlayerId)
  datatype Candidate = Candidate(source: EntityId, event: EventId, definition: Trigger, controller: PlayerId)

  datatype PreparedEvent =
    PreparedEvent(context: EventContext, prechecked: Option<seq<Seed>>, candidates: Option<seq<Candidate>>)

  datatype DrawOutcome = Drawn(card: EntityId) | Burned(card: EntityId) | Fatigue(amount: nat)

  datatype HealthRequest = HealthRequest(source: Option<EntityId>, target: EntityId, proposed: int)

  datatype ChoiceOption = ChoiceOption(id: ChoiceId, operations: seq<Operation>)
  datatype ChoiceRequest = ChoiceRequest(id: ChoiceId, player: PlayerId, options: seq<ChoiceOption>)

  datatype Guard = Guard(subject: EntityId, zone: Zone)

  datatype SequenceStep =
    | PlayCard(player: PlayerId, card: EntityId, target: Option<EntityId>)
    | UseHeroPower(player: PlayerId, power: EntityId, target: Option<EntityId>)
    | FinishHeroPower(power: EntityId)
    | Attack(player: PlayerId, attacker: EntityId, defender: EntityId)
    | PrepareCombatDamage(player: PlayerId, attacker: EntityId, defender: EntityId)
    | FinishEquip(weapon: EntityId)
    | ConsumeDurability(player: PlayerId, weapon: EntityId)
    | BreakAttackStealth(attacker: EntityId)
    | FinishAttack(player: PlayerId, attacker: EntityId, defender: EntityId)
    | EndTurn(player: PlayerId)
    | ThawCharacters(player: PlayerId)
    | AdvanceTurn(player: PlayerId)
    | StartTurn(player: PlayerId)
    | Concede(player: PlayerId)

  datatype Operation =
    | RunStep(step: SequenceStep)
    | RunGuardedStep(guards: seq<Guard>, step: SequenceStep)
    | RunPhaseBoundary
    | RefreshAuras
    | CheckOutcome
    | PrepareEvent(eventContext: EventContext)
    | ResolveEvent(event: EventId)
    | FinishEvent(event: EventId)
    | ResolveEventSlot(slot: SlotId)
    | AttemptTrigger(candidate: Candidate)
    | FinishTrigger(attempt: ResolutionId, trigger: EntityId)
    | RunPlayEffect(scope: ResolutionId, context: EffectContext, effect: Effect)
    | RunEffect(context: EffectContext, effect: Effect, borrowed: Option<EventId>)
    | ProcessDamageBatch(requests: seq<HealthRequest>)
    | ProcessDamage(request: HealthRequest, slot: SlotId)
    | ApplyDamage(request: HealthRequest, event: EventId, slot: SlotId)
    | ProcessHealingBatch(requests: seq<HealthRequest>)
    | ProcessHealing(request: HealthRequest, slot: SlotId)
    | ApplyHealing(request: HealthRequest, event: EventId, slot: SlotId)
    | ProcessDraw(drawer: PlayerId, drawSource: Option<EntityId>, result: DrawId)
    | FinishDraw(result: DrawId)
    | ContinueDraw(result: DrawId, context: EffectContext, effects: seq<Effect>, policy: DrawPolicy)
    | TransformEntity(playScope: Option<ResolutionId>, target: EntityId, source: Option<EntityId>, card: Card,
                      kind: TransformKind)
    | FinishPlayedSelf(subject: EntityId, originalAfterPlay: seq<Seed>)
    | CopyEntity(original: EntityId, originating: Option<EntityId>, copyController: PlayerId, destination: Zone,
                 playState: bool)
    | RequestChoice(choice: ChoiceRequest)

  datatype GameEntity = GameEntity(card: Card, zone: Zone, controller: PlayerId, silenced: bool)
  datatype Placement = Placement(zone: Zone, controller: PlayerId, silenced: bool)

  type Payer = (PlayerId, EntityId)

  /** The game: its entities, the side tables of the resolution, and the kinds of all events ever created. */
  datatype Game = Game(
    world: map<EntityId, GameEntity>,
    nextEntity: EntityId,
    events: map<EventId, PreparedEvent>,
    nextEvent: EventId,
    slots: map<SlotId, Option<EventId>>,
    nextSlot: SlotId,
    draws: map<DrawId, Option<DrawOutcome>>,
    nextDraw: DrawId,
    scopes: map<ResolutionId, EntityId>,
    payers: map<ResolutionId, Payer>,
    transforms: set<EntityId>,
    equips: map<EntityId, Option<EntityId>>,
    over: bool,
    created: map<EventId, EventKind>)

  /** What an operation reads from its surroundings: registered natives, the budget left, the next id. */
  datatype Env = Env(natives: set<NativeId>, budget: nat, next: ResolutionId)

  datatype DeathRecord = DeathRecord(entity: EntityId, controller: PlayerId, seeds: seq<Seed>)

  /** The world's answers while one operation executes. */
  datatype Input = Input(
    fails: bool,
    targets: seq<EntityId>,
    seeds: seq<Seed>,
    queued: seq<Seed>,
    eligible: bool,
    placements: map<EntityId, Placement>,
    deaths: seq<DeathRecord>,
    defeated: bool,
    passes: bool,
    operand: int,
    outcome: DrawOutcome,
    hero: EntityId,
    plan: Option<seq<Effect>>,
    weapon: Option<EntityId>,
    counterDamage: int,
    attachments: seq<EntityId>,
    nextPlayer: PlayerId)

  datatype Failure =
    | BudgetExhausted(operation: Option<ResolutionId>)
    | MissingEvent(event: EventId)
    | MissingEventSlot(slot: SlotId)
    | MissingDrawResult(draw: DrawId)
    | DrawResultAlreadyFilled(draw: DrawId)
    | EmptyDrawResult(draw: DrawId)
    | DurabilityPayerDiffers
    | CopyPolicyDiffers
    | MissingReplacementScope
    | PendingChoiceExists
    | InvalidPlayScope
    | PlayedSelfNeedsScope
    | OrdinaryTransformHasScope
    | NothingToModify
    | InvalidProgram(error: ProgramError)
    | NativeUnregistered(native: NativeId)
    | NativePlanRejected(error: ProgramError)
    | CopiedCardRejected(error: ProgramError)
    | EntityNotFound(entity: EntityId)
    | WorldRejected

  datatype Step = Step(game: Game, pushes: seq<Operation>)
  type StepResult = Result<Step, Failure>

  // ---------- World and table primitives ----------

  /** Entities may be moved, change controller or be silenced; none disappears and no card changes. */
  function Moved(g: Game, inp: Input): Game {
    g.(world := map e | e in g.world ::
         Placed(g.world[e], if e in inp.placements then Some(inp.placements[e]) else None))
  }

  lemma Unmoved(g: Game, inp: Input)
    requires inp.placements == map[]
    ensures Moved(g, inp) == g
  {
    assert Moved(g, inp).world == g.world;
  }

  function Placed(e: GameEntity, p: Option<Placement>): GameEntity {
    if p.None? then e else GameEntity(e.card, p.value.zone, p.value.controller, p.value.silenced)
  }

  /** Entity ids are given out in order. */
  ghost predicate EntitiesBelow(world: map<EntityId, GameEntity>, next: EntityId) {
    forall x :: x in world ==> x < next
  }

  function Spawn(g: Game, cards: seq<Card>, zone: Zone, controller: PlayerId): (r: Game)
    ensures r == g.(world := r.world, nextEntity := r.nextEntity)
    decreases |cards|
  {
    if cards == [] then g else
      Spawn(g.(world := g.world[g.nextEntity := GameEntity(cards[0], zone, controller, false)],
               nextEntity := g.nextEntity + 1), cards[1..], zone, controller)
  }

  function Record(g: Game, context: EventContext, seeds: Option<seq<Seed>>): Game {
    g.(events := g.events[g.nextEvent := PreparedEvent(context, seeds, None)],
       created := g.created[g.nextEvent := context.kind],
       nextEvent := g.nextEvent + 1)
  }

  /** A seed is a trigger that an unsilenced entity of the world carries, for this kind, in an eligible zone. */
  predicate Discoverable(world: map<EntityId, GameEntity>, kind: EventKind, s: Seed) {
    && s.source in world && !world[s.source].silenced
    && s.definition in world[s.source].card.triggers && s.definition.event == kind
    && world[s.source].zone in s.definition.eligibleZones
  }

  function Discover(world: map<EntityId, GameEntity>, kind: EventKind, offered: seq<Seed>): (seeds: seq<Seed>)
    ensures forall s :: s in seeds ==> Discoverable(world, kind, s)
  {
    if offered == [] then [] else
      (if Discoverable(world, kind, offered[0]) then [offered[0]] else []) + Discover(world, kind, offered[1..])
  }

  /** The snapshot of the seeds that pass their queue-time conditions, in the order the queue gives them. */
  function Snapshot(event: EventId, seeds: seq<Seed>, queued: seq<Seed>): (candidates: seq<Candidate>)
    ensures forall c :: c in candidates ==>
      c.event == event && exists s :: s in seeds && s.definition == c.definition
  {
    if queued == [] then [] else
      (if queued[0] in seeds
       then [Candidate(queued[0].source, event, queued[0].definition, queued[0].controller)] else [])
      + Snapshot(event, seeds, queued[1..])
  }

  function Attempts(candidates: seq<Candidate>): (ops: seq<Operation>)
    ensures |ops| == |candidates|
    ensures forall i :: 0 <= i < |ops| ==> ops[i] == AttemptTrigger(candidates[i])
  {
    seq(|candidates|, i requires 0 <= i < |candidates| => AttemptTrigger(candidates[i]))
  }

  function Effects(context: EffectContext, effects: seq<Effect>, event: Option<EventId>, scope: Option<ResolutionId>)
    : (ops: seq<Operation>)
    ensures |ops| == |effects|
    ensures forall i :: 0 <= i < |ops| ==>
      ops[i] == if scope.Some? then RunPlayEffect(scope.value, context, effects[i])
        else RunEffect(context, effects[i], event)
  {
    seq(|effects|, i requires 0 <= i < |effects| =>
      if scope.Some? then RunPlayEffect(scope.value, context, effects[i]) else RunEffect(context, effects[i], event))
  }

  function ResolvePlayer(controller: PlayerId, selector: PlayerSelector): PlayerId {
    match selector
    case Controller => controller
    case OtherPlayer => controller.Opponent()
    case Exactly(player) => player
  }

  function FromOption(o: Option<EntityId>): seq<EntityId> {
    if o.Some? then [o.value] else []
  }

  function Select(context: EffectContext, selector: Selector, inp: Input): seq<EntityId> {
    match selector
    case Source => FromOption(context.source)
    case DrawnCard => FromOption(context.drawnCard)
    case DeclaredTarget => FromOption(context.declaredTarget)
    case Entity(e) => [e]
    case _ => inp.targets
  }

  const I32_MAX: int := 0x7fff_ffff
  const I32_MIN: int := -0x8000_0000

  function Saturate(x: int): int {
    if x > I32_MAX then I32_MAX else if x < I32_MIN then I32_MIN else x
  }

  function Plain(kind: EventKind, source: Option<EntityId>, targets: seq<EntityId>,
                 controller: PlayerId): EventContext {
    EventContext(kind, source, targets, controller, None, None)
  }

  // ---------- Events ----------

  /** The snapshot is taken once; the seeds are the pre-checked ones or those discovered now. */
  function QueuedCandidates(g: Game, event: EventId, inp: Input): seq<Candidate>
    requires event in g.events
  {
    var prepared := g.events[event];
    if prepared.candidates.Some? then prepared.candidates.value else
      Snapshot(event, if prepared.prechecked.Some? then prepared.prechecked.value
                      else Discover(g.world, prepared.context.kind, inp.seeds), inp.queued)
  }

  function Expand(g: Game, event: EventId, inp: Input): StepResult {
    if event !in g.events then Err(MissingEvent(event)) else
      var candidates := QueuedCandidates(g, event, inp);
      Ok(Step(g.(events := g.events[event := g.events[event].(candidates := Some(candidates))]),
              Attempts(candidates) + if Proposed(g.events[event].context.kind) then [] else [FinishEvent(event)]))
  }

  function Attempt(g: Game, id: ResolutionId, c: Candidate, inp: Input): StepResult {
    if c.event !in g.events then Err(MissingEvent(c.event)) else
      if !inp.eligible then Ok(Step(g, [])) else
        var targets := g.events[c.event].context.targets;
        var context := EffectContext(if c.source in g.world then Some(c.source) else None, c.controller,
                                     if targets == [] then None else Some(targets[0]), None);
        Ok(Step(g, Effects(context, c.definition.program, Some(c.event), None) + [FinishTrigger(id, c.source)]))
  }

  function TakeEvent(g: Game, event: EventId): Game {
    g.(events := g.events - {event})
  }

  function RunSlot(g: Game, slot: SlotId): StepResult {
    if slot !in g.slots then Err(MissingEventSlot(slot)) else
      Ok(Step(g.(slots := g.slots - {slot}),
              if g.slots[slot].Some? then [ResolveEvent(g.slots[slot].value)] else []))
  }

  function RecordDeath(g: Game, d: DeathRecord): Game {
    Record(g, Plain(Death, Some(d.entity), [d.entity], d.controller), Some(Discover(g.world, Death, d.seeds)))
  }

  /** Death events and their pre-checked triggers are frozen together before any of them resolves. */
  function RecordDeaths(g: Game, deaths: seq<DeathRecord>): (r: Game)
    ensures r == g.(events := r.events, created := r.created, nextEvent := r.nextEvent)
    decreases |deaths|
  {
    if deaths == [] then g else RecordDeaths(RecordDeath(g, deaths[0]), deaths[1..])
  }

  function ResolveFrom(first: EventId, count: nat): seq<Operation>
    decreases count
  {
    if count == 0 then [] else [ResolveEvent(first)] + ResolveFrom(first + 1, count - 1)
  }

  function PhaseBoundary(g: Game, inp: Input): Step {
    Step(RecordDeaths(Moved(g, inp), inp.deaths),
         if inp.deaths == [] then [] else ResolveFrom(g.nextEvent, |inp.deaths|) + [RunPhaseBoundary])
  }

  // ---------- Damage and healing ----------

  function AllocateSlot(g: Game): Game {
    g.(slots := g.slots[g.nextSlot := None], nextSlot := g.nextSlot + 1)
  }

  function AllocateSlots(g: Game, count: nat): (r: Game)
    ensures r == g.(slots := r.slots, nextSlot := r.nextSlot)
    decreases count
  {
    if count == 0 then g else AllocateSlots(AllocateSlot(g), count - 1)
  }

  function SlotOps(first: SlotId, count: nat): seq<Operation>
    decreases count
  {
    if count == 0 then [] else [ResolveEventSlot(first)] + SlotOps(first + 1, count - 1)
  }

  function HealthOps(damage: bool, requests: seq<HealthRequest>, first: SlotId): seq<Operation> {
    if requests == [] then [] else
      [if damage then ProcessDamage(requests[0], first) else ProcessHealing(requests[0], first)]
      + HealthOps(damage, requests[1..], first + 1)
  }

  /** One empty slot for each request; every request is processed before any slot resolves. */
  function ExpandBatch(g: Game, damage: bool, requests: seq<HealthRequest>): Step {
    Step(AllocateSlots(g, |requests|), HealthOps(damage, requests, g.nextSlot) + SlotOps(g.nextSlot, |requests|))
  }

  function ProcessHealth(g: Game, damage: bool, request: HealthRequest, slot: SlotId, inp: Input): Step {
    var proposed := if request.proposed < 0 then 0 else request.proposed;
    if proposed == 0 || (damage && !inp.passes) then Step(Moved(g, inp), []) else
      var event := g.nextEvent;
      var kind := if damage then ProposedDamage else ProposedHealing;
      var r := request.(proposed := proposed);
      Step(Record(Moved(g, inp), EventContext(kind, r.source, [r.target], inp.nextPlayer, Some(proposed), None), None),
           [ResolveEvent(event), if damage then ApplyDamage(r, event, slot) else ApplyHealing(r, event, slot)])
  }

  function FillSlot(g: Game, slot: SlotId, context: EventContext): StepResult {
    if slot !in g.slots then Err(MissingEventSlot(slot)) else
      Ok(Step(Record(g, context, None).(slots := g.slots[slot := Some(g.nextEvent)]), []))
  }

  function ProposedValue(p: PreparedEvent): nat {
    if p.context.proposed.None? || p.context.proposed.value < 0 then 0 else p.context.proposed.value
  }

  /** Damage lands in full, on armor or on health; healing is bounded by the damage there is. */
  function ActualChange(damage: bool, proposed: nat, operand: int): nat {
    if damage || operand > proposed then proposed else if operand < 0 then 0 else operand
  }

  function ApplyHealth(g: Game, damage: bool, request: HealthRequest, event: EventId, slot: SlotId, inp: Input)
    : StepResult
  {
    if event !in g.events then Err(MissingEvent(event)) else
      var proposed := ProposedValue(g.events[event]);
      var actual := ActualChange(damage, proposed, inp.operand);
      var taken := Moved(TakeEvent(g, event), inp);
      if actual == 0 then Ok(Step(taken, [])) else
        FillSlot(taken, slot, EventContext(if damage then DamageDealt else Healed, request.source, [request.target],
                                           inp.nextPlayer, Some(proposed), Some(actual)))
  }

  // ---------- Draws ----------

  function AllocateDraw(g: Game): Game {
    g.(draws := g.draws[g.nextDraw := None], nextDraw := g.nextDraw + 1)
  }

  function AllocateDraws(g: Game, count: nat): (r: Game)
    ensures r == g.(draws := r.draws, nextDraw := r.nextDraw)
    decreases count
  {
    if count == 0 then g else AllocateDraws(AllocateDraw(g), count - 1)
  }

  function DrawOps(player: PlayerId, source: Option<EntityId>, first: DrawId, count: nat): seq<Operation>
    decreases count
  {
    if count == 0 then [] else
      [ProcessDraw(player, source, first), FinishDraw(first)] + DrawOps(player, source, first + 1, count - 1)
  }

  function FillDraw(g: Game, player: PlayerId, source: Option<EntityId>, result: DrawId, inp: Input): StepResult {
    if inp.fails then Err(WorldRejected) else
      if result !in g.draws then Err(MissingDrawResult(result)) else
        if g.draws[result].Some? then Err(DrawResultAlreadyFilled(result)) else
          var filled := Moved(g, inp).(draws := g.draws[result := Some(inp.outcome)]);
          match inp.outcome
          case Drawn(card) =>
            Ok(Step(Record(filled, Plain(CardDrawn, source, [card], player), None), [ResolveEvent(g.nextEvent)]))
          case Burned(_) => Ok(Step(filled, []))
          case Fatigue(amount) =>
            if inp.hero !in g.world then Err(EntityNotFound(inp.hero)) else
              Ok(Step(filled, [ProcessDamageBatch([HealthRequest(None, inp.hero, amount)])]))
  }

  function TakeDraw(g: Game, result: DrawId): Result<(Game, DrawOutcome), Failure> {
    if result !in g.draws then Err(MissingDrawResult(result)) else
      if g.draws[result].None? then Err(EmptyDrawResult(result)) else
        Ok((g.(draws := g.draws - {result}), g.draws[result].value))
  }

  function ContinueWithDraw(g: Game, result: DrawId, context: EffectContext, effects: seq<Effect>, policy: DrawPolicy)
    : StepResult
  {
    match TakeDraw(g, result)
    case Err(f) => Err(f)
    case Ok((taken, Drawn(card))) => Ok(Step(taken, Effects(context.(drawnCard := Some(card)), effects, None, None)))
    case Ok((taken, _)) =>
      Ok(Step(taken,
              if policy == RunWithoutCard then Effects(context.(drawnCard := None), effects, None, None) else []))
  }

  // ---------- Transformation, copying, play scopes ----------

  predicate LivePlayScope(g: Game, scope: ResolutionId, subject: EntityId) {
    && scope in g.scopes && g.scopes[scope] == subject
    && subject in g.world && g.world[subject].card.kind == Minion
  }

  function TransformTarget(g: Game, natives: set<NativeId>, target: EntityId, card: Card,
                           inp: Input): Result<Game, Failure> {
    if target !in g.world then Err(EntityNotFound(target)) else
      if g.world[target].card.kind != Minion || card.kind != Minion then Err(WorldRejected) else
        match CheckCard(natives, card)
        case Some(error) => Err(InvalidProgram(error))
        case None =>
          if inp.fails then Err(WorldRejected) else
            Ok(Moved(g.(world := g.world[target := g.world[target].(card := card, silenced := false)]), inp))
  }

  function RunTransform(g: Game, natives: set<NativeId>, op: Operation, inp: Input): StepResult
    requires op.TransformEntity?
  {
    if op.kind == PlayedSelf && (op.playScope.None? || op.source != Some(op.target)) then Err(PlayedSelfNeedsScope) else
      if op.kind == PlayedSelf && !LivePlayScope(g, op.playScope.value, op.target) then Err(InvalidPlayScope) else
        if op.kind != PlayedSelf && op.playScope.Some? then Err(OrdinaryTransformHasScope) else
          match TransformTarget(g, natives, op.target, op.card, inp)
          case Err(f) => Err(f)
          case Ok(changed) =>
            match op.kind
            case SpellTransform => Ok(Step(changed, []))
            case NonSpell => Ok(Step(changed, [RefreshAuras]))
            case PlayedSelf => Ok(Step(changed.(transforms := changed.transforms + {op.target}), []))
  }

  /** The transformed minion enters as summoned, then the frozen triggers of the original play run. */
  function AfterPlayedSelf(g: Game, subject: EntityId, controller: PlayerId, seeds: seq<Seed>): Step {
    Step(Record(Record(g, Plain(AfterPlayAndSummon, Some(subject), [subject], controller), None),
                Plain(AfterPlay, Some(subject), [subject], controller), Some(seeds)),
         [ResolveEvent(g.nextEvent), RunPhaseBoundary, ResolveEvent(g.nextEvent + 1)])
  }

  function FinishPlay(g: Game, id: ResolutionId, subject: EntityId, seeds: seq<Seed>): StepResult {
    if !LivePlayScope(g, id, subject) then Err(InvalidPlayScope) else
      var closed := g.(scopes := g.scopes - {id}, transforms := g.transforms - {subject});
      if subject !in g.transforms then Ok(Step(closed, []))
      else Ok(AfterPlayedSelf(closed, subject, g.world[subject].controller, seeds))
  }

  /** The cards of the trigger enchantments attached to the copied entity. */
  function AttachedCards(world: map<EntityId, GameEntity>, attachments: seq<EntityId>): (cards: seq<Card>)
    ensures forall c :: c in cards ==> exists e :: e in world && c == world[e].card
  {
    if attachments == [] then [] else
      (if attachments[0] in world && world[attachments[0]].card.kind == Enchantment
       then [world[attachments[0]].card] else [])
      + AttachedCards(world, attachments[1..])
  }

  /** A copy from play to play takes the state in play with it; any other copies the current form. */
  predicate CopiesPlayState(world: map<EntityId, GameEntity>, original: EntityId, destination: Zone) {
    original in world && world[original].zone == Play && destination == Play
  }

  /** The first error of the trigger enchantments that are copied along. */
  function AttachmentError(natives: set<NativeId>, cards: seq<Card>): Option<ProgramError> {
    if cards == [] then None else
      match CheckEnchantment(natives, cards[0].triggers)
      case Some(error) => Some(error)
      case None => AttachmentError(natives, cards[1..])
  }

  /** Whether there is something to copy and room for it; the policy of the request must fit the source's zone. */
  function PrepareCopy(g: Game, natives: set<NativeId>, op: Operation, inp: Input): Result<bool, Failure>
    requires op.CopyEntity?
  {
    if op.original !in g.world then Ok(false) else
      var card := g.world[op.original].card;
      if op.playState != CopiesPlayState(g.world, op.original, op.destination) then Err(CopyPolicyDiffers) else
        if card.kind == Weapon && card.durability <= 0 then Err(WorldRejected) else
          if !inp.passes then Ok(false) else
            if inp.fails then Err(WorldRejected) else
              match CheckCard(natives, card)
              case Some(error) => Err(CopiedCardRejected(error))
              case None =>
                match if op.playState then AttachmentError(natives, AttachedCards(g.world, inp.attachments)) else None
                case Some(error) => Err(CopiedCardRejected(error))
                case None => Ok(true)
  }

  /** The request with the policy that fits now: nested work may have moved the source since it was made. */
  function WithLivePolicy(world: map<EntityId, GameEntity>, op: Operation): (live: Operation)
    requires op.CopyEntity?
    ensures live.CopyEntity? && op == live.(playState := op.playState)
  {
    if op.original in world then op.(playState := CopiesPlayState(world, op.original, op.destination)) else op
  }

  function RunCopy(g: Game, natives: set<NativeId>, op: Operation, inp: Input): StepResult
    requires op.CopyEntity?
  {
    match PrepareCopy(g, natives, op, inp)
    case Err(f) => Err(f)
    case Ok(false) => Ok(Step(g, []))
    case Ok(true) =>
      var card := g.world[op.original].card;
      if op.playState
      then Ok(AnnounceSummons(g, [card] + AttachedCards(g.world, inp.attachments), op.copyController,
                              op.originating, inp))
      else Ok(Step(Moved(Spawn(g, [card], op.destination, op.copyController), inp), []))
  }

  // ---------- Effects ----------

  function OptionOps(context: EffectContext, options: seq<EffectOption>): (chosen: seq<ChoiceOption>)
    ensures |chosen| == |options|
    ensures forall i :: 0 <= i < |options| ==>
      chosen[i] == ChoiceOption(options[i].id, Effects(context, options[i].effects, None, None))
  {
    seq(|options|, i requires 0 <= i < |options| =>
      ChoiceOption(options[i].id, Effects(context, options[i].effects, None, None)))
  }

  function Requests(context: EffectContext, targets: seq<EntityId>, value: int): seq<HealthRequest> {
    seq(|targets|, i requires 0 <= i < |targets| => HealthRequest(context.source, targets[i], value))
  }

  function ChangeHealth(g: Game, context: EffectContext, damage: bool, selector: Selector, inp: Input): StepResult {
    var targets := Select(context, selector, inp);
    if exists t :: t in targets && t !in g.world then Err(WorldRejected) else
      var requests := Requests(context, targets, inp.operand);
      Ok(Step(g, [if damage then ProcessDamageBatch(requests) else ProcessHealingBatch(requests)]))
  }

  function ModifiedValue(operation: ValueOperation, previous: int, operand: int): int {
    var value := match operation
      case Replace => operand
      case Add => Saturate(previous + operand)
      case Multiply => Saturate(previous * operand);
    if value < 0 then 0 else value
  }

  function Modify(g: Game, event: Option<EventId>, operation: ValueOperation, operand: int): StepResult {
    if event.None? || event.value !in g.events then Err(NothingToModify) else
      var prepared := g.events[event.value];
      if !Proposed(prepared.context.kind) || prepared.context.proposed.None? then Err(NothingToModify) else
        var value := ModifiedValue(operation, prepared.context.proposed.value, operand);
        var changed := prepared.(context := prepared.context.(proposed := Some(value)));
        Ok(Step(g.(events := g.events[event.value := changed]), []))
  }

  function BeginEquip(g: Game, weapon: EntityId, inp: Input): Result<Game, Failure> {
    if inp.weapon == Some(weapon) || weapon in g.equips || inp.fails then Err(WorldRejected)
    else Ok(Moved(g.(equips := g.equips[weapon := inp.weapon]), inp))
  }

  function Replaced(g: Game, natives: set<NativeId>, player: PlayerId, r: HeroReplacement, inp: Input): StepResult {
    match CheckReplacement(natives, r)
    case Some(error) => Err(InvalidProgram(error))
    case None =>
      if inp.fails then Err(WorldRejected) else
        var installed := Spawn(Moved(g, inp), [r.hero, r.heroPower], Play, player);
        if r.weapon.None? then Ok(Step(installed, [])) else
          var weapon := installed.nextEntity;
          match BeginEquip(Spawn(installed, [r.weapon.value], SetAside, player), weapon, inp)
          case Err(f) => Err(f)
          case Ok(equipped) =>
            Ok(Step(equipped, [PrepareEvent(Plain(WeaponEquipped, Some(weapon), [weapon], player)),
                               RunStep(FinishEquip(weapon))]))
  }

  function Transforms(targets: seq<EntityId>, scope: Option<ResolutionId>, source: Option<EntityId>, card: Card,
                      kind: TransformKind): (ops: seq<Operation>)
    ensures |ops| == |targets|
    ensures forall i :: 0 <= i < |ops| ==>
      ops[i] == TransformEntity(if kind == PlayedSelf then scope else None, targets[i], source, card, kind)
  {
    seq(|targets|, i requires 0 <= i < |targets| =>
      TransformEntity(if kind == PlayedSelf then scope else None, targets[i], source, card, kind))
  }

  /** Each request takes down the policy that fits the zone its source is in now. */
  function Copies(world: map<EntityId, GameEntity>, targets: seq<EntityId>, source: Option<EntityId>,
                  controller: PlayerId, zone: Zone)
    : (ops: seq<Operation>)
    ensures forall i :: 0 <= i < |ops| ==> ops[i].CopyEntity?
  {
    seq(|targets|, i requires 0 <= i < |targets| =>
      CopyEntity(targets[i], source, controller, zone, CopiesPlayState(world, targets[i], zone)))
  }

  function Enchantments(targets: seq<EntityId>, triggers: seq<Trigger>): (cards: seq<Card>)
    ensures forall c :: c in cards ==> c == Card(Enchantment, 0, [], triggers)
  {
    seq(|targets|, _ => Card(Enchantment, 0, [], triggers))
  }

  function RunNative(g: Game, natives: set<NativeId>, context: EffectContext, id: NativeId, event: Option<EventId>,
                     inp: Input)
    : StepResult
  {
    if id !in natives then Err(NativeUnregistered(id)) else
      if inp.plan.None? then Err(WorldRejected) else
        var kind := if event.Some? && event.value in g.events then Some(g.events[event.value].context.kind) else None;
        match CheckProgram(natives, inp.plan.value, kind, false)
        case Some(error) => Err(NativePlanRejected(error))
        case None => Ok(Step(g, Effects(context, inp.plan.value, event, None)))
  }

  function RunChoose(g: Game, natives: set<NativeId>, context: EffectContext, choice: Effect): StepResult
    requires choice.Choose?
  {
    match CheckProgram(natives, [choice], None, false)
    case Some(error) => Err(InvalidProgram(error))
    case None =>
      Ok(Step(g, [RequestChoice(ChoiceRequest(choice.id, ResolvePlayer(context.controller, choice.player),
                                              OptionOps(context, choice.options)))]))
  }

  /** A draw of many cards needs two operations for each of them, and is refused when the budget is short. */
  function RunDraw(g: Game, budget: nat, player: PlayerId, source: Option<EntityId>, count: nat): StepResult {
    if 2 * count > budget then Err(BudgetExhausted(None))
    else Ok(Step(AllocateDraws(g, count), DrawOps(player, source, g.nextDraw, count)))
  }

  function RunDrawThen(g: Game, context: EffectContext, player: PlayerId, effects: seq<Effect>,
                       policy: DrawPolicy): Step {
    Step(AllocateDraw(g), [ProcessDraw(player, context.source, g.nextDraw),
                           ContinueDraw(g.nextDraw, context, effects, policy)])
  }

  function AnnounceSummons(g: Game, cards: seq<Card>, controller: PlayerId, source: Option<EntityId>,
                           inp: Input): Step {
    Step(Record(Moved(Spawn(g, cards, Play, controller), inp), Plain(Summoned, source, [g.nextEntity], controller),
                None),
         [RefreshAuras, ResolveEvent(g.nextEvent)])
  }

  function RunSummon(g: Game, card: Card, controller: PlayerId, source: Option<EntityId>, inp: Input): StepResult {
    if card.kind == Minion && !inp.passes then Ok(Step(g, [])) else
      if inp.fails || (card.kind == Weapon && card.durability <= 0) then Err(WorldRejected)
      else Ok(AnnounceSummons(g, [card], controller, source, inp))
  }

  function RunAttachTriggers(g: Game, natives: set<NativeId>, targets: seq<EntityId>, triggers: seq<Trigger>,
                             controller: PlayerId, inp: Input): StepResult {
    match CheckEnchantment(natives, triggers)
    case Some(error) => Err(InvalidProgram(error))
    case None =>
      if inp.fails then Err(WorldRejected)
      else Ok(Step(Spawn(g, Enchantments(targets, triggers), Play, controller), []))
  }

  /** Effects that only change the world: they schedule nothing. */
  function ChangeWorld(g: Game, inp: Input): StepResult {
    if inp.fails then Err(WorldRejected) else Ok(Step(Moved(g, inp), []))
  }

  /** One effect. Only a Sequence hands its event and its play scope on unchanged. */
  function RunOneEffect(g: Game, env: Env, context: EffectContext, effect: Effect, event: Option<EventId>,
                        scope: Option<ResolutionId>, inp: Input): StepResult {
    match effect
    case Choose(_, _, _) => RunChoose(g, env.natives, context, effect)
    case DealDamage(targets) => ChangeHealth(g, context, true, targets, inp)
    case Heal(targets) => ChangeHealth(g, context, false, targets, inp)
    case ModifyEventValue(operation) => Modify(g, event, operation, inp.operand)
    case Draw(player, count) => RunDraw(g, env.budget, ResolvePlayer(context.controller, player), context.source, count)
    case DrawThen(player, effects, policy) =>
      Ok(RunDrawThen(g, context, ResolvePlayer(context.controller, player), effects, policy))
    case ReplaceHero(player, replacement) =>
      Replaced(g, env.natives, ResolvePlayer(context.controller, player), replacement, inp)
    case Summon(player, card) => RunSummon(g, card, ResolvePlayer(context.controller, player), context.source, inp)
    case AttachTriggers(targets, triggers) =>
      RunAttachTriggers(g, env.natives, Select(context, targets, inp), triggers, context.controller, inp)
    case Transform(targets, card, kind) =>
      Ok(Step(g, Transforms(Select(context, targets, inp), scope, context.source, card, kind)))
    case Copy(targets, player, zone) =>
      Ok(Step(g, Copies(g.world, Select(context, targets, inp), context.source,
                        ResolvePlayer(context.controller, player), zone)))
    case Native(id) => RunNative(g, env.natives, context, id, event, inp)
    case Sequence(nested) => Ok(Step(g, Effects(context, nested, event, scope)))
    case _ => ChangeWorld(g, inp)
  }

  // ---------- Sequence steps ----------

  /** The completion goes below the play program, and its id is the scope the program runs in. */
  function PlayScoped(g: Game, next: ResolutionId, context: EffectContext, card: EntityId, entry: seq<Operation>,
                      program: seq<Effect>, seeds: seq<Seed>): Step {
    Step(g.(scopes := g.scopes[next := card]),
         entry + Effects(context, program, None, Some(next)) + [FinishPlayedSelf(card, seeds)])
  }

  function PlayEntry(card: EntityId, kind: EntityKind, player: PlayerId, target: Option<EntityId>): seq<Operation> {
    [PrepareEvent(Plain(CardPlayed, Some(card), FromOption(target), player))]
    + if kind == Minion then [PrepareEvent(Plain(Summoned, Some(card), [card], player)), RefreshAuras] else []
  }

  function PlayMinionOrSpell(g: Game, env: Env, player: PlayerId, card: EntityId, target: Option<EntityId>,
                             inp: Input): Step
    requires card in g.world
  {
    var played := g.world[card].card;
    var moved := Moved(g, inp);
    var context := EffectContext(Some(card), player, target, None);
    var entry := PlayEntry(card, played.kind, player, target);
    if played.kind == Minion && ContainsPlayedSelf(played.effects)
    then PlayScoped(moved, env.next, context, card, entry, played.effects, Discover(moved.world, AfterPlay, inp.seeds))
    else Step(moved, entry + Effects(context, played.effects, None, None))
  }

  function WeaponEntry(weapon: EntityId, player: PlayerId, target: Option<EntityId>,
                       program: seq<Effect>): seq<Operation> {
    [PrepareEvent(Plain(CardPlayed, Some(weapon), FromOption(target), player))]
    + Effects(EffectContext(Some(weapon), player, target, None), program, None, None)
    + [PrepareEvent(Plain(WeaponEquipped, Some(weapon), [weapon], player))]
  }

  function PlayWeapon(g: Game, player: PlayerId, weapon: EntityId, target: Option<EntityId>, inp: Input): StepResult
    requires weapon in g.world
  {
    var seeds := Discover(g.world, AfterPlay, inp.seeds);
    var prepared := Record(g, Plain(AfterPlay, Some(weapon), [weapon], player), Some(seeds));
    match BeginEquip(prepared, weapon, inp)
    case Err(f) => Err(f)
    case Ok(equipped) =>
      Ok(Step(equipped,
              WeaponEntry(weapon, player, target, g.world[weapon].card.effects)
              + [RunStep(FinishEquip(weapon)), RunPhaseBoundary, ResolveEvent(g.nextEvent)]))
  }

  function PlayCardStep(g: Game, env: Env, player: PlayerId, card: EntityId, target: Option<EntityId>, inp: Input)
    : StepResult
  {
    if card !in g.world then Err(EntityNotFound(card)) else
      if g.world[card].controller != player || g.world[card].zone != Hand || inp.fails then Err(WorldRejected) else
        if g.world[card].card.kind == Weapon then PlayWeapon(g, player, card, target, inp)
        else Ok(PlayMinionOrSpell(g, env, player, card, target, inp))
  }

  function HeroPowerStep(g: Game, player: PlayerId, power: EntityId, target: Option<EntityId>, inp: Input): StepResult {
    if power !in g.world then Err(EntityNotFound(power)) else
      if g.world[power].controller != player || g.world[power].zone != Play || inp.fails then Err(WorldRejected) else
        var seeds := Discover(g.world, AfterHeroPower, inp.seeds);
        var prepared := Record(g, Plain(AfterHeroPower, Some(power), FromOption(target), player), Some(seeds));
        Ok(Step(prepared,
                Effects(EffectContext(Some(power), player, target, None), g.world[power].card.effects, None, None)
                + [RunStep(FinishHeroPower(power)), RunPhaseBoundary, ResolveEvent(g.nextEvent)]))
  }

  function AttackStep(g: Game, player: PlayerId, attacker: EntityId, defender: EntityId): Step {
    Step(g, [PrepareEvent(Plain(AttackDeclared, Some(attacker), [defender], player)),
             RunGuardedStep([Guard(attacker, Play)], BreakAttackStealth(attacker)),
             RunPhaseBoundary, CheckOutcome,
             RunGuardedStep([Guard(attacker, Play), Guard(defender, Play)],
                            PrepareCombatDamage(player, attacker, defender))])
  }

  function CombatRequests(attacker: EntityId, defender: EntityId, inp: Input): seq<HealthRequest> {
    [HealthRequest(Some(attacker), defender, inp.operand)]
    + if inp.counterDamage > 0 then [HealthRequest(Some(defender), attacker, inp.counterDamage)] else []
  }

  function CombatOps(requests: seq<HealthRequest>, payer: Option<Payer>, finish: SequenceStep): seq<Operation> {
    if payer.None? then [ProcessDamageBatch(requests), RunStep(finish)]
    else [ProcessDamageBatch(requests), RunStep(ConsumeDurability(payer.value.0, payer.value.1)), RunStep(finish)]
  }

  /** A hero attacks with the active weapon of its controller, if it has one. */
  function AttackWeapon(world: map<EntityId, GameEntity>, attacker: EntityId, weapon: Option<EntityId>): Option<Payer> {
    if attacker in world && world[attacker].card.kind == Hero && weapon.Some? && weapon.value in world
       && world[weapon.value].card.kind == Weapon && world[weapon.value].zone == Play
       && world[weapon.value].controller == world[attacker].controller
    then Some((world[attacker].controller, weapon.value)) else None
  }

  /** The combat preparation captures who pays durability, keyed by the id of the operation that will pay. */
  function CombatDamageStep(g: Game, env: Env, player: PlayerId, attacker: EntityId, defender: EntityId,
                            inp: Input): Step {
    if g.over then Step(g, []) else
      var payer := AttackWeapon(g.world, attacker, inp.weapon);
      Step(if payer.None? then g else g.(payers := g.payers[env.next + 1 := payer.value]),
           CombatOps(CombatRequests(attacker, defender, inp), payer, FinishAttack(player, attacker, defender)))
  }

  function RunSequenceStep(g: Game, env: Env, step: SequenceStep, inp: Input): StepResult {
    match step
    case PlayCard(player, card, target) => PlayCardStep(g, env, player, card, target, inp)
    case UseHeroPower(player, power, target) => HeroPowerStep(g, player, power, target, inp)
    case Attack(player, attacker, defender) => Ok(AttackStep(g, player, attacker, defender))
    case PrepareCombatDamage(player, attacker, defender) =>
      Ok(CombatDamageStep(g, env, player, attacker, defender, inp))
    case FinishEquip(weapon) =>
      if weapon !in g.equips then Err(MissingReplacementScope) else
        if inp.fails then Err(WorldRejected) else Ok(Step(Moved(g.(equips := g.equips - {weapon}), inp), []))
    case FinishAttack(player, attacker, defender) =>
      Ok(Step(g, [PrepareEvent(Plain(AfterAttack, Some(attacker), [defender], player))]))
    case EndTurn(player) =>
      Ok(Step(g, [PrepareEvent(Plain(TurnEnded, None, [], player)), RunPhaseBoundary, CheckOutcome,
                  RunStep(ThawCharacters(player)), RunStep(AdvanceTurn(player))]))
    case AdvanceTurn(_) =>
      if g.over then Ok(Step(g, [])) else Ok(Step(Moved(g, inp), [RunStep(StartTurn(inp.nextPlayer))]))
    case StartTurn(player) =>
      if inp.fails then Err(WorldRejected) else Ok(Step(g, [PrepareEvent(Plain(TurnStarted, None, [], player))]))
    case Concede(_) => Ok(Step(g.(over := true), []))
    case FinishHeroPower(_) => Ok(Step(g, []))
    case ConsumeDurability(_, _) => Ok(Step(g, []))
    case BreakAttackStealth(_) => if inp.fails then Err(WorldRejected) else Ok(Step(g, []))
    case ThawCharacters(_) => if inp.fails then Err(WorldRejected) else Ok(Step(g, []))
  }

  predicate GuardsHold(world: map<EntityId, GameEntity>, guards: seq<Guard>) {
    forall i :: 0 <= i < |guards| ==> guards[i].subject in world && world[guards[i].subject].zone == guards[i].zone
  }

  // ---------- Choices and the dispatcher ----------

  predicate UniqueChoices(options: seq<ChoiceOption>) {
    && options != []
    && forall i, j :: 0 <= i < j < |options| ==> options[i].id != options[j].id
  }

  /** A branch may hold unscoped effects that borrow no event, and each must be a valid program. */
  predicate ValidBranch(natives: set<NativeId>, operations: seq<Operation>) {
    forall i :: 0 <= i < |operations| ==>
      && operations[i].RunEffect? && operations[i].borrowed.None?
      && CheckProgram(natives, [operations[i].effect], None, false).None?
  }

  predicate ValidChoice(natives: set<NativeId>, request: ChoiceRequest) {
    && UniqueChoices(request.options)
    && forall i :: 0 <= i < |request.options| ==> ValidBranch(natives, request.options[i].operations)
  }

  /** Everything except asking for a choice, which the driver handles: it stops the run. */
  function Execute(g: Game, env: Env, id: ResolutionId, op: Operation, inp: Input): StepResult
    requires !op.RequestChoice?
  {
    match op
    case RunStep(step) => RunSequenceStep(g, env, step, inp)
    case RunGuardedStep(guards, step) =>
      if GuardsHold(g.world, guards) then RunSequenceStep(g, env, step, inp) else Ok(Step(g, []))
    case RunPhaseBoundary => Ok(PhaseBoundary(g, inp))
    case RefreshAuras => Ok(Step(g, []))
    case CheckOutcome => Ok(Step(g.(over := g.over || inp.defeated), []))
    case PrepareEvent(context) => Ok(Step(Record(g, context, None), [ResolveEvent(g.nextEvent)]))
    case ResolveEvent(event) => Expand(g, event, inp)
    case FinishEvent(event) => if event in g.events then Ok(Step(TakeEvent(g, event), [])) else Err(MissingEvent(event))
    case ResolveEventSlot(slot) => RunSlot(g, slot)
    case AttemptTrigger(candidate) => Attempt(g, id, candidate, inp)
    case FinishTrigger(_, _) => Ok(Step(g, []))
    case RunPlayEffect(scope, context, effect) =>
      if context.source.None? || !LivePlayScope(g, scope, context.source.value) then Err(InvalidPlayScope)
      else RunOneEffect(g, env, context, effect, None, Some(scope), inp)
    case RunEffect(context, effect, event) => RunOneEffect(g, env, context, effect, event, None, inp)
    case ProcessDamageBatch(requests) => Ok(ExpandBatch(g, true, requests))
    case ProcessDamage(request, slot) => Ok(ProcessHealth(g, true, request, slot, inp))
    case ApplyDamage(request, event, slot) => ApplyHealth(g, true, request, event, slot, inp)
    case ProcessHealingBatch(requests) => Ok(ExpandBatch(g, false, requests))
    case ProcessHealing(request, slot) => Ok(ProcessHealth(g, false, request, slot, inp))
    case ApplyHealing(request, event, slot) => ApplyHealth(g, false, request, event, slot, inp)
    case ProcessDraw(player, source, result) => FillDraw(g, player, source, result, inp)
    case FinishDraw(result) => (
      match TakeDraw(g, result)
      case Err(f) => Err(f)
      case Ok((taken, _)) => Ok(Step(taken, [])))
    case ContinueDraw(result, context, effects, policy) => ContinueWithDraw(g, result, context, effects, policy)
    case TransformEntity(_, _, _, _, _) => RunTransform(g, env.natives, op, inp)
    case FinishPlayedSelf(subject, seeds) => FinishPlay(g, id, subject, seeds)
    case CopyEntity(_, _, _, _, _) => RunCopy(g, env.natives, WithLivePolicy(g.world, op), inp)
  }

  predicate EventOperation(op: Operation) {
    op.ResolveEvent? || op.FinishEvent? || op.ResolveEventSlot? || op.AttemptTrigger? || op.RunPhaseBoundary?
      || op.PrepareEvent?
  }

  predicate HealthOperation(op: Operation) {
    op.ProcessDamageBatch? || op.ProcessDamage? || op.ApplyDamage?
    || op.ProcessHealingBatch? || op.ProcessHealing? || op.ApplyHealing?
  }

  predicate DrawOperation(op: Operation) {
    op.ProcessDraw? || op.FinishDraw? || op.ContinueDraw?
  }

  /** What the driver does with a popped operation: a durability payment is checked off first. */
  function Dispatch(g: Game, env: Env, id: ResolutionId, op: Operation, inp: Input): StepResult
    requires !op.RequestChoice?
  {
    if op.RunStep? && op.step.ConsumeDurability? then
      if id !in g.payers || g.payers[id] != (op.step.player, op.step.weapon) then Err(DurabilityPayerDiffers)
      else Execute(g.(payers := g.payers - {id}), env, id, op, inp)
    else Execute(g, env, id, op, inp)
  }
}
