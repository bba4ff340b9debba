/**
 What an operation may schedule.

 Only playing a minion that transforms itself opens a play scope, only actions
 play cards, and only transforming effects schedule transformations.
 */
module Scheduling {
  import opened Outcomes
  import opened Players
  import opened EffectLanguage
  import opened ResolutionMachine

  predicate Plays(op: Operation) {
    (op.RunStep? || op.RunGuardedStep?) && op.step.PlayCard?
  }

  /** The minion needs a scope: its play program transforms it. */
  predicate PlaysASelfTransform(world: map<EntityId, GameEntity>, card: EntityId) {
    card in world && world[card].card.kind == Minion && ContainsPlayedSelf(world[card].card.effects)
  }

  predicate NoPlays(ops: seq<Operation>) {
    forall op :: op in ops ==> !Plays(op)
  }

  predicate AllOrdinary(ops: seq<Operation>) {
    forall op :: op in ops ==> !Plays(op) && !op.TransformEntity? && !op.FinishTrigger?
  }

  /** The step opens no scope and schedules no play, no transformation and no end of a trigger. */
  predicate StaysOrdinary(g: Game, r: StepResult) {
    r.Ok? ==> r.value.game.scopes.Keys <= g.scopes.Keys && AllOrdinary(r.value.pushes)
  }

  /** The effect turns its targets into transformations. */
  predicate Transforming(op: Operation) {
    (op.RunEffect? || op.RunPlayEffect?) && op.effect.Transform?
  }

  // ---------- Effects ----------

  lemma {:induction false} DrawOpsAreAllOrdinary(player: PlayerId, source: Option<EntityId>, first: DrawId, count: nat)
    ensures AllOrdinary(DrawOps(player, source, first, count))
    decreases count
  {
    if count > 0 { DrawOpsAreAllOrdinary(player, source, first + 1, count - 1); }
  }

  lemma {:induction false} BatchOpsAreAllOrdinary(damage: bool, requests: seq<HealthRequest>, first: SlotId)
    ensures AllOrdinary(HealthOps(damage, requests, first)) && AllOrdinary(SlotOps(first, |requests|))
    decreases |requests|
  {
    if requests != [] { BatchOpsAreAllOrdinary(damage, requests[1..], first + 1); }
  }

  lemma {:induction false} ResolvesAreAllOrdinary(first: EventId, count: nat)
    ensures AllOrdinary(ResolveFrom(first, count))
    decreases count
  {
    if count > 0 { ResolvesAreAllOrdinary(first + 1, count - 1); }
  }

  lemma ChangingHealthIsOrdinary(g: Game, context: EffectContext, damage: bool, targets: Selector, inp: Input)
    ensures StaysOrdinary(g, ChangeHealth(g, context, damage, targets, inp))
  {
  }

  lemma DrawingIsOrdinary(g: Game, budget: nat, player: PlayerId, source: Option<EntityId>, count: nat)
    ensures StaysOrdinary(g, RunDraw(g, budget, player, source, count))
  {
    DrawOpsAreAllOrdinary(player, source, g.nextDraw, count);
  }

  lemma DrawingThenIsOrdinary(g: Game, context: EffectContext, player: PlayerId, effects: seq<Effect>,
                                policy: DrawPolicy)
    ensures StaysOrdinary(g, Ok(RunDrawThen(g, context, player, effects, policy)))
  {
  }

  lemma ReplacingIsOrdinary(g: Game, natives: set<NativeId>, player: PlayerId, r: HeroReplacement, inp: Input)
    ensures StaysOrdinary(g, Replaced(g, natives, player, r, inp))
  {
  }

  lemma SummoningIsOrdinary(g: Game, card: Card, player: PlayerId, source: Option<EntityId>, inp: Input)
    ensures StaysOrdinary(g, RunSummon(g, card, player, source, inp))
  {
  }

  lemma AttachingIsOrdinary(g: Game, natives: set<NativeId>, targets: seq<EntityId>, triggers: seq<Trigger>,
                              player: PlayerId, inp: Input)
    ensures StaysOrdinary(g, RunAttachTriggers(g, natives, targets, triggers, player, inp))
  {
  }

  lemma CopyingIsOrdinary(g: Game, targets: seq<EntityId>, source: Option<EntityId>, player: PlayerId, zone: Zone)
    ensures StaysOrdinary(g, Ok(Step(g, Copies(g.world, targets, source, player, zone))))
  {
  }

  lemma CardEffectsAreOrdinary(g: Game, env: Env, context: EffectContext, effect: Effect, event: Option<EventId>,
                               scope: Option<ResolutionId>, inp: Input)
    requires effect.ReplaceHero? || effect.Summon? || effect.AttachTriggers? || effect.Copy?
    ensures StaysOrdinary(g, RunOneEffect(g, env, context, effect, event, scope, inp))
  {
    match effect
    case ReplaceHero(player, r) =>
      ReplacingIsOrdinary(g, env.natives, ResolvePlayer(context.controller, player), r, inp);
    case Summon(player, card) =>
      SummoningIsOrdinary(g, card, ResolvePlayer(context.controller, player), context.source, inp);
    case AttachTriggers(targets, triggers) =>
      AttachingIsOrdinary(g, env.natives, Select(context, targets, inp), triggers, context.controller, inp);
    case Copy(targets, player, zone) =>
      CopyingIsOrdinary(g, Select(context, targets, inp), context.source, ResolvePlayer(context.controller, player),
                          zone);
  }

  lemma ProgramEffectsAreOrdinary(g: Game, env: Env, context: EffectContext, effect: Effect, event: Option<EventId>,
                                  scope: Option<ResolutionId>, inp: Input)
    requires effect.Choose? || effect.Native? || effect.Sequence? || effect.ModifyEventValue?
    ensures StaysOrdinary(g, RunOneEffect(g, env, context, effect, event, scope, inp))
  {
  }

  lemma EffectsAreOrdinary(g: Game, env: Env, context: EffectContext, effect: Effect, event: Option<EventId>,
                           scope: Option<ResolutionId>, inp: Input)
    requires !effect.Transform?
    ensures StaysOrdinary(g, RunOneEffect(g, env, context, effect, event, scope, inp))
  {
    if effect.ReplaceHero? || effect.Summon? || effect.AttachTriggers? || effect.Copy? {
      CardEffectsAreOrdinary(g, env, context, effect, event, scope, inp);
    } else if effect.Choose? || effect.Native? || effect.Sequence? || effect.ModifyEventValue? {
      ProgramEffectsAreOrdinary(g, env, context, effect, event, scope, inp);
    } else if effect.DealDamage? || effect.Heal? {
      ChangingHealthIsOrdinary(g, context, effect.DealDamage?, effect.targets, inp);
    } else if effect.Draw? {
      DrawingIsOrdinary(g, env.budget, ResolvePlayer(context.controller, effect.player), context.source, effect.count);
    } else if effect.DrawThen? {
      DrawingThenIsOrdinary(g, context, ResolvePlayer(context.controller, effect.player), effect.effects,
                            effect.policy);
    }
  }

  // ---------- Steps ----------

  lemma UnscopedPlayIsOrdinary(g: Game, env: Env, player: PlayerId, card: EntityId, target: Option<EntityId>,
                                 inp: Input)
    requires card in g.world && !PlaysASelfTransform(g.world, card)
    ensures StaysOrdinary(g, Ok(PlayMinionOrSpell(g, env, player, card, target, inp)))
  {
    var played := g.world[card].card;
    assert AllOrdinary(PlayEntry(card, played.kind, player, target));
    assert AllOrdinary(Effects(EffectContext(Some(card), player, target, None), played.effects, None, None));
  }

  lemma WeaponPlayIsOrdinary(g: Game, player: PlayerId, weapon: EntityId, target: Option<EntityId>, inp: Input)
    requires weapon in g.world
    ensures StaysOrdinary(g, PlayWeapon(g, player, weapon, target, inp))
  {
    assert AllOrdinary(WeaponEntry(weapon, player, target, g.world[weapon].card.effects));
  }

  lemma PlayIsOrdinary(g: Game, env: Env, player: PlayerId, card: EntityId, target: Option<EntityId>, inp: Input)
    requires !PlaysASelfTransform(g.world, card)
    ensures StaysOrdinary(g, PlayCardStep(g, env, player, card, target, inp))
  {
    if card in g.world {
      if g.world[card].card.kind == Weapon {
        WeaponPlayIsOrdinary(g, player, card, target, inp);
      } else {
        UnscopedPlayIsOrdinary(g, env, player, card, target, inp);
      }
    }
  }

  lemma CombatIsOrdinary(g: Game, env: Env, step: SequenceStep, inp: Input)
    requires step.PrepareCombatDamage? || step.FinishEquip? || step.UseHeroPower? || step.Attack?
    ensures StaysOrdinary(g, RunSequenceStep(g, env, step, inp))
  {
  }

  lemma StepsAreOrdinary(g: Game, env: Env, step: SequenceStep, inp: Input)
    requires step.PlayCard? ==> !PlaysASelfTransform(g.world, step.card)
    ensures StaysOrdinary(g, RunSequenceStep(g, env, step, inp))
  {
    if step.PlayCard? {
      PlayIsOrdinary(g, env, step.player, step.card, step.target, inp);
    } else if step.PrepareCombatDamage? || step.FinishEquip? || step.UseHeroPower? || step.Attack? {
      CombatIsOrdinary(g, env, step, inp);
    }
  }

  // ---------- Operations ----------

  lemma EventOpsAreOrdinary(g: Game, env: Env, id: ResolutionId, op: Operation, inp: Input)
    requires EventOperation(op) && !op.AttemptTrigger?
    ensures StaysOrdinary(g, Dispatch(g, env, id, op, inp))
  {
    ResolvesAreAllOrdinary(g.nextEvent, |inp.deaths|);
  }

  lemma BatchIsOrdinary(g: Game, damage: bool, requests: seq<HealthRequest>)
    ensures StaysOrdinary(g, Ok(ExpandBatch(g, damage, requests)))
  {
    BatchOpsAreAllOrdinary(damage, requests, g.nextSlot);
  }

  lemma HealthOpsAreOrdinary(g: Game, env: Env, id: ResolutionId, op: Operation, inp: Input)
    requires HealthOperation(op)
    ensures StaysOrdinary(g, Dispatch(g, env, id, op, inp))
  {
    if op.ProcessDamageBatch? {
      BatchIsOrdinary(g, true, op.requests);
    } else if op.ProcessHealingBatch? {
      BatchIsOrdinary(g, false, op.requests);
    } else if op.ApplyDamage? || op.ApplyHealing? {
      ApplyIsOrdinary(g, op.ApplyDamage?, op.request, op.event, op.slot, inp);
    } else {
      ProcessIsOrdinary(g, op.ProcessDamage?, op.request, op.slot, inp);
    }
  }

  lemma ProcessIsOrdinary(g: Game, damage: bool, request: HealthRequest, slot: SlotId, inp: Input)
    ensures StaysOrdinary(g, Ok(ProcessHealth(g, damage, request, slot, inp)))
  {
  }

  lemma ApplyIsOrdinary(g: Game, damage: bool, request: HealthRequest, e: EventId, slot: SlotId, inp: Input)
    ensures StaysOrdinary(g, ApplyHealth(g, damage, request, e, slot, inp))
  {
  }

  lemma FillingIsOrdinary(g: Game, player: PlayerId, source: Option<EntityId>, result: DrawId, inp: Input)
    ensures StaysOrdinary(g, FillDraw(g, player, source, result, inp))
  {
    var r := FillDraw(g, player, source, result, inp);
    if r.Ok? {
      assert r.value.game.scopes == g.scopes;
      assert r.value.pushes == [] || AllOrdinary([r.value.pushes[0]]);
    }
  }

  lemma ContinuingIsOrdinary(g: Game, result: DrawId, context: EffectContext, effects: seq<Effect>,
                               policy: DrawPolicy)
    ensures StaysOrdinary(g, ContinueWithDraw(g, result, context, effects, policy))
  {
  }

  lemma DrawOpsAreOrdinary(g: Game, env: Env, id: ResolutionId, op: Operation, inp: Input)
    requires DrawOperation(op)
    ensures StaysOrdinary(g, Dispatch(g, env, id, op, inp))
  {
    if op.ProcessDraw? {
      FillingIsOrdinary(g, op.drawer, op.drawSource, op.result, inp);
    } else if op.ContinueDraw? {
      ContinuingIsOrdinary(g, op.result, op.context, op.effects, op.policy);
    }
  }

  lemma CopyIsOrdinary(g: Game, env: Env, id: ResolutionId, op: Operation, inp: Input)
    requires op.CopyEntity?
    ensures StaysOrdinary(g, Dispatch(g, env, id, op, inp))
  {
  }

  lemma TransformIsOrdinary(g: Game, env: Env, id: ResolutionId, op: Operation, inp: Input)
    requires op.TransformEntity?
    ensures StaysOrdinary(g, Dispatch(g, env, id, op, inp))
  {
  }

  lemma OtherOpsAreOrdinary(g: Game, env: Env, id: ResolutionId, op: Operation, inp: Input)
    requires op.RefreshAuras? || op.CheckOutcome? || op.FinishTrigger? || op.FinishPlayedSelf?
    ensures StaysOrdinary(g, Dispatch(g, env, id, op, inp))
  {
  }

  lemma PlayEffectsAreOrdinary(g: Game, env: Env, id: ResolutionId, op: Operation, inp: Input)
    requires op.RunPlayEffect? && !op.effect.Transform?
    ensures StaysOrdinary(g, Dispatch(g, env, id, op, inp))
  {
    EffectsAreOrdinary(g, env, op.context, op.effect, None, Some(op.scope), inp);
  }

  /** All other operations schedule only ordinary work and open no scope. */
  lemma OperationsAreOrdinary(g: Game, env: Env, id: ResolutionId, op: Operation, inp: Input)
    requires !op.RequestChoice? && !op.AttemptTrigger? && !Transforming(op)
    requires Plays(op) ==> !PlaysASelfTransform(g.world, op.step.card)
    ensures StaysOrdinary(g, Dispatch(g, env, id, op, inp))
  {
    if EventOperation(op) {
      EventOpsAreOrdinary(g, env, id, op, inp);
    } else if HealthOperation(op) {
      HealthOpsAreOrdinary(g, env, id, op, inp);
    } else if op.RunStep? || op.RunGuardedStep? {
      StepsAreOrdinary(g, env, op.step, inp);
    } else if op.RunPlayEffect? {
      PlayEffectsAreOrdinary(g, env, id, op, inp);
    } else if op.RunEffect? {
      EffectsAreOrdinary(g, env, op.context, op.effect, op.borrowed, None, inp);
    } else if DrawOperation(op) {
      DrawOpsAreOrdinary(g, env, id, op, inp);
    } else if op.CopyEntity? {
      CopyIsOrdinary(g, env, id, op, inp);
    } else if op.TransformEntity? {
      TransformIsOrdinary(g, env, id, op, inp);
    } else {
      OtherOpsAreOrdinary(g, env, id, op, inp);
    }
  }

  /** A play that opens a scope schedules its program and the completion, but neither a play nor a transformation. */
  lemma ScopedPlaySchedules(g: Game, env: Env, player: PlayerId, card: EntityId, target: Option<EntityId>, inp: Input)
    requires PlaysASelfTransform(g.world, card)
    ensures var r := PlayCardStep(g, env, player, card, target, inp); r.Ok? ==> AllOrdinary(r.value.pushes)
  {
    var played := g.world[card].card;
    assert AllOrdinary(PlayEntry(card, played.kind, player, target));
    assert AllOrdinary(Effects(EffectContext(Some(card), player, target, None), played.effects, None, Some(env.next)));
  }

  /** An attempt of a trigger schedules its effects and its own end. */
  lemma AttemptsSchedule(g: Game, env: Env, id: ResolutionId, op: Operation, inp: Input)
    requires op.AttemptTrigger?
    ensures var r := Dispatch(g, env, id, op, inp);
            r.Ok? ==> r.value.game == g && forall o :: o in r.value.pushes ==>
              !Plays(o) && !o.TransformEntity? && (o.FinishTrigger? ==> o.attempt == id)
  {
  }

  /** A transforming effect schedules transformations and nothing else. */
  lemma TransformingSchedules(g: Game, env: Env, id: ResolutionId, op: Operation, inp: Input)
    requires Transforming(op)
    ensures var r := Dispatch(g, env, id, op, inp);
            r.Ok? ==> r.value.game == g && forall o :: o in r.value.pushes ==> o.TransformEntity?
  {
  }

  /** A transformation schedules at most a refresh of the auras. */
  lemma TransformationsSchedule(g: Game, env: Env, id: ResolutionId, op: Operation, inp: Input)
    requires op.TransformEntity? || op.RefreshAuras?
    ensures var r := Dispatch(g, env, id, op, inp);
            r.Ok? ==> forall o :: o in r.value.pushes ==> o.RefreshAuras?
  {
  }

  /** An operation ends no attempt but its own. */
  predicate EndsOwnAttempt(id: ResolutionId, r: StepResult) {
    r.Ok? ==> forall o :: o in r.value.pushes && o.FinishTrigger? ==> o.attempt == id
  }

  lemma OnlyAttemptsAreEnded(g: Game, env: Env, id: ResolutionId, op: Operation, inp: Input)
    requires !op.RequestChoice?
    ensures EndsOwnAttempt(id, Dispatch(g, env, id, op, inp))
  {
    if op.AttemptTrigger? {
      AttemptsSchedule(g, env, id, op, inp);
    } else if Transforming(op) {
      TransformingSchedules(g, env, id, op, inp);
    } else if Plays(op) && PlaysASelfTransform(g.world, op.step.card) {
      PlaysEndNothing(g, env, id, op, inp);
    } else {
      OperationsAreOrdinary(g, env, id, op, inp);
    }
  }

  lemma PlaysEndNothing(g: Game, env: Env, id: ResolutionId, op: Operation, inp: Input)
    requires Plays(op) && PlaysASelfTransform(g.world, op.step.card)
    ensures EndsOwnAttempt(id, Dispatch(g, env, id, op, inp))
  {
    ScopedPlaySchedules(g, env, op.step.player, op.step.card, op.step.target, inp);
  }
}
