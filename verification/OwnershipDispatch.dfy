/**
 The ledger through effects, sequence steps and choices, and so through every
 dispatched operation.
 */
module OwnershipDispatch {
  import opened Outcomes
  import opened Players
  import opened EffectLanguage
  import opened ResolutionMachine
  import opened ResolutionOwnership
  import opened OwnershipSteps
  import opened OwnershipEffects

  /** Failures that would mean the stack disagrees with the side tables, or with the world it was made for. */
  predicate Internal(f: Failure) {
    match f
    case MissingEvent(_) => true
    case MissingEventSlot(_) => true
    case MissingDrawResult(_) => true
    case DrawResultAlreadyFilled(_) => true
    case EmptyDrawResult(_) => true
    case DurabilityPayerDiffers => true
    case CopyPolicyDiffers => true
    case MissingReplacementScope => true
    case PendingChoiceExists => true
    case InvalidPlayScope => true
    case OrdinaryTransformHasScope => true
    case _ => false
  }

  ghost predicate Owns(n: Ledger, next: ResolutionId, r: StepResult) {
    match r
    case Ok(step) => Resettled(n, next, step)
    case Err(f) => !Internal(f)
  }

  // ---------- Effects ----------

  predicate Borrows(n: Ledger, context: EffectContext, event: Option<EventId>, scope: Option<ResolutionId>) {
    && (event.Some? ==> event.value in n.events)
    && (scope.Some? ==> scope.value in n.scopes && context.source == Some(n.scopes[scope.value]))
  }

  lemma EffectsOnlyBorrow(n: Ledger, context: EffectContext, effects: seq<Effect>, event: Option<EventId>,
                          scope: Option<ResolutionId>)
    requires Borrows(n, context, event, scope)
    ensures forall op :: op in Effects(context, effects, event, scope) ==> Neutral(n, op)
  {
  }

  /** A result that fails for the world's reasons or pushes only borrowers. */
  lemma NeutralResult(n: Ledger, next: ResolutionId, r: StepResult)
    requires r.Err? ==> !Internal(r.error)
    requires r.Ok? ==> Settles(r.value.game, next, n) && forall op :: op in r.value.pushes ==> Neutral(n, op)
    ensures Owns(n, next, r)
  {
    if r.Ok? { NeutralStep(n, next, r.value); }
  }

  lemma ChooseOwns(g: Game, next: ResolutionId, natives: set<NativeId>, context: EffectContext, choice: Effect,
                   n: Ledger)
    requires choice.Choose? && Settles(g, next, n)
    ensures Owns(n, next, RunChoose(g, natives, context, choice))
  {
    var r := RunChoose(g, natives, context, choice);
    if r.Ok? { assert UnscopedBranches(r.value.pushes[0].choice); }
    NeutralResult(n, next, r);
  }

  lemma NativeOwns(g: Game, next: ResolutionId, natives: set<NativeId>, context: EffectContext, id: NativeId,
                   event: Option<EventId>, inp: Input, n: Ledger)
    requires Settles(g, next, n) && Borrows(n, context, event, None)
    ensures Owns(n, next, RunNative(g, natives, context, id, event, inp))
  {
    var r := RunNative(g, natives, context, id, event, inp);
    if r.Ok? { ProgramOwns(g, next, context, inp.plan.value, event, None, n); }
  }

  lemma ProgramOwns(g: Game, next: ResolutionId, context: EffectContext, effects: seq<Effect>, event: Option<EventId>,
                    scope: Option<ResolutionId>, n: Ledger)
    requires Settles(g, next, n) && Borrows(n, context, event, scope)
    ensures Owns(n, next, Ok(Step(g, Effects(context, effects, event, scope))))
  {
    EffectsOnlyBorrow(n, context, effects, event, scope);
    NeutralStep(n, next, Step(g, Effects(context, effects, event, scope)));
  }

  lemma TransformsOwn(g: Game, next: ResolutionId, context: EffectContext, targets: seq<EntityId>,
                      scope: Option<ResolutionId>,
                      card: Card, kind: TransformKind, n: Ledger)
    requires Settles(g, next, n) && Borrows(n, context, None, scope)
    ensures Owns(n, next, Ok(Step(g, Transforms(targets, scope, context.source, card, kind))))
  {
    var step := Step(g, Transforms(targets, scope, context.source, card, kind));
    forall op | op in step.pushes ensures Neutral(n, op) {}
    NeutralStep(n, next, step);
  }

  lemma CopiesOwn(g: Game, next: ResolutionId, targets: seq<EntityId>, source: Option<EntityId>, player: PlayerId,
                  zone: Zone,
                  n: Ledger)
    requires Settles(g, next, n)
    ensures Owns(n, next, Ok(Step(g, Copies(g.world, targets, source, player, zone))))
  {
    NeutralStep(n, next, Step(g, Copies(g.world, targets, source, player, zone)));
  }

  lemma AttachOwns(g: Game, next: ResolutionId, natives: set<NativeId>, targets: seq<EntityId>, triggers: seq<Trigger>,
                   controller: PlayerId, inp: Input, n: Ledger)
    requires Settles(g, next, n)
    ensures Owns(n, next, RunAttachTriggers(g, natives, targets, triggers, controller, inp))
  {
    SpawnSettles(g, Enchantments(targets, triggers), Play, controller, next, n);
    var r := RunAttachTriggers(g, natives, targets, triggers, controller, inp);
    if r.Ok? { NeutralStep(n, next, r.value); }
  }

  lemma SummonResultOwns(g: Game, next: ResolutionId, card: Card, controller: PlayerId, source: Option<EntityId>,
                         inp: Input,
                         n: Ledger)
    requires Settles(g, next, n)
    ensures Owns(n, next, RunSummon(g, card, controller, source, inp))
  {
    if card.kind == Minion && !inp.passes {
      NeutralStep(n, next, Step(g, []));
    } else {
      SummonsOwn(g, next, [card], controller, source, inp, n);
    }
  }

  lemma ChangeHealthOwns(g: Game, next: ResolutionId, context: EffectContext, damage: bool, selector: Selector,
                         inp: Input,
                         n: Ledger)
    requires Settles(g, next, n)
    ensures Owns(n, next, ChangeHealth(g, context, damage, selector, inp))
  {
    NeutralResult(n, next, ChangeHealth(g, context, damage, selector, inp));
  }

  lemma ModifyOwns(g: Game, next: ResolutionId, event: Option<EventId>, operation: ValueOperation, operand: int,
                   n: Ledger)
    requires Settles(g, next, n)
    ensures Owns(n, next, Modify(g, event, operation, operand))
  {
    var r := Modify(g, event, operation, operand);
    if r.Ok? {
      var p := r.value.game.events[event.value];
      RewrittenEventSettles(g.events, g.slots, n.events, event.value, p);
      assert OwnSnapshot(g.events[event.value], event.value);
      assert EventsNamed(g.events[event.value := p], g.nextEvent);
      NeutralStep(n, next, r.value);
    }
  }

  lemma EquipIsOwed(g: Game, next: ResolutionId, weapon: EntityId, inp: Input, n: Ledger)
    requires Settles(g, next, n) && BeginEquip(g, weapon, inp).Ok?
    ensures weapon !in n.equips
    ensures Settles(BeginEquip(g, weapon, inp).value, next, n.(equips := n.equips + {weapon}))
  {
    var begun := g.(equips := g.equips[weapon := inp.weapon]);
    assert begun.equips.Keys == n.equips + {weapon};
    MovedSettles(begun, inp, next, n.(equips := n.equips + {weapon}));
  }

  lemma EquippedOwns(g: Game, next: ResolutionId, weapon: EntityId, player: PlayerId, inp: Input, n: Ledger)
    requires Settles(g, next, n) && BeginEquip(g, weapon, inp).Ok?
    ensures Resettled(n, next, Step(BeginEquip(g, weapon, inp).value,
                                    [PrepareEvent(Plain(WeaponEquipped, Some(weapon), [weapon], player)),
                                     RunStep(FinishEquip(weapon))]))
  {
    EquipIsOwed(g, next, weapon, inp, n);
    var announce := PrepareEvent(Plain(WeaponEquipped, Some(weapon), [weapon], player));
    var done := RunStep(FinishEquip(weapon));
    var m := n.(equips := n.equips + {weapon});
    NeutralAbove(n, m, next, [announce], done);
    assert [announce] + [done] == [announce, done];
    ResettledBy(n, next, Step(BeginEquip(g, weapon, inp).value, [announce, done]), m);
  }

  lemma ReplacedOwns(g: Game, next: ResolutionId, natives: set<NativeId>, player: PlayerId, r: HeroReplacement,
                     inp: Input,
                     n: Ledger)
    requires Settles(g, next, n)
    ensures Owns(n, next, Replaced(g, natives, player, r, inp))
  {
    MovedSettles(g, inp, next, n);
    SpawnSettles(Moved(g, inp), [r.hero, r.heroPower], Play, player, next, n);
    var installed := Spawn(Moved(g, inp), [r.hero, r.heroPower], Play, player);
    var result := Replaced(g, natives, player, r, inp);
    if result.Ok? && r.weapon.None? {
      NeutralStep(n, next, result.value);
    } else if result.Ok? {
      SpawnSettles(installed, [r.weapon.value], SetAside, player, next, n);
      EquippedOwns(Spawn(installed, [r.weapon.value], SetAside, player), next, installed.nextEntity, player, inp, n);
    }
  }

  lemma ChoiceEffectOwns(g: Game, env: Env, context: EffectContext, effect: Effect, event: Option<EventId>,
                         scope: Option<ResolutionId>, inp: Input, n: Ledger)
    requires Settles(g, env.next, n) && Borrows(n, context, event, scope) && effect.Choose?
    ensures Owns(n, env.next, RunOneEffect(g, env, context, effect, event, scope, inp))
  {
    ChooseOwns(g, env.next, env.natives, context, effect, n);
  }

  lemma NativeEffectOwns(g: Game, env: Env, context: EffectContext, effect: Effect, event: Option<EventId>,
                         scope: Option<ResolutionId>, inp: Input, n: Ledger)
    requires Settles(g, env.next, n) && Borrows(n, context, event, scope) && effect.Native?
    ensures Owns(n, env.next, RunOneEffect(g, env, context, effect, event, scope, inp))
  {
    NativeOwns(g, env.next, env.natives, context, effect.native, event, inp, n);
  }

  lemma SequenceEffectOwns(g: Game, env: Env, context: EffectContext, effect: Effect, event: Option<EventId>,
                           scope: Option<ResolutionId>, inp: Input, n: Ledger)
    requires Settles(g, env.next, n) && Borrows(n, context, event, scope) && effect.Sequence?
    ensures Owns(n, env.next, RunOneEffect(g, env, context, effect, event, scope, inp))
  {
    assert RunOneEffect(g, env, context, effect, event, scope, inp) ==
        Ok(Step(g, Effects(context, effect.effects, event, scope)));
    ProgramOwns(g, env.next, context, effect.effects, event, scope, n);
  }

  lemma TransformEffectOwns(g: Game, env: Env, context: EffectContext, effect: Effect, event: Option<EventId>,
                            scope: Option<ResolutionId>, inp: Input, n: Ledger)
    requires Settles(g, env.next, n) && Borrows(n, context, event, scope) && effect.Transform?
    ensures Owns(n, env.next, RunOneEffect(g, env, context, effect, event, scope, inp))
  {
    var targets := Select(context, effect.targets, inp);
    assert RunOneEffect(g, env, context, effect, event, scope, inp) ==
           Ok(Step(g, Transforms(targets, scope, context.source, effect.card, effect.kind)));
    TransformsOwn(g, env.next, context, targets, scope, effect.card, effect.kind, n);
  }

  lemma CopyEffectOwns(g: Game, env: Env, context: EffectContext, effect: Effect, event: Option<EventId>,
                       scope: Option<ResolutionId>, inp: Input, n: Ledger)
    requires Settles(g, env.next, n) && Borrows(n, context, event, scope) && effect.Copy?
    ensures Owns(n, env.next, RunOneEffect(g, env, context, effect, event, scope, inp))
  {
    var targets, player := Select(context, effect.targets, inp), ResolvePlayer(context.controller, effect.player);
    assert RunOneEffect(g, env, context, effect, event, scope, inp) ==
           Ok(Step(g, Copies(g.world, targets, context.source, player, effect.zone)));
    CopiesOwn(g, env.next, targets, context.source, player, effect.zone, n);
  }

  lemma DrawEffectOwns(g: Game, env: Env, context: EffectContext, effect: Effect, event: Option<EventId>,
                       scope: Option<ResolutionId>, inp: Input, n: Ledger)
    requires Settles(g, env.next, n) && Borrows(n, context, event, scope) && (effect.Draw? || effect.DrawThen?)
    ensures Owns(n, env.next, RunOneEffect(g, env, context, effect, event, scope, inp))
  {
    var player := ResolvePlayer(context.controller, effect.player);
    if effect.Draw? {
      DrawOwns(g, env.next, player, context.source, effect.count, n);
    } else {
      DrawThenOwns(g, env.next, context, player, effect.effects, effect.policy, n);
    }
  }

  lemma EffectOwns(g: Game, env: Env, context: EffectContext, effect: Effect, event: Option<EventId>,
                   scope: Option<ResolutionId>, inp: Input, n: Ledger)
    requires Settles(g, env.next, n) && Borrows(n, context, event, scope)
    ensures Owns(n, env.next, RunOneEffect(g, env, context, effect, event, scope, inp))
  {
    if effect.Choose? {
      ChoiceEffectOwns(g, env, context, effect, event, scope, inp, n);
    } else if effect.Native? {
      NativeEffectOwns(g, env, context, effect, event, scope, inp, n);
    } else if effect.Sequence? {
      SequenceEffectOwns(g, env, context, effect, event, scope, inp, n);
    } else if effect.Transform? {
      TransformEffectOwns(g, env, context, effect, event, scope, inp, n);
    } else if effect.Copy? {
      CopyEffectOwns(g, env, context, effect, event, scope, inp, n);
    } else if effect.Draw? || effect.DrawThen? {
      DrawEffectOwns(g, env, context, effect, event, scope, inp, n);
    } else {
      OtherEffectOwns(g, env, context, effect, event, scope, inp, n);
    }
  }

  lemma OtherEffectOwns(g: Game, env: Env, context: EffectContext, effect: Effect, event: Option<EventId>,
                        scope: Option<ResolutionId>, inp: Input, n: Ledger)
    requires Settles(g, env.next, n)
    requires !effect.Choose? && !effect.Native? && !effect.Sequence? && !effect.Transform? && !effect.Copy?
    requires !effect.Draw? && !effect.DrawThen?
    ensures Owns(n, env.next, RunOneEffect(g, env, context, effect, event, scope, inp))
  {
    if effect.ReplaceHero? {
      ReplacedOwns(g, env.next, env.natives, ResolvePlayer(context.controller, effect.player), effect.replacement,
                   inp, n);
    } else if effect.Summon? {
      SummonResultOwns(g, env.next, effect.card, ResolvePlayer(context.controller, effect.player), context.source,
                       inp, n);
    } else if effect.AttachTriggers? {
      AttachOwns(g, env.next, env.natives, Select(context, effect.targets, inp), effect.triggers, context.controller,
                 inp, n);
    } else if effect.DealDamage? || effect.Heal? {
      ChangeHealthOwns(g, env.next, context, effect.DealDamage?, effect.targets, inp, n);
    } else if effect.ModifyEventValue? {
      ModifyOwns(g, env.next, event, effect.operation, inp.operand, n);
    } else {
      ChangeWorldOwns(g, env.next, inp, n);
    }
  }

  lemma ChangeWorldOwns(g: Game, next: ResolutionId, inp: Input, n: Ledger)
    requires Settles(g, next, n)
    ensures Owns(n, next, ChangeWorld(g, inp))
  {
    MovedSettles(g, inp, next, n);
    NeutralResult(n, next, ChangeWorld(g, inp));
  }

  // ---------- Sequence steps ----------

  lemma OpenedScopeSettles(g: Game, next: ResolutionId, card: EntityId, n: Ledger, later: ResolutionId)
    requires Settles(g, next, n) && n.scopes == map[] && next < later
    requires card in g.world && g.world[card].card.kind == Minion
    ensures Settles(g.(scopes := g.scopes[next := card]), later, n.(scopes := map[next := card]))
  {
    assert MarksScoped(g.transforms, n.scopes) && g.transforms == {};
    assert ScopesLive(map[next := card], g.world, later);
  }

  lemma PlayScopedOwns(g: Game, next: ResolutionId, context: EffectContext, card: EntityId, entry: seq<Operation>,
                       program: seq<Effect>, seeds: seq<Seed>, n: Ledger)
    requires Settles(g, next, n) && n.scopes == map[] && context.source == Some(card)
    requires card in g.world && g.world[card].card.kind == Minion
    requires forall op :: op in entry ==> Neutral(n.(scopes := map[next := card]), op)
    ensures Resettled(n, next, PlayScoped(g, next, context, card, entry, program, seeds))
  {
    var step := PlayScoped(g, next, context, card, entry, program, seeds);
    var m := n.(scopes := map[next := card]);
    EffectsOnlyBorrow(m, context, program, None, Some(next));
    NeutralAbove(n, m, next, entry + Effects(context, program, None, Some(next)), FinishPlayedSelf(card, seeds));
    OpenedScopeSettles(g, next, card, n, next + |step.pushes|);
  }

  lemma PlayMinionOrSpellOwns(g: Game, env: Env, player: PlayerId, card: EntityId, target: Option<EntityId>,
                              inp: Input, n: Ledger)
    requires card in g.world && Settles(g, env.next, n) && n.scopes == map[]
    ensures Resettled(n, env.next, PlayMinionOrSpell(g, env, player, card, target, inp))
  {
    var played := g.world[card].card;
    var moved := Moved(g, inp);
    MovedSettles(g, inp, env.next, n);
    var context := EffectContext(Some(card), player, target, None);
    var entry := PlayEntry(card, played.kind, player, target);
    if played.kind == Minion && ContainsPlayedSelf(played.effects) {
      PlayScopedOwns(moved, env.next, context, card, entry, played.effects,
                     Discover(moved.world, AfterPlay, inp.seeds), n);
    } else {
      EffectsOnlyBorrow(n, context, played.effects, None, None);
      NeutralStep(n, env.next, Step(moved, entry + Effects(context, played.effects, None, None)));
    }
  }

  /** The last three operations of a weapon play. */
  lemma WeaponEndingCharges(n: Ledger, next: ResolutionId, weapon: EntityId, e: EventId)
    requires weapon !in n.equips && e !in n.events
    ensures ChargeAll(n, next, [RunStep(FinishEquip(weapon)), RunPhaseBoundary, ResolveEvent(e)]) ==
            Some(n.(events := n.events[e := false], equips := n.equips + {weapon}))
  {
    var ops := [RunStep(FinishEquip(weapon)), RunPhaseBoundary, ResolveEvent(e)];
    var m := n.(events := n.events[e := false]);
    NeutralAbove(n, m, next, [RunPhaseBoundary], ResolveEvent(e));
    assert ops[1..] == [RunPhaseBoundary] + [ResolveEvent(e)];
  }

  lemma WeaponPushesCharge(n: Ledger, next: ResolutionId, player: PlayerId, weapon: EntityId, target: Option<EntityId>,
                           program: seq<Effect>, e: EventId)
    requires weapon !in n.equips && e !in n.events
    ensures ChargeAll(n, next, WeaponEntry(weapon, player, target, program)
                               + [RunStep(FinishEquip(weapon)), RunPhaseBoundary, ResolveEvent(e)]) ==
            Some(n.(events := n.events[e := false], equips := n.equips + {weapon}))
  {
    var k := n.(events := n.events[e := false], equips := n.equips + {weapon});
    var entry := WeaponEntry(weapon, player, target, program);
    WeaponEndingCharges(n, next, weapon, e);
    ChargeConcatenation(n, next, entry, [RunStep(FinishEquip(weapon)), RunPhaseBoundary, ResolveEvent(e)]);
    EffectsOnlyBorrow(k, EffectContext(Some(weapon), player, target, None), program, None, None);
    NeutralOpsChargeNothing(k, next + 3, entry);
  }

  lemma PlayWeaponOwns(g: Game, next: ResolutionId, player: PlayerId, weapon: EntityId, target: Option<EntityId>,
                       inp: Input,
                       n: Ledger)
    requires weapon in g.world && Settles(g, next, n)
    ensures Owns(n, next, PlayWeapon(g, player, weapon, target, inp))
  {
    var r := PlayWeapon(g, player, weapon, target, inp);
    if r.Ok? {
      var e := g.nextEvent;
      var seeds := Some(Discover(g.world, AfterPlay, inp.seeds));
      var context := Plain(AfterPlay, Some(weapon), [weapon], player);
      RecordOwesTheEvent(g, context, seeds, next, n);
      EquipIsOwed(Record(g, context, seeds), next, weapon, inp, n.(events := n.events[e := false]));
      WeaponPushesCharge(n, next, player, weapon, target, g.world[weapon].card.effects, e);
      ResettledBy(n, next, r.value, n.(events := n.events[e := false], equips := n.equips + {weapon}));
    }
  }

  lemma HeroPowerOwns(g: Game, next: ResolutionId, player: PlayerId, power: EntityId, target: Option<EntityId>,
                      inp: Input,
                      n: Ledger)
    requires Settles(g, next, n)
    ensures Owns(n, next, HeroPowerStep(g, player, power, target, inp))
  {
    var r := HeroPowerStep(g, player, power, target, inp);
    if r.Ok? {
      var effects := Effects(EffectContext(Some(power), player, target, None), g.world[power].card.effects, None, None);
      var before := effects + [RunStep(FinishHeroPower(power)), RunPhaseBoundary];
      RecordAndResolve(g, Plain(AfterHeroPower, Some(power), FromOption(target), player),
                       Some(Discover(g.world, AfterHeroPower, inp.seeds)), next, n, before);
      assert r.value.pushes == before + [ResolveEvent(g.nextEvent)];
    }
  }

  /** The durability payer is captured under the id its payment will have. */
  lemma CapturedPayerCharges(n: Ledger, next: ResolutionId, requests: seq<HealthRequest>, payer: Payer,
                             finish: SequenceStep)
    requires finish.FinishAttack? && PayersBelow(n.payers, next)
    ensures ChargeAll(n, next, CombatOps(requests, Some(payer), finish)) ==
      Some(n.(payers := n.payers[next + 1 := payer]))
  {
    var ops := CombatOps(requests, Some(payer), finish);
    ChargeOne(n, next, RunStep(finish));
    assert ops[1..][1..] == [RunStep(finish)];
  }

  lemma CombatDamageOwns(g: Game, env: Env, player: PlayerId, attacker: EntityId, defender: EntityId, inp: Input,
                         n: Ledger)
    requires Settles(g, env.next, n)
    ensures Resettled(n, env.next, CombatDamageStep(g, env, player, attacker, defender, inp))
  {
    var step := CombatDamageStep(g, env, player, attacker, defender, inp);
    var weapon := AttackWeapon(g.world, attacker, inp.weapon);
    if g.over || weapon.None? {
      NeutralStep(n, env.next, step);
    } else {
      var payer := weapon.value;
      CapturedPayerCharges(n, env.next, CombatRequests(attacker, defender, inp), payer,
                           FinishAttack(player, attacker, defender));
      LaterStillSettles(g, env.next, env.next + 3, n);
      assert PayersBelow(n.payers[env.next + 1 := payer], env.next + 3);
    }
  }

  lemma FinishEquipOwns(g: Game, next: ResolutionId, weapon: EntityId, inp: Input, n: Ledger)
    requires weapon !in n.equips && Settles(g, next, n.(equips := n.equips + {weapon}))
    ensures weapon in g.equips && Settles(Moved(g.(equips := g.equips - {weapon}), inp), next, n)
  {
    var closed := g.(equips := g.equips - {weapon});
    assert closed.equips.Keys == n.equips;
    MovedSettles(closed, inp, next, n);
  }

  lemma StepOwns(g: Game, env: Env, id: ResolutionId, step: SequenceStep, inp: Input, n: Ledger, m: Ledger)
    requires ChargeStep(n, id, step) == Some(m) && Settles(g, env.next, m) && !step.ConsumeDurability?
    ensures Owns(n, env.next, RunSequenceStep(g, env, step, inp))
  {
    var r := RunSequenceStep(g, env, step, inp);
    if step.PlayCard? {
      PlayCardOwns(g, env, step.player, step.card, step.target, inp, n);
    } else if step.UseHeroPower? {
      HeroPowerOwns(g, env.next, step.player, step.power, step.target, inp, n);
    } else if step.PrepareCombatDamage? {
      CombatDamageOwns(g, env, step.player, step.attacker, step.defender, inp, n);
    } else if step.FinishEquip? {
      FinishEquipOwns(g, env.next, step.weapon, inp, n);
      NeutralResult(n, env.next, r);
    } else {
      PlainStepOwns(g, env, step, inp, n);
    }
  }

  /** Steps that take nothing from the tables and push only operations that borrow. */
  lemma PlainStepOwns(g: Game, env: Env, step: SequenceStep, inp: Input, n: Ledger)
    requires Settles(g, env.next, n)
    requires !step.PlayCard? && !step.UseHeroPower? && !step.PrepareCombatDamage? && !step.FinishEquip?
    requires !step.ConsumeDurability?
    ensures Owns(n, env.next, RunSequenceStep(g, env, step, inp))
  {
    MovedSettles(g, inp, env.next, n);
    NeutralResult(n, env.next, RunSequenceStep(g, env, step, inp));
  }

  lemma PlayCardOwns(g: Game, env: Env, player: PlayerId, card: EntityId, target: Option<EntityId>, inp: Input,
                     n: Ledger)
    requires Settles(g, env.next, n) && n.scopes == map[]
    ensures Owns(n, env.next, PlayCardStep(g, env, player, card, target, inp))
  {
    if card in g.world {
      if g.world[card].card.kind == Weapon {
        PlayWeaponOwns(g, env.next, player, card, target, inp, n);
      } else {
        PlayMinionOrSpellOwns(g, env, player, card, target, inp, n);
      }
    }
  }

  lemma PaidDurabilityOwns(g: Game, next: ResolutionId, id: ResolutionId, payer: Payer, n: Ledger)
    requires id !in n.payers && Settles(g, next, n.(payers := n.payers[id := payer]))
    ensures id in g.payers && g.payers[id] == payer
    ensures Settles(g.(payers := g.payers - {id}), next, n)
  {
    assert g.payers - {id} == n.payers;
  }

  // ---------- Any operation ----------

  lemma DispatchedStepOwns(g: Game, env: Env, id: ResolutionId, op: Operation, inp: Input, n: Ledger, m: Ledger)
    requires Charge(n, id, op) == Some(m) && Settles(g, env.next, m) && !op.RequestChoice?
    requires op.RunStep? || op.RunGuardedStep?
    ensures Owns(n, env.next, Dispatch(g, env, id, op, inp))
  {
    if op.step.ConsumeDurability? {
      PaidDurabilityOwns(g, env.next, id, (op.step.player, op.step.weapon), n);
      NeutralResult(n, env.next, Dispatch(g, env, id, op, inp));
    } else if op.RunStep? {
      StepOwns(g, env, id, op.step, inp, n, m);
    } else {
      if GuardsHold(g.world, op.guards) {
        StepOwns(g, env, id, op.step, inp, n, n);
      } else {
        NeutralStep(n, env.next, Step(g, []));
      }
    }
  }

  lemma DispatchedEventOpOwns(g: Game, env: Env, id: ResolutionId, op: Operation, inp: Input, n: Ledger, m: Ledger)
    requires Charge(n, id, op) == Some(m) && Settles(g, env.next, m) && !op.RequestChoice?
    requires EventOperation(op)
    ensures Owns(n, env.next, Dispatch(g, env, id, op, inp))
  {
    var next := env.next;
    var r := Dispatch(g, env, id, op, inp);
    if op.ResolveEvent? {
      if r.Ok? { ExpandOwns(g, next, id, op.event, inp, n, m, r.value); }
    } else if op.FinishEvent? {
      FinishEventOwns(g, next, id, op.event, n, m);
    } else if op.ResolveEventSlot? {
      if r.Ok? { RunSlotOwns(g, next, id, op.slot, n, m, r.value); }
    } else if op.AttemptTrigger? {
      if r.Ok? { AttemptOwns(g, next, id, op.candidate, inp, n, r.value); }
    } else if op.RunPhaseBoundary? {
      PhaseBoundaryOwns(g, next, inp, n);
    } else {
      RecordAndResolve(g, op.eventContext, None, next, n, []);
      assert [] + [ResolveEvent(g.nextEvent)] == [ResolveEvent(g.nextEvent)];
    }
  }

  lemma DispatchedHealthOpOwns(g: Game, env: Env, id: ResolutionId, op: Operation, inp: Input, n: Ledger, m: Ledger)
    requires Charge(n, id, op) == Some(m) && Settles(g, env.next, m) && !op.RequestChoice?
    requires HealthOperation(op)
    ensures Owns(n, env.next, Dispatch(g, env, id, op, inp))
  {
    if op.ProcessDamageBatch? || op.ProcessHealingBatch? {
      ExpandBatchOwns(g, env.next, op.ProcessDamageBatch?, op.requests, n);
    } else if op.ProcessDamage? || op.ProcessHealing? {
      ProcessHealthOwns(g, env.next, op.ProcessDamage?, op.request, op.slot, inp, n, m);
    } else {
      ApplyHealthOwns(g, env.next, op.ApplyDamage?, op.request, op.event, op.slot, inp, n, m);
    }
  }

  lemma DispatchedDrawOpOwns(g: Game, env: Env, id: ResolutionId, op: Operation, inp: Input, n: Ledger, m: Ledger)
    requires Charge(n, id, op) == Some(m) && Settles(g, env.next, m) && !op.RequestChoice?
    requires DrawOperation(op)
    ensures Owns(n, env.next, Dispatch(g, env, id, op, inp))
  {
    var r := Dispatch(g, env, id, op, inp);
    if op.ProcessDraw? {
      if r.Ok? { FillDrawOwns(g, env.next, op.drawer, op.drawSource, op.result, inp, n, m, r.value); }
    } else {
      TakeDrawPays(g, env.next, op.result, n, m);
      if op.FinishDraw? {
        NeutralResult(n, env.next, r);
      } else {
        ContinueDrawOwns(g, env.next, op.result, op.context, op.effects, op.policy, n, m, r.value);
      }
    }
  }

  lemma DispatchedTransformOwns(g: Game, env: Env, id: ResolutionId, op: Operation, inp: Input, n: Ledger, m: Ledger)
    requires Charge(n, id, op) == Some(m) && Settles(g, env.next, m) && !op.RequestChoice?
    requires op.TransformEntity?
    ensures Owns(n, env.next, Dispatch(g, env, id, op, inp))
  {
    var r := Dispatch(g, env, id, op, inp);
    if r.Ok? { TransformOwns(g, env.next, env.natives, op, inp, n, r.value); }
  }

  lemma DispatchedCopyOwns(g: Game, env: Env, id: ResolutionId, op: Operation, inp: Input, n: Ledger, m: Ledger)
    requires Charge(n, id, op) == Some(m) && Settles(g, env.next, m) && !op.RequestChoice?
    requires op.CopyEntity?
    ensures Owns(n, env.next, Dispatch(g, env, id, op, inp))
  {
    var r := Dispatch(g, env, id, op, inp);
    if r.Ok? { CopyOwns(g, env.next, env.natives, WithLivePolicy(g.world, op), inp, n, r.value); }
  }

  lemma DispatchedRestOwns(g: Game, env: Env, id: ResolutionId, op: Operation, inp: Input, n: Ledger, m: Ledger)
    requires Charge(n, id, op) == Some(m) && Settles(g, env.next, m) && !op.RequestChoice?
    requires op.RefreshAuras? || op.CheckOutcome? || op.FinishTrigger? || op.FinishPlayedSelf?
    ensures Owns(n, env.next, Dispatch(g, env, id, op, inp))
  {
    if op.FinishPlayedSelf? {
      FinishPlayOwns(g, env.next, id, op.subject, op.originalAfterPlay, n, m);
    } else {
      NeutralResult(n, env.next, Dispatch(g, env, id, op, inp));
    }
  }

  /**
   What a dispatched operation takes away it pays for, what it pushes settles
   on top of the rest, and it never reports a mismatch between stack and tables.
   */
  lemma DispatchOwns(g: Game, env: Env, id: ResolutionId, op: Operation, inp: Input, n: Ledger, m: Ledger)
    requires Charge(n, id, op) == Some(m) && Settles(g, env.next, m) && !op.RequestChoice?
    ensures Owns(n, env.next, Dispatch(g, env, id, op, inp))
  {
    if EventOperation(op) {
      DispatchedEventOpOwns(g, env, id, op, inp, n, m);
    } else if HealthOperation(op) {
      DispatchedHealthOpOwns(g, env, id, op, inp, n, m);
    } else if DrawOperation(op) {
      DispatchedDrawOpOwns(g, env, id, op, inp, n, m);
    } else if op.RunPlayEffect? {
      assert op.scope in n.scopes;
      EffectOwns(g, env, op.context, op.effect, None, Some(op.scope), inp, n);
    } else if op.RunEffect? {
      EffectOwns(g, env, op.context, op.effect, op.borrowed, None, inp, n);
    } else if op.RunStep? || op.RunGuardedStep? {
      DispatchedStepOwns(g, env, id, op, inp, n, m);
    } else if op.TransformEntity? {
      DispatchedTransformOwns(g, env, id, op, inp, n, m);
    } else if op.CopyEntity? {
      DispatchedCopyOwns(g, env, id, op, inp, n, m);
    } else {
      DispatchedRestOwns(g, env, id, op, inp, n, m);
    }
  }
}
