/** Typed effects, plays and steps, and so every dispatched operation. */
module TypingEffects {
  import opened Outcomes
  import opened Players
  import opened EffectLanguage
  import opened ResolutionMachine
  import opened ResolutionTyping
  import opened TypingSteps

  // ---------- Transformation, copying, play scopes ----------

  lemma ChangedCardExtends(natives: set<NativeId>, g: Game, target: EntityId, card: Card)
    requires GameTyped(natives, g) && CheckCard(natives, card).None?
    requires target in g.world && g.world[target].card.kind == Minion && card.kind == Minion
    ensures Extends(natives, g, g.(world := g.world[target := g.world[target].(card := card, silenced := false)]))
  {
    CheckedTriggersAreTyped(natives, card.triggers);
  }

  lemma TransformTargetExtends(natives: set<NativeId>, g: Game, target: EntityId, card: Card, inp: Input)
    requires GameTyped(natives, g) && CheckCard(natives, card).None?
    ensures match TransformTarget(g, natives, target, card, inp)
            case Err(f) => !GoesWrong(f)
            case Ok(changed) => Extends(natives, g, changed)
  {
    if target in g.world && g.world[target].card.kind == Minion && card.kind == Minion && !inp.fails {
      var changed := g.(world := g.world[target := g.world[target].(card := card, silenced := false)]);
      ChangedCardExtends(natives, g, target, card);
      MovedExtends(natives, changed, inp);
      ExtendsTransitively(natives, g, changed, Moved(changed, inp));
    }
  }

  lemma TransformIsTyped(natives: set<NativeId>, g: Game, op: Operation, inp: Input)
    requires GameTyped(natives, g) && op.TransformEntity? && OpTyped(natives, g.world, g.created, op)
    ensures StaysTyped(natives, g, RunTransform(g, natives, op, inp))
  {
    TransformTargetExtends(natives, g, op.target, op.card, inp);
    if RunTransform(g, natives, op, inp).Ok? {
      ChangedIsTyped(natives, g, op, inp, TransformTarget(g, natives, op.target, op.card, inp).value);
    }
  }

  lemma ChangedIsTyped(natives: set<NativeId>, g: Game, op: Operation, inp: Input, changed: Game)
    requires op.TransformEntity? && RunTransform(g, natives, op, inp).Ok? && Extends(natives, g, changed)
    requires TransformTarget(g, natives, op.target, op.card, inp) == Ok(changed)
    ensures StaysTyped(natives, g, RunTransform(g, natives, op, inp))
  {
    if op.kind == PlayedSelf {
      MarkedTransformExtends(natives, g, changed, op.target);
      TypedResult(natives, g, Ok(Step(changed.(transforms := changed.transforms + {op.target}), [])));
    } else {
      TypedResult(natives, g, Ok(Step(changed, if op.kind == NonSpell then [RefreshAuras] else [])));
    }
  }

  lemma MarkedTransformExtends(natives: set<NativeId>, g: Game, changed: Game, target: EntityId)
    requires Extends(natives, g, changed)
    ensures Extends(natives, g, changed.(transforms := changed.transforms + {target}))
  {
  }

  lemma FinishPlayIsTyped(natives: set<NativeId>, g: Game, id: ResolutionId, subject: EntityId, seeds: seq<Seed>)
    requires GameTyped(natives, g) && forall s :: s in seeds ==> SeedTyped(natives, s, AfterPlay)
    ensures StaysTyped(natives, g, FinishPlay(g, id, subject, seeds))
  {
    var closed := g.(scopes := g.scopes - {id}, transforms := g.transforms - {subject});
    OtherTables(natives, g, closed);
    if subject in g.transforms && LivePlayScope(g, id, subject) {
      AfterPlayedSelfIsTyped(natives, closed, subject, g.world[subject].controller, seeds);
      var step := AfterPlayedSelf(closed, subject, g.world[subject].controller, seeds);
      ExtendsTransitively(natives, g, closed, step.game);
      TypedResult(natives, g, Ok(step));
    } else {
      TypedResult(natives, g, FinishPlay(g, id, subject, seeds));
    }
  }

  lemma AfterPlayedSelfIsTyped(natives: set<NativeId>, g: Game, subject: EntityId, controller: PlayerId,
                               seeds: seq<Seed>)
    requires GameTyped(natives, g) && forall s :: s in seeds ==> SeedTyped(natives, s, AfterPlay)
    ensures Extends(natives, g, AfterPlayedSelf(g, subject, controller, seeds).game)
  {
    var first := Plain(AfterPlayAndSummon, Some(subject), [subject], controller);
    RecordExtends(natives, g, first, None);
    var inserted := Record(g, first, None);
    RecordExtends(natives, inserted, Plain(AfterPlay, Some(subject), [subject], controller), Some(seeds));
    ExtendsTransitively(natives, g, inserted, AfterPlayedSelf(g, subject, controller, seeds).game);
  }

  lemma SummonsAreTyped(natives: set<NativeId>, g: Game, cards: seq<Card>, controller: PlayerId,
                        source: Option<EntityId>, inp: Input)
    requires GameTyped(natives, g) && forall c :: c in cards ==> TriggersTyped(natives, c.triggers)
    ensures StaysTyped(natives, g, Ok(AnnounceSummons(g, cards, controller, source, inp)))
  {
    var step := AnnounceSummons(g, cards, controller, source, inp);
    var spawned := Spawn(g, cards, Play, controller);
    SpawnExtends(natives, g, cards, Play, controller);
    MovedExtends(natives, spawned, inp);
    ExtendsTransitively(natives, g, spawned, Moved(spawned, inp));
    RecordExtends(natives, Moved(spawned, inp), Plain(Summoned, source, [g.nextEntity], controller), None);
    ExtendsTransitively(natives, g, Moved(spawned, inp), step.game);
    TypedResult(natives, g, Ok(step));
  }

  lemma CopyIsTyped(natives: set<NativeId>, g: Game, op: Operation, inp: Input)
    requires GameTyped(natives, g) && op.CopyEntity?
    ensures StaysTyped(natives, g, RunCopy(g, natives, op, inp))
  {
    var r, prepared := RunCopy(g, natives, op, inp), PrepareCopy(g, natives, op, inp);
    Unchanged(natives, g);
    if prepared != Ok(true) {
      TypedResult(natives, g, r);
    } else {
      var card := g.world[op.original].card;
      if op.playState {
        SummonsAreTyped(natives, g, [card] + AttachedCards(g.world, inp.attachments), op.copyController,
                        op.originating, inp);
      } else {
        var spawned := Spawn(g, [card], op.destination, op.copyController);
        SpawnExtends(natives, g, [card], op.destination, op.copyController);
        MovedExtends(natives, spawned, inp);
        ExtendsTransitively(natives, g, spawned, Moved(spawned, inp));
        TypedResult(natives, g, r);
      }
    }
  }

  // ---------- Effects ----------

  /** The effect was accepted for the event it borrows and the scope it runs in. */
  predicate EffectTyped(natives: set<NativeId>, g: Game, context: EffectContext, effect: Effect, event: Option<EventId>,
                        scope: Option<ResolutionId>) {
    && (event.Some? ==> event.value in g.events && event.value in g.created && scope.None?)
    && (scope.Some? ==> context.source.Some?)
    && CheckEffect(natives, effect, if event.Some? then Some(g.created[event.value]) else None, scope.Some?).None?
  }

  lemma ChooseIsTyped(natives: set<NativeId>, g: Game, context: EffectContext, choice: Effect)
    requires GameTyped(natives, g) && choice.Choose? && CheckEffect(natives, choice, None, false).None?
    ensures StaysTyped(natives, g, RunChoose(g, natives, context, choice))
  {
    var chosen := OptionOps(context, choice.options);
    AcceptedOptions(natives, choice.options);
    forall i | 0 <= i < |chosen| ensures ValidBranch(natives, chosen[i].operations) {
      AcceptedMeansEveryEffect(natives, choice.options[i].effects, None, false);
      forall k | 0 <= k < |chosen[i].operations|
        ensures CheckProgram(natives, [chosen[i].operations[k].effect], None, false).None?
      {
        AcceptedMeansEveryEffect(natives, [choice.options[i].effects[k]], None, false);
      }
    }
    assert UniqueChoices(chosen);
    AcceptedMeansEveryEffect(natives, [choice], None, false);
    Unchanged(natives, g);
    TypedResult(natives, g, RunChoose(g, natives, context, choice));
  }

  lemma ModifyIsTyped(natives: set<NativeId>, g: Game, event: Option<EventId>, operation: ValueOperation, operand: int)
    requires GameTyped(natives, g) && event.Some? && event.value in g.events && Proposed(g.created[event.value])
    ensures StaysTyped(natives, g, Modify(g, event, operation, operand))
  {
    var r := Modify(g, event, operation, operand);
    assert EventTyped(natives, g.events[event.value], event.value);
    var p := r.value.game.events[event.value];
    assert EventTyped(natives, p, event.value);
    RewrittenEventExtends(natives, g, event.value, p);
    TypedResult(natives, g, r);
  }

  lemma ReplacedIsTyped(natives: set<NativeId>, g: Game, player: PlayerId, replacement: HeroReplacement, inp: Input)
    requires GameTyped(natives, g) && CheckReplacement(natives, replacement).None?
    ensures StaysTyped(natives, g, Replaced(g, natives, player, replacement, inp))
  {
    var r := Replaced(g, natives, player, replacement, inp);
    var moved := Moved(g, inp);
    var installed := Spawn(moved, [replacement.hero, replacement.heroPower], Play, player);
    MovedExtends(natives, g, inp);
    CheckedTriggersAreTyped(natives, replacement.hero.triggers);
    CheckedTriggersAreTyped(natives, replacement.heroPower.triggers);
    SpawnExtends(natives, moved, [replacement.hero, replacement.heroPower], Play, player);
    ExtendsTransitively(natives, g, moved, installed);
    if r.Ok? && replacement.weapon.Some? {
      var armed := Spawn(installed, [replacement.weapon.value], SetAside, player);
      CheckedTriggersAreTyped(natives, replacement.weapon.value.triggers);
      SpawnExtends(natives, installed, [replacement.weapon.value], SetAside, player);
      ExtendsTransitively(natives, g, installed, armed);
      BeginEquipExtends(natives, armed, installed.nextEntity, inp);
      ExtendsTransitively(natives, g, armed, r.value.game);
    }
    TypedResult(natives, g, r);
  }

  lemma BeginEquipExtends(natives: set<NativeId>, g: Game, weapon: EntityId, inp: Input)
    requires GameTyped(natives, g)
    ensures BeginEquip(g, weapon, inp).Ok? ==> Extends(natives, g, BeginEquip(g, weapon, inp).value)
  {
    var begun := g.(equips := g.equips[weapon := inp.weapon]);
    OtherTables(natives, g, begun);
    MovedExtends(natives, begun, inp);
    ExtendsTransitively(natives, g, begun, Moved(begun, inp));
  }

  lemma AttachIsTyped(natives: set<NativeId>, g: Game, targets: seq<EntityId>, triggers: seq<Trigger>,
                      controller: PlayerId, inp: Input)
    requires GameTyped(natives, g) && CheckEnchantment(natives, triggers).None?
    ensures StaysTyped(natives, g, RunAttachTriggers(g, natives, targets, triggers, controller, inp))
  {
    AttachedTriggersAreAccepted(natives, triggers);
    CheckedTriggersAreTyped(natives, triggers);
    SpawnExtends(natives, g, Enchantments(targets, triggers), Play, controller);
    TypedResult(natives, g, RunAttachTriggers(g, natives, targets, triggers, controller, inp));
  }

  lemma TransformsAreTyped(natives: set<NativeId>, g: Game, context: EffectContext, effect: Effect,
                           kind: Option<EventKind>,
                           scope: Option<ResolutionId>, inp: Input)
    requires GameTyped(natives, g) && effect.Transform? && CheckEffect(natives, effect, kind, scope.Some?).None?
    requires scope.Some? ==> context.source.Some?
    ensures AllTyped(natives, g, Transforms(Select(context, effect.targets, inp), scope, context.source, effect.card,
                                            effect.kind))
  {
  }

  lemma NativeIsTyped(natives: set<NativeId>, g: Game, context: EffectContext, id: NativeId, event: Option<EventId>,
                      inp: Input)
    requires GameTyped(natives, g) && id in natives && (event.Some? ==> event.value in g.events)
    ensures StaysTyped(natives, g, RunNative(g, natives, context, id, event, inp))
  {
    var r := RunNative(g, natives, context, id, event, inp);
    Unchanged(natives, g);
    if r.Ok? {
      assert event.Some? ==> g.created[event.value] == g.events[event.value].context.kind;
      EffectsAreTyped(natives, g, context, inp.plan.value, event, None);
    }
    TypedResult(natives, g, r);
  }

  lemma DrawIsTyped(natives: set<NativeId>, g: Game, budget: nat, player: PlayerId, source: Option<EntityId>,
                    count: nat)
    requires GameTyped(natives, g)
    ensures StaysTyped(natives, g, RunDraw(g, budget, player, source, count))
  {
    var r := RunDraw(g, budget, player, source, count);
    OtherTables(natives, g, AllocateDraws(g, count));
    DrawOpsAreTyped(natives, AllocateDraws(g, count), player, source, g.nextDraw, count);
    TypedResult(natives, g, r);
  }

  lemma SummonIsTyped(natives: set<NativeId>, g: Game, card: Card, controller: PlayerId, source: Option<EntityId>,
                      inp: Input)
    requires GameTyped(natives, g) && CheckCard(natives, card).None?
    ensures StaysTyped(natives, g, RunSummon(g, card, controller, source, inp))
  {
    if card.kind == Minion && !inp.passes {
      SimpleEffectIsTyped(natives, g, Ok(Step(g, [])));
    } else {
      CheckedTriggersAreTyped(natives, card.triggers);
      SummonsAreTyped(natives, g, [card], controller, source, inp);
    }
  }

  lemma SimpleEffectIsTyped(natives: set<NativeId>, g: Game, r: StepResult)
    requires GameTyped(natives, g) && (r.Err? ==> !GoesWrong(r.error))
    requires r.Ok? ==> r.value.game == g && AllTyped(natives, g, r.value.pushes)
    ensures StaysTyped(natives, g, r)
  {
    Unchanged(natives, g);
  }

  lemma ChangeWorldIsTyped(natives: set<NativeId>, g: Game, inp: Input)
    requires GameTyped(natives, g)
    ensures StaysTyped(natives, g, ChangeWorld(g, inp))
  {
    MovedExtends(natives, g, inp);
    TypedResult(natives, g, ChangeWorld(g, inp));
  }

  predicate ProgramEffect(effect: Effect) {
    effect.Sequence? || effect.Transform? || effect.DealDamage? || effect.Heal? || effect.Copy? || effect.Draw?
      || effect.DrawThen?
  }

  lemma DrawEffectIsTyped(g: Game, env: Env, context: EffectContext, effect: Effect, event: Option<EventId>,
                          scope: Option<ResolutionId>, inp: Input)
    requires GameTyped(env.natives, g) && EffectTyped(env.natives, g, context, effect, event, scope)
    requires effect.Draw? || effect.DrawThen?
    ensures StaysTyped(env.natives, g, RunOneEffect(g, env, context, effect, event, scope, inp))
  {
    if effect.Draw? {
      DrawIsTyped(env.natives, g, env.budget, ResolvePlayer(context.controller, effect.player), context.source,
                  effect.count);
    } else {
      OtherTables(env.natives, g, AllocateDraw(g));
      TypedResult(env.natives, g, RunOneEffect(g, env, context, effect, event, scope, inp));
    }
  }

  lemma TransformEffectIsTyped(g: Game, env: Env, context: EffectContext, effect: Effect, event: Option<EventId>,
                               scope: Option<ResolutionId>, inp: Input)
    requires GameTyped(env.natives, g) && EffectTyped(env.natives, g, context, effect, event, scope)
    requires effect.Transform?
    ensures StaysTyped(env.natives, g, RunOneEffect(g, env, context, effect, event, scope, inp))
  {
    TransformsAreTyped(env.natives, g, context, effect, if event.Some? then Some(g.created[event.value]) else None,
                       scope, inp);
    SimpleEffectIsTyped(env.natives, g, RunOneEffect(g, env, context, effect, event, scope, inp));
  }

  lemma SequenceIsTyped(g: Game, env: Env, context: EffectContext, effect: Effect, event: Option<EventId>,
                        scope: Option<ResolutionId>, inp: Input)
    requires GameTyped(env.natives, g) && EffectTyped(env.natives, g, context, effect, event, scope)
    requires effect.Sequence?
    ensures StaysTyped(env.natives, g, RunOneEffect(g, env, context, effect, event, scope, inp))
  {
    EffectsAreTyped(env.natives, g, context, effect.effects, event, scope);
    SimpleEffectIsTyped(env.natives, g, RunOneEffect(g, env, context, effect, event, scope, inp));
  }

  lemma ProgramEffectIsTyped(g: Game, env: Env, context: EffectContext, effect: Effect, event: Option<EventId>,
                             scope: Option<ResolutionId>, inp: Input)
    requires GameTyped(env.natives, g) && EffectTyped(env.natives, g, context, effect, event, scope)
    requires ProgramEffect(effect)
    ensures StaysTyped(env.natives, g, RunOneEffect(g, env, context, effect, event, scope, inp))
  {
    if effect.Draw? || effect.DrawThen? {
      DrawEffectIsTyped(g, env, context, effect, event, scope, inp);
    } else if effect.Sequence? {
      SequenceIsTyped(g, env, context, effect, event, scope, inp);
    } else if effect.Transform? {
      TransformEffectIsTyped(g, env, context, effect, event, scope, inp);
    } else {
      SimpleEffectIsTyped(env.natives, g, RunOneEffect(g, env, context, effect, event, scope, inp));
    }
  }

  lemma EffectIsTyped(g: Game, env: Env, context: EffectContext, effect: Effect, event: Option<EventId>,
                      scope: Option<ResolutionId>, inp: Input)
    requires GameTyped(env.natives, g) && EffectTyped(env.natives, g, context, effect, event, scope)
    ensures StaysTyped(env.natives, g, RunOneEffect(g, env, context, effect, event, scope, inp))
  {
    var natives := env.natives;
    if ProgramEffect(effect) {
      ProgramEffectIsTyped(g, env, context, effect, event, scope, inp);
    } else if effect.Choose? {
      ChooseIsTyped(natives, g, context, effect);
    } else if effect.ModifyEventValue? {
      ModifyIsTyped(natives, g, event, effect.operation, inp.operand);
    } else if effect.ReplaceHero? {
      ReplacedIsTyped(natives, g, ResolvePlayer(context.controller, effect.player), effect.replacement, inp);
    } else if effect.Summon? {
      SummonIsTyped(natives, g, effect.card, ResolvePlayer(context.controller, effect.player), context.source, inp);
    } else if effect.AttachTriggers? {
      AttachIsTyped(natives, g, Select(context, effect.targets, inp), effect.triggers, context.controller, inp);
    } else if effect.Native? {
      NativeIsTyped(natives, g, context, effect.native, event, inp);
    } else {
      ChangeWorldIsTyped(natives, g, inp);
    }
  }

  // ---------- Sequence steps ----------

  lemma PlayScopedIsTyped(natives: set<NativeId>, g: Game, next: ResolutionId, context: EffectContext, card: EntityId,
                          entry: seq<Operation>, program: seq<Effect>, seeds: seq<Seed>)
    requires GameTyped(natives, g) && CheckProgram(natives, program, None, true).None?
    requires AllTyped(natives, g, entry) && forall s :: s in seeds ==> SeedTyped(natives, s, AfterPlay)
    ensures Extends(natives, g, PlayScoped(g, next, context, card, entry, program, seeds).game)
    ensures var step := PlayScoped(g, next, context, card, entry, program, seeds);
            AllTyped(natives, step.game, step.pushes)
  {
    var scoped := g.(scopes := g.scopes[next := card]);
    OtherTables(natives, g, scoped);
    EffectsAreTyped(natives, scoped, context, program, None, Some(next));
  }

  lemma PlayEntryIsTyped(natives: set<NativeId>, g: Game, card: EntityId, kind: EntityKind, player: PlayerId,
                         target: Option<EntityId>)
    ensures AllTyped(natives, g, PlayEntry(card, kind, player, target))
  {
  }

  /** A minion that needs no scope runs an ordinary program. */
  lemma PlayUnscopedIsTyped(natives: set<NativeId>, g: Game, context: EffectContext, entry: seq<Operation>,
                            program: seq<Effect>,
                            minion: bool)
    requires GameTyped(natives, g) && AllTyped(natives, g, entry)
    requires CheckProgram(natives, program, None, minion).None? && (minion ==> !ContainsPlayedSelf(program))
    ensures AllTyped(natives, g, entry + Effects(context, program, None, None))
  {
    PlayContextAddsOnlyPlayedSelf(natives, program, None);
    EffectsAreTyped(natives, g, context, program, None, None);
    AllTypedTogether(natives, g, entry, Effects(context, program, None, None));
  }

  lemma PlayMinionOrSpellIsTyped(g: Game, env: Env, player: PlayerId, card: EntityId, target: Option<EntityId>,
                                 inp: Input)
    requires GameTyped(env.natives, g) && card in g.world && Playable(env.natives, g.world[card].card)
    ensures StaysTyped(env.natives, g, Ok(PlayMinionOrSpell(g, env, player, card, target, inp)))
  {
    var natives, played, moved := env.natives, g.world[card].card, Moved(g, inp);
    var context := EffectContext(Some(card), player, target, None);
    var entry := PlayEntry(card, played.kind, player, target);
    MovedExtends(natives, g, inp);
    PlayEntryIsTyped(natives, moved, card, played.kind, player, target);
    if played.kind == Minion && ContainsPlayedSelf(played.effects) {
      var seeds := Discover(moved.world, AfterPlay, inp.seeds);
      DiscoveredSeedsAreTyped(natives, moved.world, AfterPlay, inp.seeds);
      PlayScopedIsTyped(natives, moved, env.next, context, card, entry, played.effects, seeds);
      ExtendsTransitively(natives, g, moved, PlayScoped(moved, env.next, context, card, entry, played.effects,
                                                        seeds).game);
    } else {
      PlayUnscopedIsTyped(natives, moved, context, entry, played.effects, played.kind == Minion);
    }
  }

  lemma PlayWeaponIsTyped(natives: set<NativeId>, g: Game, player: PlayerId, weapon: EntityId,
                          target: Option<EntityId>, inp: Input)
    requires GameTyped(natives, g) && weapon in g.world
    requires CheckProgram(natives, g.world[weapon].card.effects, None, false).None?
    ensures StaysTyped(natives, g, PlayWeapon(g, player, weapon, target, inp))
  {
    var r := PlayWeapon(g, player, weapon, target, inp);
    var seeds := Discover(g.world, AfterPlay, inp.seeds);
    DiscoveredSeedsAreTyped(natives, g.world, AfterPlay, inp.seeds);
    var context := Plain(AfterPlay, Some(weapon), [weapon], player);
    var recorded := Record(g, context, Some(seeds));
    RecordExtends(natives, g, context, Some(seeds));
    BeginEquipExtends(natives, recorded, weapon, inp);
    if r.Ok? {
      ExtendsTransitively(natives, g, recorded, r.value.game);
      WeaponPlayIsTyped(natives, r.value.game, player, weapon, target, g.world[weapon].card.effects, g.nextEvent);
    }
    TypedResult(natives, g, r);
  }

  lemma WeaponPlayIsTyped(natives: set<NativeId>, g: Game, player: PlayerId, weapon: EntityId, target: Option<EntityId>,
                          program: seq<Effect>, e: EventId)
    requires CheckProgram(natives, program, None, false).None?
    ensures AllTyped(natives, g, WeaponEntry(weapon, player, target, program)
                                 + [RunStep(FinishEquip(weapon)), RunPhaseBoundary, ResolveEvent(e)])
  {
    EffectsAreTyped(natives, g, EffectContext(Some(weapon), player, target, None), program, None, None);
  }

  lemma HeroPowerIsTyped(natives: set<NativeId>, g: Game, player: PlayerId, power: EntityId, target: Option<EntityId>,
                         inp: Input)
    requires GameTyped(natives, g) && power in g.world
    requires CheckProgram(natives, g.world[power].card.effects, None, false).None?
    ensures StaysTyped(natives, g, HeroPowerStep(g, player, power, target, inp))
  {
    var r := HeroPowerStep(g, player, power, target, inp);
    if r.Ok? {
      var seeds := Discover(g.world, AfterHeroPower, inp.seeds);
      DiscoveredSeedsAreTyped(natives, g.world, AfterHeroPower, inp.seeds);
      RecordExtends(natives, g, Plain(AfterHeroPower, Some(power), FromOption(target), player), Some(seeds));
      EffectsAreTyped(natives, r.value.game, EffectContext(Some(power), player, target, None),
                      g.world[power].card.effects, None, None);
    }
    TypedResult(natives, g, r);
  }

  lemma PlayCardIsTyped(g: Game, env: Env, player: PlayerId, card: EntityId, target: Option<EntityId>, inp: Input)
    requires GameTyped(env.natives, g) && card in g.world && Playable(env.natives, g.world[card].card)
    ensures StaysTyped(env.natives, g, PlayCardStep(g, env, player, card, target, inp))
  {
    if g.world[card].card.kind == Weapon {
      PlayWeaponIsTyped(env.natives, g, player, card, target, inp);
    } else {
      PlayMinionOrSpellIsTyped(g, env, player, card, target, inp);
    }
  }

  lemma StepIsTyped(g: Game, env: Env, step: SequenceStep, inp: Input)
    requires GameTyped(env.natives, g) && StepTyped(env.natives, g.world, step)
    ensures StaysTyped(env.natives, g, RunSequenceStep(g, env, step, inp))
  {
    if step.PlayCard? {
      PlayCardIsTyped(g, env, step.player, step.card, step.target, inp);
    } else if step.UseHeroPower? {
      HeroPowerIsTyped(env.natives, g, step.player, step.power, step.target, inp);
    } else {
      OtherStepIsTyped(g, env, step, inp);
    }
  }

  lemma FinishEquipIsTyped(natives: set<NativeId>, g: Game, weapon: EntityId, inp: Input)
    requires GameTyped(natives, g)
    ensures Extends(natives, g, Moved(g.(equips := g.equips - {weapon}), inp))
  {
    var closed := g.(equips := g.equips - {weapon});
    OtherTables(natives, g, closed);
    MovedExtends(natives, closed, inp);
    ExtendsTransitively(natives, g, closed, Moved(closed, inp));
  }

  lemma CombatIsTyped(g: Game, env: Env, player: PlayerId, attacker: EntityId, defender: EntityId, inp: Input)
    requires GameTyped(env.natives, g)
    ensures StaysTyped(env.natives, g, Ok(CombatDamageStep(g, env, player, attacker, defender, inp)))
  {
    if g.over {
      SimpleEffectIsTyped(env.natives, g, Ok(Step(g, [])));
    } else {
      var payer := AttackWeapon(g.world, attacker, inp.weapon);
      var h := if payer.None? then g else g.(payers := g.payers[env.next + 1 := payer.value]);
      var ops := CombatOps(CombatRequests(attacker, defender, inp), payer, FinishAttack(player, attacker, defender));
      OtherTables(env.natives, g, h);
      CombatOpsAreTyped(env.natives, h, CombatRequests(attacker, defender, inp), payer,
                        FinishAttack(player, attacker, defender));
      TypedResult(env.natives, g, Ok(Step(h, ops)));
    }
  }

  lemma CombatOpsAreTyped(natives: set<NativeId>, g: Game, requests: seq<HealthRequest>, payer: Option<Payer>,
                          finish: SequenceStep)
    requires finish.FinishAttack?
    requires payer.Some? ==> payer.value.1 in g.world && g.world[payer.value.1].card.kind == Weapon
    ensures AllTyped(natives, g, CombatOps(requests, payer, finish))
  {
  }

  lemma AttackIsTyped(natives: set<NativeId>, g: Game, player: PlayerId, attacker: EntityId, defender: EntityId)
    requires GameTyped(natives, g)
    ensures StaysTyped(natives, g, Ok(AttackStep(g, player, attacker, defender)))
  {
    SimpleEffectIsTyped(natives, g, Ok(AttackStep(g, player, attacker, defender)));
  }

  lemma TurnStepIsTyped(g: Game, env: Env, step: SequenceStep, inp: Input)
    requires GameTyped(env.natives, g) && (step.AdvanceTurn? || step.Concede?)
    ensures StaysTyped(env.natives, g, RunSequenceStep(g, env, step, inp))
  {
    if step.Concede? {
      OtherTables(env.natives, g, g.(over := true));
      TypedResult(env.natives, g, Ok(Step(g.(over := true), [])));
    } else if !g.over {
      MovedExtends(env.natives, g, inp);
      TypedResult(env.natives, g, Ok(Step(Moved(g, inp), [RunStep(StartTurn(inp.nextPlayer))])));
    } else {
      SimpleEffectIsTyped(env.natives, g, Ok(Step(g, [])));
    }
  }

  lemma OtherStepIsTyped(g: Game, env: Env, step: SequenceStep, inp: Input)
    requires GameTyped(env.natives, g) && !step.PlayCard? && !step.UseHeroPower?
    ensures StaysTyped(env.natives, g, RunSequenceStep(g, env, step, inp))
  {
    if step.FinishEquip? {
      FinishEquipIsTyped(env.natives, g, step.weapon, inp);
    } else if step.AdvanceTurn? || step.Concede? {
      TurnStepIsTyped(g, env, step, inp);
    } else if step.Attack? {
      AttackIsTyped(env.natives, g, step.player, step.attacker, step.defender);
    } else if step.PrepareCombatDamage? {
      CombatIsTyped(g, env, step.player, step.attacker, step.defender, inp);
    } else {
      SimpleEffectIsTyped(env.natives, g, RunSequenceStep(g, env, step, inp));
    }
  }

  // ---------- Any operation ----------

  /** The event an effect or a trigger borrows is still there: what ownership guarantees. */
  predicate BorrowsLive(g: Game, op: Operation) {
    op.RunEffect? && op.borrowed.Some? ==> op.borrowed.value in g.events
  }

  lemma DispatchedEventOpIsTyped(g: Game, env: Env, id: ResolutionId, op: Operation, inp: Input)
    requires GameTyped(env.natives, g) && OpTyped(env.natives, g.world, g.created, op) && EventOperation(op)
    ensures StaysTyped(env.natives, g, Dispatch(g, env, id, op, inp))
  {
    var natives := env.natives;
    if op.ResolveEvent? {
      ExpandIsTyped(natives, g, op.event, inp);
    } else if op.FinishEvent? {
      TakenEventExtends(natives, g, op.event);
      TypedResult(natives, g, Dispatch(g, env, id, op, inp));
    } else if op.ResolveEventSlot? {
      if op.slot in g.slots { OtherTables(natives, g, g.(slots := g.slots - {op.slot})); }
      TypedResult(natives, g, Dispatch(g, env, id, op, inp));
    } else if op.AttemptTrigger? {
      AttemptIsTyped(natives, g, id, op.candidate, inp);
    } else if op.RunPhaseBoundary? {
      PhaseBoundaryIsTyped(natives, g, inp);
    } else {
      RecordExtends(natives, g, op.eventContext, None);
      TypedResult(natives, g, Dispatch(g, env, id, op, inp));
    }
  }

  lemma DispatchedApplyIsTyped(g: Game, env: Env, id: ResolutionId, op: Operation, inp: Input)
    requires GameTyped(env.natives, g) && (op.ApplyDamage? || op.ApplyHealing?)
    ensures StaysTyped(env.natives, g, Dispatch(g, env, id, op, inp))
  {
    ApplyHealthIsTyped(env.natives, g, op.ApplyDamage?, op.request, op.event, op.slot, inp);
  }

  lemma DispatchedHealthOpIsTyped(g: Game, env: Env, id: ResolutionId, op: Operation, inp: Input)
    requires GameTyped(env.natives, g) && HealthOperation(op)
    ensures StaysTyped(env.natives, g, Dispatch(g, env, id, op, inp))
  {
    if op.ProcessDamageBatch? || op.ProcessHealingBatch? {
      ExpandBatchIsTyped(env.natives, g, op.ProcessDamageBatch?, op.requests);
    } else if op.ProcessDamage? || op.ProcessHealing? {
      ProcessHealthIsTyped(env.natives, g, op.ProcessDamage?, op.request, op.slot, inp);
    } else {
      DispatchedApplyIsTyped(g, env, id, op, inp);
    }
  }

  lemma DispatchedDrawOpIsTyped(g: Game, env: Env, id: ResolutionId, op: Operation, inp: Input)
    requires GameTyped(env.natives, g) && OpTyped(env.natives, g.world, g.created, op) && DrawOperation(op)
    ensures StaysTyped(env.natives, g, Dispatch(g, env, id, op, inp))
  {
    var natives := env.natives;
    if op.ProcessDraw? {
      FillDrawIsTyped(natives, g, op.drawer, op.drawSource, op.result, inp);
    } else if op.ContinueDraw? {
      ContinueDrawIsTyped(natives, g, op.result, op.context, op.effects, op.policy);
    } else {
      if op.result in g.draws { OtherTables(natives, g, g.(draws := g.draws - {op.result})); }
      TypedResult(natives, g, Dispatch(g, env, id, op, inp));
    }
  }

  lemma DispatchedStepIsTyped(g: Game, env: Env, id: ResolutionId, op: Operation, inp: Input)
    requires GameTyped(env.natives, g) && OpTyped(env.natives, g.world, g.created, op)
    requires op.RunStep? || op.RunGuardedStep?
    ensures StaysTyped(env.natives, g, Dispatch(g, env, id, op, inp))
  {
    if op.RunStep? && op.step.ConsumeDurability? {
      OtherTables(env.natives, g, g.(payers := g.payers - {id}));
      TypedResult(env.natives, g, Dispatch(g, env, id, op, inp));
    } else if op.RunStep? || GuardsHold(g.world, op.guards) {
      StepIsTyped(g, env, op.step, inp);
    } else {
      SimpleEffectIsTyped(env.natives, g, Ok(Step(g, [])));
    }
  }

  /** A typed operation stays in a typed game and never goes wrong. */
  lemma DispatchIsTyped(g: Game, env: Env, id: ResolutionId, op: Operation, inp: Input)
    requires GameTyped(env.natives, g) && OpTyped(env.natives, g.world, g.created, op)
    requires BorrowsLive(g, op) && !op.RequestChoice?
    ensures StaysTyped(env.natives, g, Dispatch(g, env, id, op, inp))
  {
    if EventOperation(op) {
      DispatchedEventOpIsTyped(g, env, id, op, inp);
    } else if HealthOperation(op) {
      DispatchedHealthOpIsTyped(g, env, id, op, inp);
    } else if DrawOperation(op) {
      DispatchedDrawOpIsTyped(g, env, id, op, inp);
    } else if op.RunStep? || op.RunGuardedStep? {
      DispatchedStepIsTyped(g, env, id, op, inp);
    } else if op.RunPlayEffect? {
      DispatchedPlayEffectIsTyped(g, env, id, op, inp);
    } else if op.RunEffect? {
      EffectIsTyped(g, env, op.context, op.effect, op.borrowed, None, inp);
    } else if op.TransformEntity? {
      TransformIsTyped(env.natives, g, op, inp);
    } else if op.FinishPlayedSelf? {
      FinishPlayIsTyped(env.natives, g, id, op.subject, op.originalAfterPlay);
    } else if op.CopyEntity? {
      CopyIsTyped(env.natives, g, WithLivePolicy(g.world, op), inp);
    } else {
      OtherTables(env.natives, g, Dispatch(g, env, id, op, inp).value.game);
      TypedResult(env.natives, g, Dispatch(g, env, id, op, inp));
    }
  }

  lemma DispatchedPlayEffectIsTyped(g: Game, env: Env, id: ResolutionId, op: Operation, inp: Input)
    requires GameTyped(env.natives, g) && OpTyped(env.natives, g.world, g.created, op) && op.RunPlayEffect?
    ensures StaysTyped(env.natives, g, Dispatch(g, env, id, op, inp))
  {
    if op.context.source.Some? {
      EffectIsTyped(g, env, op.context, op.effect, None, Some(op.scope), inp);
    }
  }
}
