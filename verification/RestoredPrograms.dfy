/**
 When a saved session is accepted again.

 Restoring a session checks, besides the walks over the pending operations,
 every pending program against the restored world. All of it holds of every
 session at rest, except that pending copies were requested of a world that
 may have changed since, and that enchantments may come from unchecked cards.
 */
module RestoredPrograms {
  import opened Outcomes
  import opened EffectLanguage
  import opened ResolutionMachine
  import opened Scheduling
  import ResolutionOwnership
  import opened ResolutionTyping
  import opened ResolutionRuns
  import opened ResolutionSessions
  import opened ResolutionSafety
  import opened ResolutionValidators

  // ---------- Transformations run before anything else ----------

  predicate NoTransforms(stack: seq<Stacked>) {
    forall i :: 0 <= i < |stack| ==> !stack[i].op.TransformEntity?
  }

  /** Above a pending transformation there are only transformations and refreshes of the auras. */
  predicate TransformsOnTop(stack: seq<Stacked>) {
    forall i, j :: 0 <= i < j < |stack| && stack[i].op.TransformEntity? ==>
      stack[j].op.TransformEntity? || stack[j].op.RefreshAuras?
  }

  /** What a step pushes above operations that hold no transformation. */
  predicate Uniform(ops: seq<Operation>) {
    (forall op :: op in ops ==> !op.TransformEntity?) || (forall op :: op in ops ==> op.TransformEntity?)
  }

  lemma PushedOpsAreNumbered(next: ResolutionId, ops: seq<Operation>, i: nat)
    requires i < |ops|
    ensures Numbered(next, ops)[i].op in ops
  {
    NumberedIdsAreFresh(next, ops);
  }

  lemma UniformPushesStayOnTop(below: seq<Stacked>, next: ResolutionId, ops: seq<Operation>)
    requires NoTransforms(below) && Uniform(ops)
    ensures TransformsOnTop(below + Numbered(next, ops))
  {
    var all := below + Numbered(next, ops);
    forall i, j | 0 <= i < j < |all| && all[i].op.TransformEntity?
      ensures all[j].op.TransformEntity? || all[j].op.RefreshAuras?
    {
      if i >= |below| {
        PushedOpsAreNumbered(next, ops, i - |below|);
        PushedOpsAreNumbered(next, ops, j - |below|);
      }
    }
  }

  lemma RefreshesStayOnTop(below: seq<Stacked>, next: ResolutionId, ops: seq<Operation>)
    requires TransformsOnTop(below) && forall op :: op in ops ==> op.RefreshAuras?
    ensures TransformsOnTop(below + Numbered(next, ops))
  {
    var all := below + Numbered(next, ops);
    forall i, j | 0 <= i < j < |all| && all[i].op.TransformEntity?
      ensures all[j].op.TransformEntity? || all[j].op.RefreshAuras?
    {
      if j >= |below| { PushedOpsAreNumbered(next, ops, j - |below|); }
      if i >= |below| { PushedOpsAreNumbered(next, ops, i - |below|); }
    }
  }

  lemma OrdinaryTopHasNoTransformsBelow(stack: seq<Stacked>)
    requires stack != [] && TransformsOnTop(stack) && !Top(stack).op.TransformEntity? && !Top(stack).op.RefreshAuras?
    ensures NoTransforms(Below(stack))
  {
    forall i | 0 <= i < |Below(stack)| ensures !Below(stack)[i].op.TransformEntity? {
      assert Below(stack)[i] == stack[i];
    }
  }

  lemma PlaysAreUniform(g: Game, env: Env, id: ResolutionId, op: Operation, inp: Input)
    requires Plays(op) && PlaysASelfTransform(g.world, op.step.card)
    ensures var r := Dispatch(g, env, id, op, inp); r.Ok? ==> Uniform(r.value.pushes)
  {
    ScopedPlaySchedules(g, env, op.step.player, op.step.card, op.step.target, inp);
  }

  lemma OtherOpsAreUniform(g: Game, env: Env, id: ResolutionId, op: Operation, inp: Input)
    requires !op.RequestChoice? && !op.TransformEntity? && !op.RefreshAuras?
    ensures var r := Dispatch(g, env, id, op, inp); r.Ok? ==> Uniform(r.value.pushes)
  {
    if Transforming(op) {
      TransformingSchedules(g, env, id, op, inp);
    } else if op.AttemptTrigger? {
      AttemptsSchedule(g, env, id, op, inp);
    } else if Plays(op) && PlaysASelfTransform(g.world, op.step.card) {
      PlaysAreUniform(g, env, id, op, inp);
    } else {
      OperationsAreOrdinary(g, env, id, op, inp);
    }
  }

  lemma DispatchKeepsTransformsOnTop(natives: set<NativeId>, c: Core, stack: seq<Stacked>, inp: Input)
    requires stack != [] && c.budget > 0 && TransformsOnTop(stack) && !Top(stack).op.RequestChoice?
    ensures var r := Dispatch(c.game, Env(natives, c.budget - 1, c.next), Top(stack).id, Top(stack).op, inp);
            r.Ok? ==> TransformsOnTop(Below(stack) + Numbered(c.next, r.value.pushes))
  {
    var env, top := Env(natives, c.budget - 1, c.next), Top(stack);
    var r := Dispatch(c.game, env, top.id, top.op, inp);
    if r.Ok? {
      if top.op.TransformEntity? || top.op.RefreshAuras? {
        TransformationsSchedule(c.game, env, top.id, top.op, inp);
        RefreshesStayOnTop(Below(stack), c.next, r.value.pushes);
      } else {
        OtherOpsAreUniform(c.game, env, top.id, top.op, inp);
        OrdinaryTopHasNoTransformsBelow(stack);
        UniformPushesStayOnTop(Below(stack), c.next, r.value.pushes);
      }
    }
  }

  lemma CarriedKeepsTransformsOnTop(c: Core, stack: seq<Stacked>, r: StepResult,
                                    e: Result<(Core, seq<Stacked>), Failure>)
    requires stack != [] && c.budget > 0 && c.choice.None? && Carries(c, Top(stack), r, e)
    requires r.Ok? ==> TransformsOnTop(Below(stack) + Numbered(c.next, r.value.pushes))
    ensures e.Ok? ==> e.value.0.choice.None? && TransformsOnTop(Below(stack) + e.value.1)
  {
  }

  /** After a step transformations are still on top, and none is pending when the step asked for a choice. */
  lemma ExecutedKeepsTransformsOnTop(natives: set<NativeId>, c: Core, stack: seq<Stacked>, oracle: Oracle)
    requires stack != [] && c.budget > 0 && c.choice.None? && TransformsOnTop(stack)
    ensures match Executed(c, natives, Top(stack), oracle)
            case Err(_) => true
            case Ok((after, pushed)) =>
              if after.choice.Some? then NoTransforms(Below(stack) + pushed) else TransformsOnTop(Below(stack) + pushed)
  {
    var top := Top(stack);
    if top.op.RequestChoice? {
      OrdinaryTopHasNoTransformsBelow(stack);
      assert Below(stack) + [] == Below(stack);
    } else {
      DispatchKeepsTransformsOnTop(natives, c, stack, oracle(top.id));
      ExecutedCarries(natives, c, top, oracle);
      CarriedKeepsTransformsOnTop(c, stack,
                                  Dispatch(c.game, Env(natives, c.budget - 1, c.next), top.id, top.op, oracle(top.id)),
                                  Executed(c, natives, top, oracle));
    }
  }

  lemma {:induction false} PausesHoldNoTransforms(natives: set<NativeId>, c: Core, stack: seq<Stacked>, oracle: Oracle)
    requires c.choice.None? && TransformsOnTop(stack)
    ensures match Drive(c, natives, stack, oracle)
            case Paused(_, rest) => NoTransforms(rest)
            case _ => true
    decreases c.budget
  {
    if stack != [] && c.budget > 0 {
      ExecutedKeepsTransformsOnTop(natives, c, stack, oracle);
      var r := Executed(c, natives, Top(stack), oracle);
      if r.Ok? && r.value.0.choice.None? {
        PausesHoldNoTransforms(natives, r.value.0, Below(stack) + r.value.1, oracle);
      }
    }
  }

  // ---------- Ids given out ----------

  /** Pending operations and the attempts they end have ids that were given out. */
  predicate IdsGiven(stack: seq<Stacked>, next: ResolutionId) {
    forall i :: 0 <= i < |stack| ==>
      stack[i].id < next && (stack[i].op.FinishTrigger? ==> stack[i].op.attempt < next)
  }

  lemma PushedIdsAreGiven(stack: seq<Stacked>, next: ResolutionId, ops: seq<Operation>, id: ResolutionId)
    requires IdsGiven(stack, next) && id < next && forall op :: op in ops && op.FinishTrigger? ==> op.attempt == id
    ensures IdsGiven(stack + Numbered(next, ops), next + |ops|)
  {
    NumberedIdsAreFresh(next, ops);
    var all := stack + Numbered(next, ops);
    forall i | 0 <= i < |all|
      ensures all[i].id < next + |ops| && (all[i].op.FinishTrigger? ==> all[i].op.attempt < next + |ops|)
    {
      if i >= |stack| { PushedOpsAreNumbered(next, ops, i - |stack|); }
    }
  }

  lemma CarriedKeepsIdsGiven(c: Core, stack: seq<Stacked>, r: StepResult, e: Result<(Core, seq<Stacked>), Failure>)
    requires stack != [] && c.budget > 0 && IdsGiven(stack, c.next) && EndsOwnAttempt(Top(stack).id, r)
    requires Carries(c, Top(stack), r, e)
    ensures e.Ok? ==> IdsGiven(Below(stack) + e.value.1, e.value.0.next)
  {
    if r.Ok? { PushedIdsAreGiven(Below(stack), c.next, r.value.pushes, Top(stack).id); }
  }

  lemma ExecutedKeepsIdsGiven(natives: set<NativeId>, c: Core, stack: seq<Stacked>, oracle: Oracle)
    requires stack != [] && c.budget > 0 && IdsGiven(stack, c.next)
    ensures match Executed(c, natives, Top(stack), oracle)
            case Err(_) => true
            case Ok((after, pushed)) => IdsGiven(Below(stack) + pushed, after.next)
  {
    var top := Top(stack);
    if top.op.RequestChoice? {
      assert Below(stack) + [] == Below(stack);
    } else {
      var r := Dispatch(c.game, Env(natives, c.budget - 1, c.next), top.id, top.op, oracle(top.id));
      OnlyAttemptsAreEnded(c.game, Env(natives, c.budget - 1, c.next), top.id, top.op, oracle(top.id));
      ExecutedCarries(natives, c, top, oracle);
      CarriedKeepsIdsGiven(c, stack, r, Executed(c, natives, top, oracle));
    }
  }

  lemma {:induction false} PausesKeepIdsGiven(natives: set<NativeId>, c: Core, stack: seq<Stacked>, oracle: Oracle)
    requires c.choice.None? && IdsGiven(stack, c.next)
    ensures match Drive(c, natives, stack, oracle)
            case Paused(after, rest) => IdsGiven(rest, after.next)
            case _ => true
    decreases c.budget
  {
    if stack != [] && c.budget > 0 {
      ExecutedKeepsIdsGiven(natives, c, stack, oracle);
      var r := Executed(c, natives, Top(stack), oracle);
      if r.Ok? && r.value.0.choice.None? {
        PausesKeepIdsGiven(natives, r.value.0, Below(stack) + r.value.1, oracle);
      }
    }
  }

  // ---------- What every session leaves pending ----------

  /** No transformation is pending, and all ids were given out. */
  predicate Orderly(m: Machine) {
    NoTransforms(m.stack) && IdsGiven(m.stack, m.core.next)
  }

  lemma PushedResolvesOrderly(m: Machine, natives: set<NativeId>, ops: seq<Operation>, oracle: Oracle)
    requires Orderly(m) && forall op :: op in ops ==> !op.TransformEntity? && !op.FinishTrigger?
    ensures Orderly(ResolveToPause(Pushed(m, ops), natives, oracle).0)
  {
    var p := Pushed(m, ops);
    UniformPushesStayOnTop(m.stack, m.core.next, ops);
    NewIdsAreGiven(m.stack, m.core.next, ops);
    PausesHoldNoTransforms(natives, p.core, p.stack, oracle);
    PausesKeepIdsGiven(natives, p.core, p.stack, oracle);
  }

  lemma NewIdsAreGiven(stack: seq<Stacked>, next: ResolutionId, ops: seq<Operation>)
    requires IdsGiven(stack, next) && forall op :: op in ops ==> !op.FinishTrigger?
    ensures IdsGiven(stack + Numbered(next, ops), next + |ops|)
  {
    NumberedIdsAreFresh(next, ops);
    var all := stack + Numbered(next, ops);
    forall i | 0 <= i < |all| ensures i >= |stack| ==> all[i].id < next + |ops| && !all[i].op.FinishTrigger? {
      if i >= |stack| { PushedOpsAreNumbered(next, ops, i - |stack|); }
    }
  }

  lemma RunStaysOrderly(m: Machine, natives: set<NativeId>, command: Command)
    requires AtRest(m, natives) && Orderly(m)
    ensures Orderly(Run(m, natives, command).0)
  {
    match command
    case SubmitAction(action, legal, budget, oracle) =>
      var begun := Begin(m.(status := Resolving), budget);
      if begun.Ok? { PushedResolvesOrderly(begun.value, natives, ActionOps(action), oracle); }
    case SubmitChoice(option, oracle) =>
      if m.core.choice.Some? {
        var found := FindOption(m.core.choice.value.options, option);
        FoundOptionIsOffered(m.core.choice.value.options, option);
        if found.Some? { PushedResolvesOrderly(m, natives, found.value.operations, oracle); }
      }
  }

  // ---------- The checks of a restored session ----------

  /** A pending transformation can be carried out in this world. */
  predicate TransformValid(g: Game, natives: set<NativeId>, op: Operation)
    requires op.TransformEntity?
  {
    && (if op.kind == PlayedSelf
        then op.playScope.Some? && op.source == Some(op.target) && LivePlayScope(g, op.playScope.value, op.target)
        else op.playScope.None?)
    && op.target in g.world && g.world[op.target].card.kind == Minion && op.card.kind == Minion
    && CheckCard(natives, op.card).None?
  }

  predicate IsWeapon(world: map<EntityId, GameEntity>, weapon: EntityId) {
    weapon in world && world[weapon].card.kind == Weapon
  }

  function KindOf(g: Game, event: Option<EventId>): Option<EventKind> {
    if event.Some? && event.value in g.events then Some(g.events[event.value].context.kind) else None
  }

  /** The program an operation carries is valid in this world, and what it needs of the world is there. */
  predicate OperationValid(g: Game, natives: set<NativeId>, op: Operation, inp: Input) {
    match op
    case RunStep(step) => step.ConsumeDurability? ==> IsWeapon(g.world, step.weapon)
    case RunGuardedStep(_, step) => step.ConsumeDurability? ==> IsWeapon(g.world, step.weapon)
    case RunEffect(_, effect, event) => CheckProgram(natives, [effect], KindOf(g, event), false).None?
    case RunPlayEffect(scope, context, effect) =>
      && context.source.Some? && LivePlayScope(g, scope, context.source.value)
      && CheckProgram(natives, [effect], None, true).None?
    case ContinueDraw(_, _, effects, _) => CheckProgram(natives, effects, None, false).None?
    case AttemptTrigger(c) => CheckProgram(natives, c.definition.program, Some(c.definition.event), false).None?
    case FinishPlayedSelf(_, seeds) =>
      forall s :: s in seeds ==> CheckProgram(natives, s.definition.program, Some(AfterPlay), false).None?
    case TransformEntity(_, _, _, _, _) => TransformValid(g, natives, op)
    case CopyEntity(_, _, _, _, _) => PrepareCopy(g, natives, op, inp).Ok?
    case RequestChoice(request) => ValidChoice(natives, request)
    case _ => true
  }

  /** The triggers frozen with an event are valid. */
  predicate EventValid(natives: set<NativeId>, p: PreparedEvent) {
    && (p.prechecked.Some? ==> forall s :: s in p.prechecked.value ==>
          CheckProgram(natives, s.definition.program, Some(s.definition.event), false).None?)
    && (p.candidates.Some? ==> forall c :: c in p.candidates.value ==>
          CheckProgram(natives, c.definition.program, Some(c.definition.event), false).None?)
  }

  /** Every enchantment in the world carries triggers that an attachment may have. */
  predicate EnchantmentsFit(natives: set<NativeId>, world: map<EntityId, GameEntity>) {
    forall x :: x in world && world[x].card.kind == Enchantment ==>
      CheckEnchantment(natives, world[x].card.triggers).None?
  }

  predicate OperationsValid(g: Game, natives: set<NativeId>, stack: seq<Stacked>, answers: Oracle) {
    forall i :: 0 <= i < |stack| ==> OperationValid(g, natives, stack[i].op, answers(stack[i].id))
  }

  /** The checks of the restored programs; the world answers whether there is room for a copy. */
  predicate ProgramsValid(m: Machine, natives: set<NativeId>, answers: Oracle) {
    var g := m.core.game;
    && EnchantmentsFit(natives, g.world)
    && NoConditionalPayment(m.stack) && PaidOnce(m.stack) && g.payers == PayersOf(m.stack)
    && (forall s :: s in g.scopes ==> LivePlayScope(g, s, g.scopes[s]))
    && OperationsValid(g, natives, m.stack, answers)
    && (m.core.choice.Some? ==> ValidChoice(natives, m.core.choice.value))
    && (forall e :: e in g.events ==> EventValid(natives, g.events[e]))
  }

  /** Every counter is ahead of what it has given out. */
  ghost predicate CountersAhead(m: Machine) {
    var g := m.core.game;
    && IdsGiven(m.stack, m.core.next) && (forall s :: s in g.scopes ==> s < m.core.next)
    && (forall e :: e in g.events ==> e < g.nextEvent) && (forall s :: s in g.slots ==> s < g.nextSlot)
    && (forall d :: d in g.draws ==> d < g.nextDraw) && EntitiesBelow(g.world, g.nextEntity)
  }

  /** The checks of the counters and of the retained tables. */
  ghost predicate WorkValid(m: Machine) {
    var g := m.core.game;
    && CountersAhead(m)
    && DistinctSubjects(g.scopes) && ResolutionOwnership.MarksScoped(g.transforms, g.scopes)
    && (forall s :: s in g.slots && g.slots[s].Some? ==> g.slots[s].value in g.events)
    && AllReferencesLive(g, m.stack) && WellScoped(g.scopes, m.stack)
  }

  /**
   A pending copy can be carried out: its source is gone, or the source is
   still in the kind of zone it was in, a weapon keeps its durability, and,
   where there is room, the place is free and the card is accepted.
   */
  predicate CopyFits(g: Game, natives: set<NativeId>, op: Operation, inp: Input)
    requires op.CopyEntity?
  {
    op.original in g.world ==>
      var card := g.world[op.original].card;
      && op.playState == CopiesPlayState(g.world, op.original, op.destination)
      && !(card.kind == Weapon && card.durability <= 0)
      && (inp.passes ==> !inp.fails && CheckCard(natives, card).None?)
  }

  predicate CopiesFit(g: Game, natives: set<NativeId>, stack: seq<Stacked>, answers: Oracle) {
    forall i :: 0 <= i < |stack| && stack[i].op.CopyEntity? ==>
      CopyFits(g, natives, stack[i].op, answers(stack[i].id))
  }

  // ---------- What always holds ----------

  lemma {:induction false} AttachmentsFit(natives: set<NativeId>, world: map<EntityId, GameEntity>,
                                          attachments: seq<EntityId>)
    requires EnchantmentsFit(natives, world)
    ensures AttachmentError(natives, AttachedCards(world, attachments)).None?
  {
    if attachments != [] {
      AttachmentsFit(natives, world, attachments[1..]);
      var x, rest := attachments[0], AttachedCards(world, attachments[1..]);
      if x in world && world[x].card.kind == Enchantment {
        assert AttachedCards(world, attachments) == [world[x].card] + rest;
        assert ([world[x].card] + rest)[1..] == rest;
      } else {
        assert AttachedCards(world, attachments) == [] + rest == rest;
      }
    }
  }

  lemma PreparedExactly(g: Game, natives: set<NativeId>, op: Operation, inp: Input)
    requires op.CopyEntity? && EnchantmentsFit(natives, g.world)
    ensures PrepareCopy(g, natives, op, inp).Ok? <==> CopyFits(g, natives, op, inp)
  {
    AttachmentsFit(natives, g.world, inp.attachments);
  }

  lemma OneEffectIsAccepted(natives: set<NativeId>, effect: Effect, event: Option<EventKind>, playedSelf: bool)
    requires CheckEffect(natives, effect, event, playedSelf).None?
    ensures CheckProgram(natives, [effect], event, playedSelf).None?
  {
    AcceptedMeansEveryEffect(natives, [effect], event, playedSelf);
  }

  lemma ScopedEffectIsValid(g: Game, natives: set<NativeId>, stack: seq<Stacked>, i: nat, inp: Input)
    requires i < |stack| && stack[i].op.RunPlayEffect? && OpTyped(natives, g.world, g.created, stack[i].op)
    requires WellScoped(g.scopes, stack) && forall s :: s in g.scopes ==> LivePlayScope(g, s, g.scopes[s])
    ensures OperationValid(g, natives, stack[i].op, inp)
  {
    assert UsesOpenScope(g.scopes, stack, i);
    OneEffectIsAccepted(natives, stack[i].op.effect, None, true);
  }

  lemma EffectIsValid(g: Game, natives: set<NativeId>, op: Operation, inp: Input)
    requires op.RunEffect? && OpTyped(natives, g.world, g.created, op) && GameTyped(natives, g) && ReferencesLive(g, op)
    ensures OperationValid(g, natives, op, inp)
  {
    OneEffectIsAccepted(natives, op.effect, KindOf(g, op.borrowed), false);
  }

  /** Whatever is not a copy or a transformation is valid at rest. */
  lemma TypedOperationIsValid(g: Game, natives: set<NativeId>, stack: seq<Stacked>, i: nat, inp: Input)
    requires i < |stack| && OpTyped(natives, g.world, g.created, stack[i].op) && GameTyped(natives, g)
    requires AllReferencesLive(g, stack) && NoConditionalPayment(stack) && WellScoped(g.scopes, stack)
    requires forall s :: s in g.scopes ==> LivePlayScope(g, s, g.scopes[s])
    requires !stack[i].op.CopyEntity? && !stack[i].op.TransformEntity?
    ensures OperationValid(g, natives, stack[i].op, inp)
  {
    var op := stack[i].op;
    if op.RunPlayEffect? {
      ScopedEffectIsValid(g, natives, stack, i, inp);
    } else if op.RunEffect? {
      EffectIsValid(g, natives, op, inp);
    } else if op.RunGuardedStep? {
      assert !ConditionalPayment(stack[i].op);
    }
  }

  lemma TypedEventIsValid(natives: set<NativeId>, p: PreparedEvent, e: EventId)
    requires EventTyped(natives, p, e)
    ensures EventValid(natives, p)
  {
  }

  lemma AtRestScopesAreLive(m: Machine, natives: set<NativeId>)
    requires AtRest(m, natives)
    ensures forall s :: s in m.core.game.scopes ==> LivePlayScope(m.core.game, s, m.core.game.scopes[s])
  {
  }

  lemma AtRestCountersAreAhead(m: Machine, natives: set<NativeId>)
    requires AtRest(m, natives) && Orderly(m)
    ensures CountersAhead(m)
  {
  }

  lemma AtRestEventsAreValid(m: Machine, natives: set<NativeId>)
    requires SafelyAtRest(m, natives)
    ensures forall e :: e in m.core.game.events ==> EventValid(natives, m.core.game.events[e])
    ensures m.core.choice.Some? ==> ValidChoice(natives, m.core.choice.value)
  {
    forall e | e in m.core.game.events ensures EventValid(natives, m.core.game.events[e]) {
      TypedEventIsValid(natives, m.core.game.events[e], e);
    }
  }

  lemma OperationValidExactly(m: Machine, natives: set<NativeId>, i: nat, inp: Input)
    requires SafelyAtRest(m, natives) && NoTransforms(m.stack) && EnchantmentsFit(natives, m.core.game.world)
    requires i < |m.stack|
    ensures var op := m.stack[i].op;
            OperationValid(m.core.game, natives, op, inp) <==>
              (op.CopyEntity? ==> CopyFits(m.core.game, natives, op, inp))
  {
    if m.stack[i].op.CopyEntity? {
      PreparedExactly(m.core.game, natives, m.stack[i].op, inp);
    } else {
      EveryPausePassesTheWalks(m, natives);
      AtRestScopesAreLive(m, natives);
      TypedOperationIsValid(m.core.game, natives, m.stack, i, inp);
    }
  }

  lemma OperationsValidExactly(m: Machine, natives: set<NativeId>, answers: Oracle)
    requires SafelyAtRest(m, natives) && NoTransforms(m.stack) && EnchantmentsFit(natives, m.core.game.world)
    ensures OperationsValid(m.core.game, natives, m.stack, answers) <==>
      CopiesFit(m.core.game, natives, m.stack, answers)
  {
    forall i | 0 <= i < |m.stack|
      ensures var op, inp := m.stack[i].op, answers(m.stack[i].id);
              OperationValid(m.core.game, natives, op, inp) <==>
              (op.CopyEntity? ==> CopyFits(m.core.game, natives, op, inp))
    {
      OperationValidExactly(m, natives, i, answers(m.stack[i].id));
    }
  }

  /**
   A session at rest is accepted again exactly when its enchantments carry
   triggers an attachment may have and its pending copies still fit.
   */
  lemma RestoredExactlyWhenCopiesFit(m: Machine, natives: set<NativeId>, answers: Oracle)
    requires SafelyAtRest(m, natives) && Orderly(m)
    ensures WorkValid(m) && ProgramsValid(m, natives, answers) <==>
            EnchantmentsFit(natives, m.core.game.world) && CopiesFit(m.core.game, natives, m.stack, answers)
  {
    EveryPausePassesTheWalks(m, natives);
    AtRestScopesAreLive(m, natives);
    AtRestCountersAreAhead(m, natives);
    AtRestEventsAreValid(m, natives);
    if EnchantmentsFit(natives, m.core.game.world) { OperationsValidExactly(m, natives, answers); }
  }

  /** So it is after any commands given to a new session. */
  lemma SessionsAreRestoredExactlyWhenCopiesFit(natives: set<NativeId>, world: map<EntityId, GameEntity>,
                                                nextEntity: EntityId, commands: seq<Command>, answers: Oracle)
    requires EntitiesBelow(world, nextEntity) && WorldTyped(natives, world)
    ensures var m := RunSession(NewSession(world, nextEntity), natives, commands).0;
            WorkValid(m) && ProgramsValid(m, natives, answers) <==>
            EnchantmentsFit(natives, m.core.game.world) && CopiesFit(m.core.game, natives, m.stack, answers)
  {
    var start := NewSession(world, nextEntity);
    NewSessionsAreSafe(natives, world, nextEntity);
    ValidatedProgramsDoNotGoWrong(start, natives, commands);
    SessionsStayOrderly(start, natives, commands);
    RestoredExactlyWhenCopiesFit(RunSession(start, natives, commands).0, natives, answers);
  }

  lemma {:induction false} SessionsStayOrderly(m: Machine, natives: set<NativeId>, commands: seq<Command>)
    requires AtRest(m, natives) && Orderly(m)
    ensures Orderly(RunSession(m, natives, commands).0)
    decreases |commands|
  {
    if commands != [] {
      RunStaysOrderly(m, natives, commands[0]);
      RunComesToRest(m, natives, commands[0]);
      SessionsStayOrderly(Run(m, natives, commands[0]).0, natives, commands[1..]);
    }
  }

  lemma RunComesToRest(m: Machine, natives: set<NativeId>, command: Command)
    requires AtRest(m, natives)
    ensures AtRest(Run(m, natives, command).0, natives)
  {
    match command
    case SubmitAction(action, legal, budget, oracle) => SubmitComesToRest(m, natives, action, legal, budget, oracle);
    case SubmitChoice(option, oracle) => AnswerComesToRest(m, natives, option, oracle);
  }
}
