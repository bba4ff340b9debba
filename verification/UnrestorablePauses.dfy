/**
 A pause that is refused when it is restored, though its session goes on.

 A game is set up with a spell in the hand and a minion in the deck that watches
 summons. The spell summons two minions and copies both. The first copy is
 announced, and the watcher's trigger returns the second minion to the hand and
 asks for a choice. Saved at this choice, the session is refused, because the
 second copy was requested of a minion in play. Answered instead, it goes on and
 copies the minion from the hand.
 */
module UnrestorablePauses {
  import opened Outcomes
  import opened Players
  import opened EffectLanguage
  import opened ResolutionMachine
  import ResolutionTyping
  import opened ResolutionRuns
  import opened ResolutionSessions
  import opened ResolutionSafety
  import opened RestoredPrograms
  import CopyPolicies

  // ---------- The cards and what the world answers ----------

  const VANILLA := Card(Minion, 0, [], [])
  const SUMMONING := Summon(Controller, VANILLA)
  const COPYING := Copy(FriendlyMinions, Controller, Play)
  const SPELL := Card(Spell, 0, [SUMMONING, SUMMONING, COPYING], [])

  const RETURNING := Move(Random(FriendlyMinions), Controller, Hand)
  const ASKING := Choose(0, Controller, [EffectOption(0, [])])
  const WATCHES := Trigger(Summoned, [Deck], MustExist, [RETURNING, ASKING])
  const WATCHER := Card(Minion, 0, [], [WATCHES])

  const SETUP: map<EntityId, GameEntity> :=
    map[0 := GameEntity(SPELL, Hand, One, false), 1 := GameEntity(WATCHER, Deck, One, false)]

  const WATCHING := Seed(1, WATCHES, One)

  /** Nothing moves and no trigger is queued; the minions in play are those summoned, and there is room. */
  const QUIET :=
    Input(false, [2, 3], [], [], true, map[], [], false, true, 0, Burned(0), 0, None, None, 0, [], One)

  const PLAYED := QUIET.(placements := map[0 := Placement(Graveyard, One, false)])
  const WATCHED := QUIET.(seeds := [WATCHING], queued := [WATCHING])
  const RETURNED := QUIET.(placements := map[3 := Placement(Hand, One, false)])

  /** The spell leaves the hand, the third summon queues the trigger, and its first effect moves the second minion. */
  const STORY: Oracle := id =>
    if id == 2 then PLAYED else if id == 17 then WATCHED else if id == 23 then RETURNED else QUIET

  // ---------- Steps ----------

  /** The drive of the story after its top operation has taken this step. */
  lemma OneMore(c: Core, lower: seq<Stacked>, top: Stacked, step: Step)
    requires c.budget > 0 && c.choice.None? && !top.op.RequestChoice?
    requires Dispatch(c.game, Env({}, c.budget - 1, c.next), top.id, top.op, STORY(top.id)) == Ok(step)
    ensures Drive(c, {}, lower + [top], STORY) ==
            Drive(Stepped(c, top.id, step), {}, lower + Numbered(c.next, step.pushes), STORY)
  {
    StepGoesOn(c, {}, lower, top, STORY, step);
  }

  // ---------- Events nobody reacts to ----------

  predicate Fresh(g: Game, e: EventId) {
    && e in g.events && !Proposed(g.events[e].context.kind)
    && g.events[e].prechecked.None? && g.events[e].candidates.None?
  }

  lemma NothingIsQueued(g: Game, e: EventId)
    requires Fresh(g, e)
    ensures Expand(g, e, QUIET) ==
            Ok(Step(g.(events := g.events[e := g.events[e].(candidates := Some([]))]), [FinishEvent(e)]))
  {
    assert QueuedCandidates(g, e, QUIET) == [];
    assert Attempts([]) + [FinishEvent(e)] == [FinishEvent(e)];
  }

  /** The game goes on with this budget and next id. */
  predicate Left(c: Core, game: Game, budget: nat, next: ResolutionId) {
    c.choice.None? && c.game == game && c.budget == budget && c.next == next
  }

  /** The event is expanded without a trigger and finished. */
  lemma EventPasses(c: Core, lower: seq<Stacked>, id: ResolutionId, e: EventId) returns (after: Core)
    requires c.budget >= 2 && c.choice.None? && Fresh(c.game, e) && STORY(id) == QUIET
    ensures Left(after, TakeEvent(c.game, e), c.budget - 2, c.next + 1)
    ensures Drive(c, {}, lower + [Stacked(id, ResolveEvent(e))], STORY) == Drive(after, {}, lower, STORY)
  {
    var expanded := EventIsExpanded(c, lower, id, e);
    after := EventEnds(expanded, lower, c.next, e);
    assert TakeEvent(expanded.game, e) == TakeEvent(c.game, e);
  }

  lemma EventIsExpanded(c: Core, lower: seq<Stacked>, id: ResolutionId, e: EventId) returns (after: Core)
    requires c.budget >= 2 && c.choice.None? && Fresh(c.game, e) && STORY(id) == QUIET
    ensures var p := c.game.events[e].(candidates := Some([]));
            Left(after, c.game.(events := c.game.events[e := p]), c.budget - 1, c.next + 1)
    ensures Drive(c, {}, lower + [Stacked(id, ResolveEvent(e))], STORY) ==
            Drive(after, {}, lower + [Stacked(c.next, FinishEvent(e))], STORY)
  {
    var p := c.game.events[e].(candidates := Some([]));
    var step := Step(c.game.(events := c.game.events[e := p]), [FinishEvent(e)]);
    NothingIsQueued(c.game, e);
    OneMore(c, lower, Stacked(id, ResolveEvent(e)), step);
    OneNumbered(c.next, FinishEvent(e));
    after := Stepped(c, id, step);
  }

  lemma EventEnds(c: Core, lower: seq<Stacked>, id: ResolutionId, e: EventId) returns (after: Core)
    requires c.budget > 0 && c.choice.None? && e in c.game.events
    ensures Left(after, TakeEvent(c.game, e), c.budget - 1, c.next)
    ensures Drive(c, {}, lower + [Stacked(id, FinishEvent(e))], STORY) == Drive(after, {}, lower, STORY)
  {
    var step := Step(TakeEvent(c.game, e), []);
    OneMore(c, lower, Stacked(id, FinishEvent(e)), step);
    NothingNumbered(lower, c.next);
    after := Stepped(c, id, step);
  }

  // ---------- The spell is played ----------

  const CONTEXT := EffectContext(Some(0), One, None, None)

  /** The spell's own event, and its three effects. */
  const ENTRY := PrepareEvent(Plain(CardPlayed, Some(0), [], One))

  const PROGRAM: seq<Operation> :=
    [RunEffect(CONTEXT, SUMMONING, None), RunEffect(CONTEXT, SUMMONING, None), RunEffect(CONTEXT, COPYING, None)]

  const PLAYING := RunGuardedStep([Guard(0, Hand)], PlayCard(One, 0, None))

  const WORLD_1: map<EntityId, GameEntity> := SETUP[0 := GameEntity(SPELL, Graveyard, One, false)]

  function InPlay(world: map<EntityId, GameEntity>, x: EntityId): map<EntityId, GameEntity> {
    world[x := GameEntity(VANILLA, Play, One, false)]
  }

  const WORLD_2 := InPlay(WORLD_1, 2)
  const WORLD_3 := InPlay(WORLD_2, 3)
  const WORLD_4 := InPlay(WORLD_3, 4)
  const WORLD_5 := WORLD_4[3 := GameEntity(VANILLA, Hand, One, false)]
  const WORLD_6 := InPlay(WORLD_5, 5)

  /** The game between two operations: its world and the counters; the tables hold nothing. */
  predicate At(c: Core, world: map<EntityId, GameEntity>, nextEntity: EntityId, nextEvent: EventId, budget: nat,
               next: ResolutionId) {
    && c.choice.None? && c.budget == budget && c.next == next
    && c.game == NewGame(world, nextEntity).(nextEvent := nextEvent, created := c.game.created)
  }

  lemma SpellLeavesTheHand(g: Game)
    requires g.world == SETUP
    ensures Moved(g, PLAYED) == g.(world := WORLD_1)
  {
    assert Moved(g, PLAYED).world == WORLD_1;
  }

  lemma SpellIsPlayed(g: Game, env: Env)
    requires g.world == SETUP
    ensures Dispatch(g, env, 2, PLAYING, PLAYED) == Ok(Step(g.(world := WORLD_1), [ENTRY] + PROGRAM))
  {
    SpellLeavesTheHand(g);
    var step := PlayMinionOrSpell(g, env, One, 0, None, PLAYED);
    assert Effects(CONTEXT, SPELL.effects, None, None) == PROGRAM;
    assert PlayEntry(0, Spell, One, None) == [ENTRY];
    assert step == Step(g.(world := WORLD_1), [ENTRY] + PROGRAM);
    PlayIsDispatched(g, env, step);
  }

  lemma PlayIsDispatched(g: Game, env: Env, step: Step)
    requires g.world == SETUP && PlayMinionOrSpell(g, env, One, 0, None, PLAYED) == step
    ensures Dispatch(g, env, 2, PLAYING, PLAYED) == Ok(step)
  {
  }

  lemma SummonAnnounced(g: Game)
    ensures var step := AnnounceSummons(g, [VANILLA], One, Some(0), QUIET);
            && step.pushes == [RefreshAuras, ResolveEvent(g.nextEvent)]
            && step.game == Record(g.(world := InPlay(g.world, g.nextEntity), nextEntity := g.nextEntity + 1),
                                   Plain(Summoned, Some(0), [g.nextEntity], One), None)
  {
    var spawned := g.(world := InPlay(g.world, g.nextEntity), nextEntity := g.nextEntity + 1);
    assert [VANILLA][1..] == [];
    assert Spawn(spawned, [], Play, One) == spawned;
    assert Spawn(g, [VANILLA], Play, One) == spawned;
    Unmoved(spawned, QUIET);
  }

  lemma SummonRuns(c: Core, lower: seq<Stacked>, id: ResolutionId) returns (after: Core)
    requires c.budget > 0 && c.choice.None? && STORY(id) == QUIET
    ensures var step := AnnounceSummons(c.game, [VANILLA], One, Some(0), QUIET);
            Left(after, step.game, c.budget - 1, c.next + 2)
    ensures Drive(c, {}, lower + [Stacked(id, RunEffect(CONTEXT, SUMMONING, None))], STORY) ==
            Drive(after, {}, lower + Numbered(c.next, [RefreshAuras, ResolveEvent(c.game.nextEvent)]), STORY)
  {
    var step := AnnounceSummons(c.game, [VANILLA], One, Some(0), QUIET);
    SummonAnnounced(c.game);
    OneMore(c, lower, Stacked(id, RunEffect(CONTEXT, SUMMONING, None)), step);
    after := Stepped(c, id, step);
  }

  /** A summon that nobody reacts to. */
  lemma SummonPasses(c: Core, lower: seq<Stacked>, id: ResolutionId, world: map<EntityId, GameEntity>, x: EntityId,
                     e: EventId)
    returns (after: Core)
    requires c.budget >= 4 && At(c, world, x, e, c.budget, c.next)
    requires STORY(id) == QUIET && STORY(c.next) == QUIET
    ensures At(after, InPlay(world, x), x + 1, e + 1, c.budget - 4, c.next + 3)
    ensures Drive(c, {}, lower + [Stacked(id, RunEffect(CONTEXT, SUMMONING, None))], STORY) ==
            Drive(after, {}, lower, STORY)
  {
    SummonAnnounced(c.game);
    var announced := SummonRuns(c, lower, id);
    after := AnnouncementPasses(announced, lower, c.next, e);
    SummonedGame(c.game, world, x, e);
  }

  lemma SummonedGame(g: Game, world: map<EntityId, GameEntity>, x: EntityId, e: EventId)
    requires g == NewGame(world, x).(nextEvent := e, created := g.created)
    ensures var h := TakeEvent(AnnounceSummons(g, [VANILLA], One, Some(0), QUIET).game, e);
            h == NewGame(InPlay(world, x), x + 1).(nextEvent := e + 1, created := h.created)
  {
    SummonAnnounced(g);
    assert TakeEvent(AnnounceSummons(g, [VANILLA], One, Some(0), QUIET).game, e).events == map[];
  }

  lemma AnnouncementPasses(c: Core, lower: seq<Stacked>, id: ResolutionId, e: EventId) returns (after: Core)
    requires c.budget >= 3 && c.choice.None? && Fresh(c.game, e) && STORY(id) == QUIET
    ensures after.choice.None? && after.game == TakeEvent(c.game, e)
    ensures after.budget == c.budget - 3 && after.next == c.next + 1
    ensures Drive(c, {}, lower + Numbered(id, [RefreshAuras, ResolveEvent(e)]), STORY) == Drive(after, {}, lower, STORY)
  {
    var below := lower + [Stacked(id, ResolveEvent(e))];
    TwoNumbered(id, RefreshAuras, ResolveEvent(e));
    assert lower + Numbered(id, [RefreshAuras, ResolveEvent(e)]) == below + [Stacked(id + 1, RefreshAuras)];
    var refreshed := RefreshPasses(c, below, id + 1);
    after := EventPasses(refreshed, lower, id, e);
  }

  lemma RefreshPasses(c: Core, lower: seq<Stacked>, id: ResolutionId) returns (after: Core)
    requires c.budget > 0 && c.choice.None?
    ensures after == Core(c.game, None, c.budget - 1, c.next, c.executed + [id])
    ensures Drive(c, {}, lower + [Stacked(id, RefreshAuras)], STORY) == Drive(after, {}, lower, STORY)
  {
    OneMore(c, lower, Stacked(id, RefreshAuras), Step(c.game, []));
    assert lower + Numbered(c.next, []) == lower;
    after := Stepped(c, id, Step(c.game, []));
  }

  /** Below everything the action schedules. */
  const BOTTOM: seq<Stacked> := [Stacked(0, CheckOutcome), Stacked(1, RunPhaseBoundary)]

  lemma ProgramNumbered()
    ensures BOTTOM + Numbered(3, [ENTRY] + PROGRAM) ==
            BOTTOM + [Stacked(3, PROGRAM[2])] + [Stacked(4, PROGRAM[1])] + [Stacked(5, PROGRAM[0])]
            + [Stacked(6, ENTRY)]
  {
    assert ([ENTRY] + PROGRAM)[1..] == PROGRAM && PROGRAM[1..] == [PROGRAM[1], PROGRAM[2]];
    TwoNumbered(3, PROGRAM[1], PROGRAM[2]);
  }

  /** The spell is played and its own event passes. */
  lemma EntryPasses(c: Core) returns (after: Core)
    requires At(c, SETUP, 2, 0, 25, 3)
    ensures At(after, WORLD_1, 2, 1, 21, 9)
    ensures Drive(c, {}, BOTTOM + [Stacked(2, PLAYING)], STORY) ==
            Drive(after, {}, BOTTOM + [Stacked(3, PROGRAM[2])] + [Stacked(4, PROGRAM[1])] + [Stacked(5, PROGRAM[0])],
                  STORY)
  {
    var played := Step(c.game.(world := WORLD_1), [ENTRY] + PROGRAM);
    SpellIsPlayed(c.game, Env({}, 24, 3));
    OneMore(c, BOTTOM, Stacked(2, PLAYING), played);
    ProgramNumbered();
    var lower := BOTTOM + [Stacked(3, PROGRAM[2])] + [Stacked(4, PROGRAM[1])] + [Stacked(5, PROGRAM[0])];
    after := PreparedEventPasses(Stepped(c, 2, played), lower);
  }

  lemma PreparedEventPasses(c: Core, lower: seq<Stacked>) returns (after: Core)
    requires At(c, WORLD_1, 2, 0, 24, 7)
    ensures At(after, WORLD_1, 2, 1, 21, 9)
    ensures Drive(c, {}, lower + [Stacked(6, ENTRY)], STORY) == Drive(after, {}, lower, STORY)
  {
    var prepared := EntryIsPrepared(c, lower);
    after := EventPasses(prepared, lower, 7, 0);
    assert after.game.events == map[];
  }

  lemma EntryIsPrepared(c: Core, lower: seq<Stacked>) returns (after: Core)
    requires At(c, WORLD_1, 2, 0, 24, 7)
    ensures Left(after, Record(c.game, ENTRY.eventContext, None), 23, 8)
    ensures Drive(c, {}, lower + [Stacked(6, ENTRY)], STORY) ==
            Drive(after, {}, lower + [Stacked(7, ResolveEvent(0))], STORY)
  {
    var prepared := Step(Record(c.game, ENTRY.eventContext, None), [ResolveEvent(0)]);
    OneMore(c, lower, Stacked(6, ENTRY), prepared);
    OneNumbered(7, ResolveEvent(0));
    after := Stepped(c, 6, prepared);
  }

  /** Both minions are summoned. */
  lemma SummonsPass(c: Core) returns (after: Core)
    requires At(c, WORLD_1, 2, 1, 21, 9)
    ensures At(after, WORLD_3, 4, 3, 13, 15)
    ensures Drive(c, {}, BOTTOM + [Stacked(3, PROGRAM[2])] + [Stacked(4, PROGRAM[1])] + [Stacked(5, PROGRAM[0])], STORY)
         == Drive(after, {}, BOTTOM + [Stacked(3, PROGRAM[2])], STORY)
  {
    var one := SummonPasses(c, BOTTOM + [Stacked(3, PROGRAM[2])] + [Stacked(4, PROGRAM[1])], 5, WORLD_1, 2, 1);
    after := SecondSummonPasses(one);
  }

  lemma SecondSummonPasses(c: Core) returns (after: Core)
    requires At(c, WORLD_2, 3, 2, 17, 12)
    ensures At(after, WORLD_3, 4, 3, 13, 15)
    ensures Drive(c, {}, BOTTOM + [Stacked(3, PROGRAM[2])] + [Stacked(4, PROGRAM[1])], STORY) ==
            Drive(after, {}, BOTTOM + [Stacked(3, PROGRAM[2])], STORY)
  {
    after := SummonPasses(c, BOTTOM + [Stacked(3, PROGRAM[2])], 4, WORLD_2, 3, 2);
  }

  // ---------- The copies ----------

  const FIRST_COPY := CopyEntity(2, Some(0), One, Play, true)
  const SECOND_COPY := CopyEntity(3, Some(0), One, Play, true)

  const BELOW_COPIES: seq<Stacked> := BOTTOM + [Stacked(15, SECOND_COPY)]

  lemma CopiesNumbered()
    ensures BOTTOM + Numbered(15, [FIRST_COPY, SECOND_COPY]) == BELOW_COPIES + [Stacked(16, FIRST_COPY)]
  {
    TwoNumbered(15, FIRST_COPY, SECOND_COPY);
  }

  lemma BothAreInPlay(g: Game)
    requires g.world == WORLD_3
    ensures Copies(g.world, [2, 3], Some(0), One, Play) == [FIRST_COPY, SECOND_COPY]
  {
  }

  /** Both are requested in play. */
  lemma CopiesAreRequested(c: Core) returns (after: Core)
    requires At(c, WORLD_3, 4, 3, 13, 15)
    ensures At(after, WORLD_3, 4, 3, 12, 17)
    ensures Drive(c, {}, BOTTOM + [Stacked(3, PROGRAM[2])], STORY) ==
            Drive(after, {}, BELOW_COPIES + [Stacked(16, FIRST_COPY)], STORY)
  {
    var step := Step(c.game, [FIRST_COPY, SECOND_COPY]);
    BothAreInPlay(c.game);
    OneMore(c, BOTTOM, Stacked(3, PROGRAM[2]), step);
    CopiesNumbered();
    after := Stepped(c, 3, step);
  }

  lemma VanillaIsAccepted()
    ensures CheckCard({}, VANILLA).None?
  {
  }

  lemma FirstIsCopied(g: Game)
    requires g.world == WORLD_3
    ensures RunCopy(g, {}, WithLivePolicy(g.world, FIRST_COPY), QUIET) ==
            Ok(AnnounceSummons(g, [VANILLA], One, Some(0), QUIET))
  {
    VanillaIsAccepted();
    assert WithLivePolicy(g.world, FIRST_COPY) == FIRST_COPY;
    assert AttachedCards(g.world, []) == [] && [VANILLA] + [] == [VANILLA];
    assert PrepareCopy(g, {}, FIRST_COPY, QUIET) == Ok(true);
  }

  /** The game while the event of the first copy is open. */
  predicate AtEvent(c: Core, world: map<EntityId, GameEntity>, p: PreparedEvent, budget: nat, next: ResolutionId) {
    && c.choice.None? && c.budget == budget && c.next == next
    && c.game == NewGame(world, 5).(nextEvent := 4, created := c.game.created, events := map[3 := p])
  }

  const SUMMONED := PreparedEvent(Plain(Summoned, Some(0), [4], One), None, None)
  const WATCHER_TRIES := Candidate(1, 3, WATCHES, One)
  const QUEUED := SUMMONED.(candidates := Some([WATCHER_TRIES]))

  lemma AnnouncementNumbered()
    ensures BELOW_COPIES + Numbered(17, [RefreshAuras, ResolveEvent(3)]) ==
            BELOW_COPIES + [Stacked(17, ResolveEvent(3))] + [Stacked(18, RefreshAuras)]
  {
    TwoNumbered(17, RefreshAuras, ResolveEvent(3));
  }

  lemma AnnouncedGame(g: Game)
    requires g == NewGame(WORLD_3, 4).(nextEvent := 3, created := g.created)
    ensures var step := AnnounceSummons(g, [VANILLA], One, Some(0), QUIET);
            && step.pushes == [RefreshAuras, ResolveEvent(3)]
            && step.game ==
               NewGame(WORLD_4, 5).(nextEvent := 4, created := step.game.created, events := map[3 := SUMMONED])
  {
    SummonAnnounced(g);
  }

  lemma FirstCopyIsAnnounced(c: Core) returns (after: Core)
    requires At(c, WORLD_3, 4, 3, 12, 17)
    ensures AtEvent(after, WORLD_4, SUMMONED, 10, 19)
    ensures Drive(c, {}, BELOW_COPIES + [Stacked(16, FIRST_COPY)], STORY) ==
            Drive(after, {}, BELOW_COPIES + [Stacked(17, ResolveEvent(3))], STORY)
  {
    var step := AnnounceSummons(c.game, [VANILLA], One, Some(0), QUIET);
    AnnouncedGame(c.game);
    var announced := FirstCopyRuns(c);
    AnnouncementNumbered();
    after := RefreshPasses(announced, BELOW_COPIES + [Stacked(17, ResolveEvent(3))], 18);
  }

  lemma FirstCopyRuns(c: Core) returns (after: Core)
    requires At(c, WORLD_3, 4, 3, 12, 17)
    ensures after == Stepped(c, 16, AnnounceSummons(c.game, [VANILLA], One, Some(0), QUIET))
    ensures Drive(c, {}, BELOW_COPIES + [Stacked(16, FIRST_COPY)], STORY) ==
            Drive(after, {}, BELOW_COPIES + Numbered(17, [RefreshAuras, ResolveEvent(3)]), STORY)
  {
    var step := AnnounceSummons(c.game, [VANILLA], One, Some(0), QUIET);
    FirstIsCopied(c.game);
    CopyIsDispatched(c.game, Env({}, 11, 17), 16, FIRST_COPY, step);
    OneMore(c, BELOW_COPIES, Stacked(16, FIRST_COPY), step);
    after := Stepped(c, 16, step);
  }

  // ---------- The trigger ----------

  lemma WatcherIsQueued(g: Game)
    requires g.world == WORLD_4 && g.events == map[3 := SUMMONED]
    ensures Expand(g, 3, WATCHED) ==
            Ok(Step(g.(events := map[3 := QUEUED]), [AttemptTrigger(WATCHER_TRIES), FinishEvent(3)]))
  {
    assert [WATCHING][1..] == [];
    assert Discover(g.world, Summoned, [WATCHING]) == [WATCHING];
    assert Snapshot(3, [WATCHING], [WATCHING]) == [WATCHER_TRIES];
    assert QueuedCandidates(g, 3, WATCHED) == [WATCHER_TRIES];
    assert Attempts([WATCHER_TRIES]) + [FinishEvent(3)] == [AttemptTrigger(WATCHER_TRIES), FinishEvent(3)];
    assert g.events[3 := QUEUED] == map[3 := QUEUED];
  }

  const BELOW_TRIGGER: seq<Stacked> := BELOW_COPIES + [Stacked(19, FinishEvent(3))]

  lemma TriggerNumbered()
    ensures BELOW_COPIES + Numbered(19, [AttemptTrigger(WATCHER_TRIES), FinishEvent(3)]) ==
            BELOW_TRIGGER + [Stacked(20, AttemptTrigger(WATCHER_TRIES))]
  {
    TwoNumbered(19, AttemptTrigger(WATCHER_TRIES), FinishEvent(3));
  }

  lemma TriggerIsQueued(c: Core) returns (after: Core)
    requires AtEvent(c, WORLD_4, SUMMONED, 10, 19)
    ensures AtEvent(after, WORLD_4, QUEUED, 9, 21)
    ensures Drive(c, {}, BELOW_COPIES + [Stacked(17, ResolveEvent(3))], STORY) ==
            Drive(after, {}, BELOW_TRIGGER + [Stacked(20, AttemptTrigger(WATCHER_TRIES))], STORY)
  {
    var step := Step(c.game.(events := map[3 := QUEUED]), [AttemptTrigger(WATCHER_TRIES), FinishEvent(3)]);
    WatcherIsQueued(c.game);
    OneMore(c, BELOW_COPIES, Stacked(17, ResolveEvent(3)), step);
    TriggerNumbered();
    after := Stepped(c, 17, step);
  }

  const WATCHER_CONTEXT := EffectContext(Some(1), One, Some(4), None)
  const RETURN_EFFECT := RunEffect(WATCHER_CONTEXT, RETURNING, Some(3))
  const ASK_EFFECT := RunEffect(WATCHER_CONTEXT, ASKING, Some(3))

  /** What is left when the choice is asked for. */
  const LEFT: seq<Stacked> := BELOW_TRIGGER + [Stacked(21, FinishTrigger(20, 1))]

  lemma TriggerEffects(g: Game)
    requires g.world == WORLD_4 && g.events == map[3 := QUEUED]
    ensures Attempt(g, 20, WATCHER_TRIES, QUIET) == Ok(Step(g, [RETURN_EFFECT, ASK_EFFECT, FinishTrigger(20, 1)]))
  {
    assert g.events[3].context.targets == [4] && 1 in g.world;
    assert Effects(WATCHER_CONTEXT, WATCHES.program, Some(3), None) == [RETURN_EFFECT, ASK_EFFECT];
    assert [RETURN_EFFECT, ASK_EFFECT] + [FinishTrigger(20, 1)] == [RETURN_EFFECT, ASK_EFFECT, FinishTrigger(20, 1)];
  }

  lemma EffectsNumbered()
    ensures BELOW_TRIGGER + Numbered(21, [RETURN_EFFECT, ASK_EFFECT, FinishTrigger(20, 1)]) ==
            LEFT + [Stacked(22, ASK_EFFECT)] + [Stacked(23, RETURN_EFFECT)]
  {
    assert [RETURN_EFFECT, ASK_EFFECT, FinishTrigger(20, 1)][1..] == [ASK_EFFECT, FinishTrigger(20, 1)];
    TwoNumbered(21, ASK_EFFECT, FinishTrigger(20, 1));
  }

  lemma TriggerRuns(c: Core) returns (after: Core)
    requires AtEvent(c, WORLD_4, QUEUED, 9, 21)
    ensures AtEvent(after, WORLD_4, QUEUED, 8, 24)
    ensures Drive(c, {}, BELOW_TRIGGER + [Stacked(20, AttemptTrigger(WATCHER_TRIES))], STORY) ==
            Drive(after, {}, LEFT + [Stacked(22, ASK_EFFECT)] + [Stacked(23, RETURN_EFFECT)], STORY)
  {
    var step := Step(c.game, [RETURN_EFFECT, ASK_EFFECT, FinishTrigger(20, 1)]);
    TriggerEffects(c.game);
    OneMore(c, BELOW_TRIGGER, Stacked(20, AttemptTrigger(WATCHER_TRIES)), step);
    EffectsNumbered();
    after := Stepped(c, 20, step);
  }

  lemma MinionIsMoved(g: Game)
    requires g.world == WORLD_4
    ensures Moved(g, RETURNED) == g.(world := WORLD_5)
  {
    assert Moved(g, RETURNED).world == WORLD_5;
  }

  lemma MinionReturns(c: Core) returns (after: Core)
    requires AtEvent(c, WORLD_4, QUEUED, 8, 24)
    ensures AtEvent(after, WORLD_5, QUEUED, 7, 24)
    ensures Drive(c, {}, LEFT + [Stacked(22, ASK_EFFECT)] + [Stacked(23, RETURN_EFFECT)], STORY) ==
            Drive(after, {}, LEFT + [Stacked(22, ASK_EFFECT)], STORY)
  {
    var step := Step(c.game.(world := WORLD_5), []);
    MinionIsMoved(c.game);
    OneMore(c, LEFT + [Stacked(22, ASK_EFFECT)], Stacked(23, RETURN_EFFECT), step);
    NothingNumbered(LEFT + [Stacked(22, ASK_EFFECT)], 24);
    after := Stepped(c, 23, step);
  }

  // ---------- The choice ----------

  /** The choice that is asked for has one option, which does nothing. */
  const QUESTION := ChoiceRequest(0, One, [ChoiceOption(0, [])])

  lemma AskingIsAccepted(event: Option<EventKind>)
    ensures CheckProgram({}, [ASKING], event, false).None?
  {
    assert UniqueOptions(ASKING.options);
    assert CheckOptions({}, ASKING.options[1..]).None?;
    assert CheckOptions({}, ASKING.options).None?;
    assert CheckEffect({}, ASKING, event, false).None?;
    OneEffectIsAccepted({}, ASKING, event, false);
  }

  lemma QuestionIsAsked(g: Game)
    ensures RunChoose(g, {}, WATCHER_CONTEXT, ASKING) == Ok(Step(g, [RequestChoice(QUESTION)]))
    ensures ValidChoice({}, QUESTION)
  {
    AskingIsAccepted(None);
    assert OptionOps(WATCHER_CONTEXT, ASKING.options) == [ChoiceOption(0, [])];
  }

  predicate PausedAtQuestion(o: Outcome) {
    && o.Paused? && o.rest == LEFT && o.core.choice == Some(QUESTION)
    && AtEvent(o.core.(choice := None), WORLD_5, QUEUED, 5, 25)
  }

  lemma QuestionPauses(c: Core)
    requires AtEvent(c, WORLD_5, QUEUED, 7, 24)
    ensures PausedAtQuestion(Drive(c, {}, LEFT + [Stacked(22, ASK_EFFECT)], STORY))
  {
    var step := Step(c.game, [RequestChoice(QUESTION)]);
    QuestionIsAsked(c.game);
    OneMore(c, LEFT, Stacked(22, ASK_EFFECT), step);
    OneNumbered(24, RequestChoice(QUESTION));
    RequestPauses(Stepped(c, 22, step));
  }

  lemma RequestPauses(c: Core)
    requires AtEvent(c, WORLD_5, QUEUED, 6, 25)
    ensures PausedAtQuestion(Drive(c, {}, LEFT + [Stacked(24, RequestChoice(QUESTION))], STORY))
  {
    QuestionIsAsked(c.game);
    var stack := LEFT + [Stacked(24, RequestChoice(QUESTION))];
    assert Below(stack) + [] == LEFT;
  }

  /** The story up to the choice. */
  lemma StoryPauses(c: Core)
    requires At(c, SETUP, 2, 0, 25, 3)
    ensures PausedAtQuestion(Drive(c, {}, BOTTOM + [Stacked(2, PLAYING)], STORY))
  {
    var c1 := EntryPasses(c);
    var c2 := SummonsPass(c1);
    var c3 := CopiesAreRequested(c2);
    var c4 := FirstCopyIsAnnounced(c3);
    var c5 := TriggerIsQueued(c4);
    var c6 := TriggerRuns(c5);
    var c7 := MinionReturns(c6);
    QuestionPauses(c7);
  }

  // ---------- Going on ----------

  lemma TriggerFinishes(c: Core) returns (after: Core)
    requires AtEvent(c, WORLD_5, QUEUED, 5, 25)
    ensures AtEvent(after, WORLD_5, QUEUED, 4, 25)
    ensures Drive(c, {}, LEFT, STORY) == Drive(after, {}, BELOW_TRIGGER, STORY)
  {
    OneMore(c, BELOW_TRIGGER, Stacked(21, FinishTrigger(20, 1)), Step(c.game, []));
    NothingNumbered(BELOW_TRIGGER, 25);
    after := Stepped(c, 21, Step(c.game, []));
  }

  lemma EventFinishes(c: Core) returns (after: Core)
    requires AtEvent(c, WORLD_5, QUEUED, 4, 25)
    ensures At(after, WORLD_5, 5, 4, 3, 25)
    ensures Drive(c, {}, BELOW_TRIGGER, STORY) == Drive(after, {}, BELOW_COPIES, STORY)
  {
    var step := Step(TakeEvent(c.game, 3), []);
    assert c.game.events - {3} == map[];
    OneMore(c, BELOW_COPIES, Stacked(19, FinishEvent(3)), step);
    NothingNumbered(BELOW_COPIES, 25);
    after := Stepped(c, 19, step);
  }

  /** The policy is taken anew: the minion in the hand is copied in its current form, and nothing is announced. */
  lemma SecondIsCopied(g: Game)
    requires g.world == WORLD_5 && g.nextEntity == 5
    ensures RunCopy(g, {}, WithLivePolicy(g.world, SECOND_COPY), QUIET) ==
            Ok(Step(g.(world := WORLD_6, nextEntity := 6), []))
  {
    VanillaIsAccepted();
    var live := SECOND_COPY.(playState := false);
    assert WithLivePolicy(g.world, SECOND_COPY) == live;
    assert PrepareCopy(g, {}, live, QUIET) == Ok(true);
    var spawned := g.(world := WORLD_6, nextEntity := 6);
    assert [VANILLA][1..] == [];
    assert Spawn(spawned, [], Play, One) == spawned;
    assert Spawn(g, [VANILLA], Play, One) == spawned;
    Unmoved(spawned, QUIET);
  }

  lemma CopyIsDispatched(g: Game, env: Env, id: ResolutionId, op: Operation, step: Step)
    requires op.CopyEntity? && RunCopy(g, env.natives, WithLivePolicy(g.world, op), QUIET) == Ok(step)
    ensures Dispatch(g, env, id, op, QUIET) == Ok(step)
  {
  }

  lemma SecondCopyGoesOn(c: Core) returns (after: Core)
    requires At(c, WORLD_5, 5, 4, 3, 25)
    ensures At(after, WORLD_6, 6, 4, 2, 25)
    ensures Drive(c, {}, BELOW_COPIES, STORY) == Drive(after, {}, BOTTOM, STORY)
  {
    var step := Step(c.game.(world := WORLD_6, nextEntity := 6), []);
    SecondIsCopied(c.game);
    CopyIsDispatched(c.game, Env({}, 2, 25), 15, SECOND_COPY, step);
    OneMore(c, BOTTOM, Stacked(15, SECOND_COPY), step);
    NothingNumbered(BOTTOM, 25);
    after := Stepped(c, 15, step);
  }

  predicate DoneWithCopies(o: Outcome) {
    o.Done? && At(o.core, WORLD_6, 6, 4, 0, 25)
  }

  lemma BottomIsDone(c: Core)
    requires At(c, WORLD_6, 6, 4, 2, 25)
    ensures DoneWithCopies(Drive(c, {}, BOTTOM, STORY))
  {
    Unmoved(c.game, QUIET);
    var lower := [Stacked(0, CheckOutcome)];
    assert BOTTOM == lower + [Stacked(1, RunPhaseBoundary)];
    OneMore(c, lower, Stacked(1, RunPhaseBoundary), Step(c.game, []));
    NothingNumbered(lower, 25);
    OutcomeIsChecked(Stepped(c, 1, Step(c.game, [])));
  }

  lemma OutcomeIsChecked(c: Core)
    requires At(c, WORLD_6, 6, 4, 1, 25)
    ensures DoneWithCopies(Drive(c, {}, [Stacked(0, CheckOutcome)], STORY))
  {
    assert [] + [Stacked(0, CheckOutcome)] == [Stacked(0, CheckOutcome)];
    OneMore(c, [], Stacked(0, CheckOutcome), Step(c.game, []));
    NothingNumbered([], 25);
  }

  lemma StoryGoesOn(c: Core)
    requires AtEvent(c, WORLD_5, QUEUED, 5, 25)
    ensures DoneWithCopies(Drive(c, {}, LEFT, STORY))
  {
    var c1 := TriggerFinishes(c);
    var c2 := EventFinishes(c1);
    var c3 := SecondCopyGoesOn(c2);
    BottomIsDone(c3);
  }

  // ---------- The session ----------

  const START := NewSession(SETUP, 2)
  const PLAY_THE_SPELL := SubmitAction(PlayCardAction(One, 0, None), true, 25, STORY)
  const ANSWER := SubmitChoice(0, STORY)

  lemma SetupIsSafe()
    ensures SafelyAtRest(START, {})
  {
    AskingIsAccepted(Some(Summoned));
    assert WATCHES.program == [RETURNING] + [ASKING];
    AcceptedMeansEveryEffect({}, [ASKING], Some(Summoned), false);
    assert [ASKING][0] == ASKING;
    AcceptedMeansEveryEffect({}, WATCHES.program, Some(Summoned), false);
    assert ResolutionTyping.WorldTyped({}, SETUP) by {
      ResolutionTyping.EachTriggerIsTyped({}, WATCHER.triggers);
      ResolutionTyping.EachTriggerIsTyped({}, SPELL.triggers);
    }
    NewSessionsAreSafe({}, SETUP, 2);
  }

  lemma SpellIsAccepted()
    ensures ProgramsAccepted(START.core.game, {}, PlayCardAction(One, 0, None))
  {
    VanillaIsAccepted();
    AcceptedMeansEveryEffect({}, SPELL.effects, None, false);
  }

  lemma ActionNumbered()
    ensures [] + Numbered(0, ActionOps(PlayCardAction(One, 0, None))) == BOTTOM + [Stacked(2, PLAYING)]
  {
    var ops := ActionOps(PlayCardAction(One, 0, None));
    assert ops[1..] == [RunPhaseBoundary, CheckOutcome];
    TwoNumbered(0, RunPhaseBoundary, CheckOutcome);
  }

  lemma PlayingResolves() returns (c: Core)
    ensures At(c, SETUP, 2, 0, 25, 3)
    ensures Run(START, {}, PLAY_THE_SPELL) == Settled(true, Drive(c, {}, BOTTOM + [Stacked(2, PLAYING)], STORY))
  {
    SpellIsAccepted();
    ActionNumbered();
    c := START.core.(budget := 25, next := 3);
  }

  predicate PausedMachine(m: Machine) {
    && m.status == AwaitingChoice && m.active && m.stack == LEFT && m.core.choice == Some(QUESTION)
    && AtEvent(m.core.(choice := None), WORLD_5, QUEUED, 5, 25)
  }

  lemma PlayingPauses()
    ensures var (paused, report) := Run(START, {}, PLAY_THE_SPELL); PausedMachine(paused) && report.None?
  {
    var c := PlayingResolves();
    StoryPauses(c);
  }

  /** The policy of the second copy is out of date. */
  lemma PauseIsRefused(m: Machine)
    requires PausedMachine(m)
    ensures PrepareCopy(m.core.game, {}, SECOND_COPY, STORY(15)) == Err(CopyPolicyDiffers)
    ensures !ProgramsValid(m, {}, STORY)
  {
    assert m.stack[2] == Stacked(15, SECOND_COPY);
    assert !OperationValid(m.core.game, {}, m.stack[2].op, STORY(m.stack[2].id));
  }

  lemma NothingToTransform()
    ensures NoTransforms(LEFT) && IdsGiven(LEFT, 25) && EnchantmentsFit({}, WORLD_5)
  {
  }

  lemma CopiedCardFits(g: Game)
    requires g.world == WORLD_5
    ensures CopyPolicies.CardsFit(g, {}, LEFT, STORY)
  {
    VanillaIsAccepted();
    assert forall i :: 0 <= i < |LEFT| && LEFT[i].op.CopyEntity? ==> LEFT[i] == Stacked(15, SECOND_COPY);
  }

  /** Nothing else is wrong with the pause. */
  lemma OnlyThePolicyIsRefused(m: Machine)
    requires PausedMachine(m) && SafelyAtRest(m, {})
    ensures ProgramsValid(CopyPolicies.WithLivePolicies(m), {}, STORY)
  {
    NothingToTransform();
    CopiedCardFits(m.core.game);
    CopyPolicies.LivePoliciesAreRestored(m, {}, STORY);
  }

  lemma AnswerResolves(m: Machine)
    requires PausedMachine(m)
    ensures Run(m, {}, ANSWER) == Settled(true, Drive(m.core.(choice := None), {}, LEFT, STORY))
  {
    NothingNumbered(LEFT, 25);
  }

  lemma AnswerGoesOn(m: Machine)
    requires PausedMachine(m)
    ensures var (done, report) := Run(m, {}, ANSWER);
            report.None? && done.status == AwaitingAction && done.core.game.world == WORLD_6
  {
    AnswerResolves(m);
    StoryGoesOn(m.core.(choice := None));
  }

  /**
   A safe session of a new game that pauses at a choice. Its saved pause is
   refused, for the policy of a pending copy and for nothing else, while the
   answer carries the copy out.
   */
  lemma RefusedThoughItGoesOn()
    ensures SafelyAtRest(START, {})
    ensures var (paused, report) := Run(START, {}, PLAY_THE_SPELL);
            && paused.status == AwaitingChoice && report.None?
            && !ProgramsValid(paused, {}, STORY) && ProgramsValid(CopyPolicies.WithLivePolicies(paused), {}, STORY)
            && var (done, reported) := Run(paused, {}, ANSWER);
               && done.status == AwaitingAction && reported.None?
               && 5 in done.core.game.world && done.core.game.world[5] == GameEntity(VANILLA, Play, One, false)
  {
    SetupIsSafe();
    PlayingPauses();
    var paused := Run(START, {}, PLAY_THE_SPELL).0;
    PauseIsRefused(paused);
    SubmitIsSafe(START, {}, PlayCardAction(One, 0, None), true, 25, STORY);
    OnlyThePolicyIsRefused(paused);
    AnswerGoesOn(paused);
  }
}
