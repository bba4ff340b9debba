/**
 Natural and extra turns (hearthstone_simulator/core/game.rs).

 Extra turns are granted for the end of the current turn or for a player's
 next series of turns; counters are 32 bits wide and saturate.
 */
module TurnSchedules {
  import opened Outcomes
  import opened Players

  datatype Timing = AfterCurrentTurn | DuringNextTurnSeries
  datatype Kind = Natural | Extra
  datatype Turn = Turn(player: PlayerId, kind: Kind)

  const U32_MAX: nat := 0xffff_ffff

  function Saturate(n: nat): nat {
    if n > U32_MAX then U32_MAX else n
  }

  /** One counter for each player. */
  datatype Counts = Counts(one: nat, two: nat) {
    function Of(p: PlayerId): nat { if p == One then one else two }
    function With(p: PlayerId, n: nat): Counts { if p == One then Counts(n, two) else Counts(one, n) }
    predicate Any() { one > 0 || two > 0 }
  }

  const NO_EXTRAS := Counts(0, 0)

  datatype Schedule = Schedule(
    pending: seq<Turn>, series: Counts, after: Counts, anchor: Option<PlayerId>, resume: Option<PlayerId>)

  const EMPTY_SCHEDULE := Schedule([], NO_EXTRAS, NO_EXTRAS, None, None)

  function Grant(s: Schedule, active: PlayerId, player: PlayerId, count: nat, timing: Timing): Schedule {
    match timing
    case AfterCurrentTurn =>
      s.(anchor := Some(active), after := s.after.With(player, Saturate(s.after.Of(player) + count)))
    case DuringNextTurnSeries =>
      s.(series := s.series.With(player, Saturate(s.series.Of(player) + count)))
  }

  function Repeat(player: PlayerId, count: nat): seq<Turn> {
    if count == 0 then [] else [Turn(player, Extra)] + Repeat(player, count - 1)
  }

  function NaturalSeries(s: Schedule, player: PlayerId): (Schedule, Turn) {
    (s.(pending := s.pending + Repeat(player, s.series.Of(player)), series := s.series.With(player, 0)),
     Turn(player, Natural))
  }

  /** The granted after-current turns move into the series of their players. */
  function Merged(s: Schedule): Schedule {
    s.(series := Counts(Saturate(s.series.one + s.after.one), Saturate(s.series.two + s.after.two)),
       after := NO_EXTRAS, anchor := None)
  }

  /**
   Pending extras first; then the interrupted natural turn; then the opponent's
   turn, or what was granted before it.
   */
  function NextTurn(s: Schedule, ending: PlayerId): (Schedule, Turn) {
    if s.pending != [] then (s.(pending := s.pending[1..]), s.pending[0])
    else if s.resume.Some? then NaturalSeries(s.(resume := None), s.resume.value)
    else
      var natural := ending.Opponent();
      if s.series.Of(natural) > 0 then NaturalSeries(Merged(s), natural)
      else if s.after.Any() then
        var turns := Repeat(One, s.after.one) + Repeat(Two, s.after.two);
        (s.(pending := turns[1..], resume := Some(natural), after := NO_EXTRAS, anchor := None), turns[0])
      else NaturalSeries(s, natural)
  }

  // ---------- The schedule in place ----------

  function Index(p: PlayerId): nat {
    if p == One then 0 else 1
  }

  class TurnSchedule {
    var pending: seq<Turn>
    const series: array<nat>
    const after: array<nat>
    var anchor: Option<PlayerId>
    var resume: Option<PlayerId>

    predicate Valid()
      reads this, series, after
    {
      series != after && series.Length == after.Length == 2
    }

    function Contents(): Schedule
      requires Valid()
      reads this, series, after
    {
      Schedule(pending, Counts(series[0], series[1]), Counts(after[0], after[1]), anchor, resume)
    }

    constructor ()
      ensures Valid() && fresh(series) && fresh(after) && Contents() == EMPTY_SCHEDULE
    {
      series, after := new nat[2](_ => 0), new nat[2](_ => 0);
      pending, anchor, resume := [], None, None;
    }

    method GrantTurns(active: PlayerId, player: PlayerId, count: nat, timing: Timing)
      requires Valid()
      modifies this, series, after
      ensures Valid() && Contents() == Grant(old(Contents()), active, player, count, timing)
    {
      var index := Index(player);
      if timing == AfterCurrentTurn {
        anchor := Some(active);
        after[index] := Saturate(after[index] + count);
      } else {
        series[index] := Saturate(series[index] + count);
      }
    }

    method StartNaturalSeries(player: PlayerId) returns (turn: Turn)
      requires Valid()
      modifies this, series
      ensures Valid() && (Contents(), turn) == NaturalSeries(old(Contents()), player)
    {
      pending := pending + Repeat(player, series[Index(player)]);
      series[Index(player)] := 0;
      turn := Turn(player, Natural);
    }

    /** The granted after-current turns move into the series, and the anchor goes. */
    method MergeAfterCurrent()
      requires Valid()
      modifies this`anchor, series, after
      ensures Valid() && Contents() == Merged(old(Contents()))
    {
      var i := 0;
      while i < 2
        invariant 0 <= i <= 2
        invariant forall k :: 0 <= k < i ==> series[k] == Saturate(old(series[k]) + old(after[k])) && after[k] == 0
        invariant forall k :: i <= k < 2 ==> series[k] == old(series[k]) && after[k] == old(after[k])
      {
        series[i] := Saturate(series[i] + after[i]);
        after[i] := 0;
        i := i + 1;
      }
      anchor := None;
    }

    /** The after-current turns are queued before the natural turn, which is remembered. */
    method QueueAfterCurrent(natural: PlayerId)
      requires Valid() && pending == []
      modifies this`pending, this`anchor, this`resume, after
      ensures Valid() && Contents() == old(Contents()).(
        pending := Repeat(One, old(after[0])) + Repeat(Two, old(after[1])), resume := Some(natural),
          after := NO_EXTRAS, anchor := None)
    {
      resume := Some(natural);
      anchor := None;
      var i := 0;
      while i < 2
        invariant 0 <= i <= 2
        invariant pending ==
          (if i > 0 then Repeat(One, old(after[0])) else []) + (if i > 1 then Repeat(Two, old(after[1])) else [])
        invariant forall k :: 0 <= k < i ==> after[k] == 0
        invariant forall k :: i <= k < 2 ==> after[k] == old(after[k])
        invariant resume == Some(natural) && anchor == None
      {
        pending := pending + Repeat(if i == 0 then One else Two, after[i]);
        after[i] := 0;
        i := i + 1;
      }
    }

    method Next(ending: PlayerId) returns (turn: Turn)
      requires Valid()
      modifies this, series, after
      ensures Valid() && (Contents(), turn) == NextTurn(old(Contents()), ending)
    {
      if pending != [] {
        turn := pending[0];
        pending := pending[1..];
        return;
      }
      if resume.Some? {
        var player := resume.value;
        resume := None;
        turn := StartNaturalSeries(player);
        return;
      }
      var natural := ending.Opponent();
      if series[Index(natural)] > 0 {
        MergeAfterCurrent();
        turn := StartNaturalSeries(natural);
        return;
      }
      if after[0] > 0 || after[1] > 0 {
        RepeatedLength(One, after[0]);
        RepeatedLength(Two, after[1]);
        QueueAfterCurrent(natural);
        turn := pending[0];
        pending := pending[1..];
        return;
      }
      turn := StartNaturalSeries(natural);
    }
  }

  lemma {:induction false} RepeatedLength(p: PlayerId, count: nat)
    ensures |Repeat(p, count)| == count
    ensures forall i :: 0 <= i < count ==> Repeat(p, count)[i] == Turn(p, Extra)
  {
    if count > 0 { RepeatedLength(p, count - 1); }
  }

  // ---------- Games ----------

  /** A game as its turns see it: who is playing, and whose natural turn came last. */
  datatype Play = Play(schedule: Schedule, current: PlayerId, lastNatural: PlayerId)

  datatype Event = Granted(player: PlayerId, count: nat, timing: Timing) | TurnEnds

  function Upcoming(g: Play): Turn {
    NextTurn(g.schedule, g.current).1
  }

  function Happen(g: Play, e: Event): Play {
    match e
    case Granted(player, count, timing) => g.(schedule := Grant(g.schedule, g.current, player, count, timing))
    case TurnEnds =>
      var (s, t) := NextTurn(g.schedule, g.current);
      Play(s, t.player, if t.kind == Natural then t.player else g.lastNatural)
  }

  function After(g: Play, events: seq<Event>): Play
    decreases |events|
  {
    if events == [] then g else After(Happen(g, events[0]), events[1..])
  }

  /** The turns taken, in order. */
  function Turns(g: Play, events: seq<Event>): seq<Turn>
    decreases |events|
  {
    if events == [] then [] else
      (if events[0].TurnEnds? then [Upcoming(g)] else []) + Turns(Happen(g, events[0]), events[1..])
  }

  function Naturals(turns: seq<Turn>): seq<PlayerId> {
    if turns == [] then [] else (if turns[0].kind == Natural then [turns[0].player] else []) + Naturals(turns[1..])
  }

  /** Pending turns are extras; without an interrupted natural turn they all belong to the player of the last one. */
  ghost predicate Reachable(g: Play) {
    && (forall i :: 0 <= i < |g.schedule.pending| ==> g.schedule.pending[i].kind == Extra)
    && (g.schedule.resume.Some? ==> g.schedule.resume.value == g.lastNatural.Opponent())
    && (g.schedule.resume.None? ==>
          && g.current == g.lastNatural
          && forall i :: 0 <= i < |g.schedule.pending| ==> g.schedule.pending[i].player == g.lastNatural)
  }

  lemma SeriesBelongsTo(s: Schedule, player: PlayerId)
    requires s.pending == []
    ensures forall i :: 0 <= i < |NaturalSeries(s, player).0.pending| ==>
      NaturalSeries(s, player).0.pending[i] == Turn(player, Extra)
  {
    RepeatedLength(player, s.series.Of(player));
  }

  lemma InterruptingTurnsAreExtra(after: Counts)
    ensures var turns := Repeat(One, after.one) + Repeat(Two, after.two);
            |turns| == after.one + after.two && forall i :: 0 <= i < |turns| ==> turns[i].kind == Extra
  {
    RepeatedLength(One, after.one);
    RepeatedLength(Two, after.two);
  }

  lemma StaysReachable(g: Play, e: Event)
    requires Reachable(g)
    ensures Reachable(Happen(g, e))
    ensures e.TurnEnds? && Upcoming(g).kind == Natural ==> Upcoming(g).player == g.lastNatural.Opponent()
  {
    var s := g.schedule;
    if e.TurnEnds? && s.pending == [] {
      if s.resume.Some? {
        SeriesBelongsTo(s.(resume := None), s.resume.value);
      } else if s.series.Of(g.current.Opponent()) > 0 {
        SeriesBelongsTo(Merged(s), g.current.Opponent());
      } else if s.after.Any() {
        InterruptingTurnsAreExtra(s.after);
      } else {
        SeriesBelongsTo(s, g.current.Opponent());
      }
    }
  }

  lemma NaturalsGoOn(g: Play, events: seq<Event>)
    requires events != []
    ensures var rest := Naturals(Turns(Happen(g, events[0]), events[1..]));
            Naturals(Turns(g, events)) ==
            if events[0].TurnEnds? && Upcoming(g).kind == Natural then [Upcoming(g).player] + rest else rest
  {
    var rest := Turns(Happen(g, events[0]), events[1..]);
    if events[0].TurnEnds? {
      assert Turns(g, events) == [Upcoming(g)] + rest;
      assert ([Upcoming(g)] + rest)[1..] == rest;
    } else {
      assert Turns(g, events) == rest;
    }
  }

  predicate Alternates(naturals: seq<PlayerId>, i: nat, last: PlayerId)
    requires i < |naturals|
  {
    naturals[i] == if i % 2 == 0 then last.Opponent() else last
  }

  lemma AlternatesAfter(rest: seq<PlayerId>, i: nat, last: PlayerId)
    requires 0 < i <= |rest| && Alternates(rest, i - 1, last.Opponent())
    ensures Alternates([last.Opponent()] + rest, i, last)
  {
  }

  /** Natural turns alternate strictly between the players, however extra turns are granted. */
  lemma {:induction false} NaturalTurnsAlternate(g: Play, events: seq<Event>, i: nat)
    requires Reachable(g) && i < |Naturals(Turns(g, events))|
    ensures Alternates(Naturals(Turns(g, events)), i, g.lastNatural)
    decreases |events|
  {
    var after := Happen(g, events[0]);
    StaysReachable(g, events[0]);
    NaturalsGoOn(g, events);
    if !(events[0].TurnEnds? && Upcoming(g).kind == Natural) {
      NaturalTurnsAlternate(after, events[1..], i);
    } else if i > 0 {
      NaturalTurnsAlternate(after, events[1..], i - 1);
      AlternatesAfter(Naturals(Turns(after, events[1..])), i, g.lastNatural);
    }
  }

  // ---------- No granted turn is lost ----------

  function PendingFor(pending: seq<Turn>, p: PlayerId): nat {
    if pending == [] then 0 else PendingFor(pending[1..], p) + if pending[0].player == p then 1 else 0
  }

  /** The extra turns a player has been granted and not yet taken. */
  function Outstanding(s: Schedule, p: PlayerId): nat {
    PendingFor(s.pending, p) + s.series.Of(p) + s.after.Of(p)
  }

  lemma {:induction false} PendingOfConcatenation(xs: seq<Turn>, ys: seq<Turn>, p: PlayerId)
    ensures PendingFor(xs + ys, p) == PendingFor(xs, p) + PendingFor(ys, p)
    decreases |xs|
  {
    if xs == [] {
      assert xs + ys == ys;
    } else {
      assert (xs + ys)[1..] == xs[1..] + ys;
      PendingOfConcatenation(xs[1..], ys, p);
    }
  }

  lemma {:induction false} PendingOfRepeat(q: PlayerId, count: nat, p: PlayerId)
    ensures PendingFor(Repeat(q, count), p) == if p == q then count else 0
  {
    if count > 0 {
      assert Repeat(q, count)[1..] == Repeat(q, count - 1);
      PendingOfRepeat(q, count - 1, p);
    }
  }

  function Taken(t: Turn, p: PlayerId): nat {
    if t == Turn(p, Extra) then 1 else 0
  }

  /** The merge happens when a natural turn with a series of its own begins over after-current grants. */
  predicate Merges(s: Schedule, ending: PlayerId) {
    s.pending == [] && s.resume.None? && s.series.Of(ending.Opponent()) > 0
  }

  /** Ending a turn keeps every granted turn except the one taken, exactly unless the merge saturates. */
  lemma TurnsAreConserved(s: Schedule, ending: PlayerId, p: PlayerId)
    requires forall i :: 0 <= i < |s.pending| ==> s.pending[i].kind == Extra
    ensures var (after, t) := NextTurn(s, ending);
            && Outstanding(after, p) + Taken(t, p) <= Outstanding(s, p)
            && (Outstanding(after, p) + Taken(t, p) == Outstanding(s, p) <==>
                  !(Merges(s, ending) && s.series.Of(p) + s.after.Of(p) > U32_MAX))
  {
    if s.pending == [] && s.resume.Some? {
      SeriesStarts(s.(resume := None), s.resume.value, p);
    } else if Merges(s, ending) {
      SeriesStarts(Merged(s), ending.Opponent(), p);
    } else if s.pending == [] && s.after.Any() {
      RepeatedLength(One, s.after.one);
      RepeatedLength(Two, s.after.two);
      PendingOfConcatenation(Repeat(One, s.after.one), Repeat(Two, s.after.two), p);
      PendingOfRepeat(One, s.after.one, p);
      PendingOfRepeat(Two, s.after.two, p);
      InterruptingTurnsAreExtra(s.after);
    } else if s.pending == [] {
      SeriesStarts(s, ending.Opponent(), p);
    }
  }

  lemma SeriesStarts(s: Schedule, player: PlayerId, p: PlayerId)
    requires s.pending == []
    ensures Outstanding(NaturalSeries(s, player).0, p) == Outstanding(s, p)
  {
    PendingOfRepeat(player, s.series.Of(player), p);
    assert [] + Repeat(player, s.series.Of(player)) == Repeat(player, s.series.Of(player));
  }

  /** A grant adds its count exactly unless its counter saturates. */
  lemma GrantsAreKept(s: Schedule, active: PlayerId, player: PlayerId, count: nat, timing: Timing, p: PlayerId)
    ensures var counter := if timing == AfterCurrentTurn then s.after.Of(player) else s.series.Of(player);
            counter <= U32_MAX ==>
              (Outstanding(Grant(s, active, player, count, timing), p) ==
               Outstanding(s, p) + (if p == player then count else 0)
               <==> (p == player ==> counter + count <= U32_MAX))
  {
  }

  function GrantedBy(e: Event, p: PlayerId): nat {
    if e.Granted? && e.player == p then e.count else 0
  }

  function GrantedTo(events: seq<Event>, p: PlayerId): nat {
    if events == [] then 0 else GrantedTo(events[1..], p) + GrantedBy(events[0], p)
  }

  function TakenBy(turns: seq<Turn>, p: PlayerId): nat {
    if turns == [] then 0 else TakenBy(turns[1..], p) + Taken(turns[0], p)
  }

  lemma EventConservesTurns(g: Play, e: Event, p: PlayerId)
    requires Reachable(g) && Outstanding(g.schedule, p) + GrantedBy(e, p) <= U32_MAX
    ensures Outstanding(g.schedule, p) + GrantedBy(e, p) ==
            Outstanding(Happen(g, e).schedule, p) + if e.TurnEnds? then Taken(Upcoming(g), p) else 0
  {
    if e.TurnEnds? { TurnsAreConserved(g.schedule, g.current, p); }
  }

  /** Over any run within 32 bits, the extra turns granted are those taken and those outstanding. */
  lemma {:induction false} ExtraTurnsAreConserved(g: Play, events: seq<Event>, p: PlayerId)
    requires Reachable(g) && Outstanding(g.schedule, p) + GrantedTo(events, p) <= U32_MAX
    ensures Outstanding(g.schedule, p) + GrantedTo(events, p) ==
            TakenBy(Turns(g, events), p) + Outstanding(After(g, events).schedule, p)
    decreases |events|
  {
    if events != [] {
      StaysReachable(g, events[0]);
      EventConservesTurns(g, events[0], p);
      ExtraTurnsAreConserved(Happen(g, events[0]), events[1..], p);
      if events[0].TurnEnds? {
        assert Turns(g, events)[1..] == Turns(Happen(g, events[0]), events[1..]);
      } else {
        assert Turns(g, events) == Turns(Happen(g, events[0]), events[1..]);
      }
    }
  }

  // ---------- Granted turns are taken soon ----------

  function AllOutstanding(s: Schedule): nat {
    Outstanding(s, One) + Outstanding(s, Two)
  }

  /**
   How many natural turns can come before nothing is outstanding, from a turn
   boundary with this last natural player.
   */
  function NaturalsAtBoundary(series: Counts, after: Counts, last: PlayerId): nat {
    if series.Of(last.Opponent()) > 0 then if series.Of(last) + after.Of(last) > 0 then 2 else 1
    else if series.Of(last) > 0 then 2 else 0
  }

  function NaturalsNeeded(g: Play): nat {
    var s := g.schedule;
    if s.resume.None? then NaturalsAtBoundary(s.series, s.after, g.lastNatural)
    else if !s.series.Any() && !s.after.Any() then 0
    else 1 + NaturalsAtBoundary(s.series.With(s.resume.value, 0), s.after, s.resume.value)
  }

  /** Once the pending extras are gone, a natural turn uses up one of the natural turns needed. */
  lemma NaturalTurnsAreUsedUp(g: Play)
    requires Reachable(g) && AllOutstanding(g.schedule) > 0 && g.schedule.pending == []
    requires Upcoming(g).kind == Natural
    ensures NaturalsNeeded(Happen(g, TurnEnds)) < NaturalsNeeded(g)
  {
    if g.schedule.resume.None? && !Merges(g.schedule, g.current) && g.schedule.after.Any() {
      InterruptingTurnsAreExtra(g.schedule.after);
    }
  }

  lemma ExtraTurnsNeedNoMoreNaturals(g: Play)
    requires Reachable(g) && Upcoming(g).kind == Extra
    ensures NaturalsNeeded(Happen(g, TurnEnds)) <= NaturalsNeeded(g)
  {
  }

  /** While extras are outstanding, every turn takes one of them or uses up one of the natural turns needed. */
  lemma EveryTurnBringsThemCloser(g: Play)
    requires Reachable(g) && AllOutstanding(g.schedule) > 0
    ensures var h := Happen(g, TurnEnds);
            AllOutstanding(h.schedule) + NaturalsNeeded(h) < AllOutstanding(g.schedule) + NaturalsNeeded(g)
  {
    TurnsAreConserved(g.schedule, g.current, One);
    TurnsAreConserved(g.schedule, g.current, Two);
    if Upcoming(g).kind == Extra {
      ExtraTurnsNeedNoMoreNaturals(g);
    } else {
      NaturalTurnsAreUsedUp(g);
    }
  }

  function EndTurns(g: Play, n: nat): Play
    decreases n
  {
    if n == 0 then g else EndTurns(Happen(g, TurnEnds), n - 1)
  }

  lemma {:induction false} NothingIsOutstandingAfter(g: Play, n: nat)
    requires Reachable(g) && n >= AllOutstanding(g.schedule) + NaturalsNeeded(g)
    ensures AllOutstanding(EndTurns(g, n).schedule) == 0
    decreases n
  {
    if n > 0 {
      StaysReachable(g, TurnEnds);
      if AllOutstanding(g.schedule) > 0 {
        EveryTurnBringsThemCloser(g);
      } else {
        TurnsAreConserved(g.schedule, g.current, One);
        TurnsAreConserved(g.schedule, g.current, Two);
        NothingNeedsNoNaturals(Happen(g, TurnEnds));
      }
      NothingIsOutstandingAfter(Happen(g, TurnEnds), n - 1);
    }
  }

  lemma NothingNeedsNoNaturals(g: Play)
    requires AllOutstanding(g.schedule) == 0
    ensures NaturalsNeeded(g) == 0
  {
  }

  /** All outstanding extra turns are taken within that many turns and three more, if no more are granted. */
  lemma ExtrasAreTakenWithinThreeMoreTurns(g: Play)
    requires Reachable(g)
    ensures AllOutstanding(EndTurns(g, AllOutstanding(g.schedule) + 3).schedule) == 0
  {
    NothingIsOutstandingAfter(g, AllOutstanding(g.schedule) + 3);
  }

  // ---------- Grants made in one turn commute ----------

  datatype GrantOf = GrantOf(player: PlayerId, count: nat, timing: Timing)

  function GrantAll(s: Schedule, active: PlayerId, grants: seq<GrantOf>): Schedule
    decreases |grants|
  {
    if grants == [] then s else
      GrantAll(Grant(s, active, grants[0].player, grants[0].count, grants[0].timing), active, grants[1..])
  }

  lemma SaturatingAddsCommute(n: nat, c: nat, d: nat)
    ensures Saturate(Saturate(n + c) + d) == Saturate(n + c + d)
  {
  }

  function GrantOne(s: Schedule, active: PlayerId, x: GrantOf): Schedule {
    Grant(s, active, x.player, x.count, x.timing)
  }

  lemma TwoGrantsCommute(s: Schedule, active: PlayerId, x: GrantOf, y: GrantOf)
    ensures GrantOne(GrantOne(s, active, x), active, y) == GrantOne(GrantOne(s, active, y), active, x)
  {
    if x.timing == y.timing && x.player == y.player {
      var n := if x.timing == AfterCurrentTurn then s.after.Of(x.player) else s.series.Of(x.player);
      SaturatingAddsCommute(n, x.count, y.count);
      SaturatingAddsCommute(n, y.count, x.count);
    }
  }

  lemma GrantAllSteps(s: Schedule, active: PlayerId, x: GrantOf, rest: seq<GrantOf>)
    ensures GrantAll(s, active, [x] + rest) == GrantAll(GrantOne(s, active, x), active, rest)
  {
    assert ([x] + rest)[1..] == rest;
  }

  /** Moving one grant to the front changes nothing. */
  lemma {:induction false} GrantMovesToFront(s: Schedule, active: PlayerId, before: seq<GrantOf>, x: GrantOf,
                                             rest: seq<GrantOf>)
    ensures GrantAll(s, active, before + [x] + rest) == GrantAll(GrantOne(s, active, x), active, before + rest)
    decreases |before|
  {
    if before == [] {
      assert [] + [x] + rest == [x] + rest && [] + rest == rest;
      GrantAllSteps(s, active, x, rest);
    } else {
      var y, t := before[0], GrantOne(s, active, before[0]);
      assert before + [x] + rest == [y] + (before[1..] + [x] + rest);
      assert before + rest == [y] + (before[1..] + rest);
      GrantAllSteps(s, active, y, before[1..] + [x] + rest);
      GrantMovesToFront(t, active, before[1..], x, rest);
      TwoGrantsCommute(s, active, x, y);
      GrantAllSteps(GrantOne(s, active, x), active, y, before[1..] + rest);
    }
  }

  /** The schedule after the grants of one turn depends only on which grants they are, not on their order. */
  lemma {:induction false} GrantOrderIsIrrelevant(s: Schedule, active: PlayerId, xs: seq<GrantOf>, ys: seq<GrantOf>)
    requires multiset(xs) == multiset(ys)
    ensures GrantAll(s, active, xs) == GrantAll(s, active, ys)
    decreases |xs|
  {
    if xs == [] {
      assert |ys| == |multiset(ys)| == 0;
    } else {
      var x := xs[0];
      assert xs == [x] + xs[1..];
      assert x in multiset(xs);
      var before, rest := TakenOut(ys, x);
      GrantMovesToFront(s, active, before, x, rest);
      GrantAllSteps(s, active, x, xs[1..]);
      GrantOrderIsIrrelevant(GrantOne(s, active, x), active, xs[1..], before + rest);
    }
  }

  lemma TakenOut(ys: seq<GrantOf>, x: GrantOf) returns (before: seq<GrantOf>, rest: seq<GrantOf>)
    requires x in multiset(ys)
    ensures ys == before + [x] + rest && multiset(before + rest) == multiset(ys) - multiset{x}
  {
    var i :| 0 <= i < |ys| && ys[i] == x;
    before, rest := ys[..i], ys[i + 1..];
    assert ys == before + [x] + rest;
  }

  // ---------- The anchor of after-current grants ----------

  /** What the debug assertion of an after-current grant demands. */
  predicate AnchorFits(g: Play) {
    g.schedule.anchor.None? || g.schedule.anchor.value == g.current
  }

  /** Whether the next turn consumes the after-current grants, and with them their anchor. */
  predicate ClearsAnchor(s: Schedule, ending: PlayerId) {
    s.pending == [] && s.resume.None? && (s.series.Of(ending.Opponent()) > 0 || s.after.Any())
  }

  /** The turn is anchored, and what is queued lets the other player go on without consuming the grants. */
  predicate LeavesAnchor(s: Schedule, ending: PlayerId) {
    && s.anchor.Some?
    && if s.pending != [] then s.pending[0].player != ending
       else if s.resume.Some? then s.resume.value != ending
       else !ClearsAnchor(s, ending)
  }

  /** The assertion survives the end of a turn exactly when the turn does not leave its anchor behind. */
  lemma AnchorFitsUnlessLeft(g: Play)
    requires AnchorFits(g)
    ensures AnchorFits(Happen(g, TurnEnds)) <==> !LeavesAnchor(g.schedule, g.current)
  {
  }

  /**
   A grant of at least one turn is consumed when its turn ends unless turns are
   queued; then the grant outlives its turn exactly when another player is next.
   */
  lemma QueuedTurnsLeaveAnchors(g: Play, player: PlayerId, count: nat)
    requires count > 0
    ensures var s := g.schedule;
            LeavesAnchor(Grant(s, g.current, player, count, AfterCurrentTurn), g.current) <==>
            || (s.pending != [] && s.pending[0].player != g.current)
            || (s.pending == [] && s.resume.Some? && s.resume.value != g.current)
  {
  }

  /** The game before the event at k. */
  function Before(g: Play, events: seq<Event>, k: nat): Play
    requires k <= |events|
  {
    After(g, events[..k])
  }

  lemma {:induction false} AfterOneMore(g: Play, events: seq<Event>, e: Event)
    ensures After(g, events + [e]) == Happen(After(g, events), e)
    decreases |events|
  {
    if events == [] {
      assert ([] + [e])[1..] == [];
      assert After(Happen(g, e), []) == Happen(g, e);
    } else {
      assert (events + [e])[1..] == events[1..] + [e];
      AfterOneMore(Happen(g, events[0]), events[1..], e);
    }
  }

  lemma BeforeTheNext(g: Play, events: seq<Event>, k: nat)
    requires k < |events|
    ensures Before(g, events, k + 1) == Happen(Before(g, events, k), events[k])
  {
    assert events[..k + 1] == events[..k] + [events[k]];
    AfterOneMore(g, events[..k], events[k]);
  }

  predicate Leaves(g: Play, events: seq<Event>, k: nat)
    requires k < |events|
  {
    events[k].TurnEnds? && LeavesAnchor(Before(g, events, k).schedule, Before(g, events, k).current)
  }

  lemma {:induction false} NothingLeftFits(g: Play, events: seq<Event>, k: nat)
    requires AnchorFits(g) && k <= |events| && forall i :: 0 <= i < k ==> !Leaves(g, events, i)
    ensures AnchorFits(Before(g, events, k))
    decreases k
  {
    if k > 0 {
      NothingLeftFits(g, events, k - 1);
      BeforeTheNext(g, events, k - 1);
      assert !Leaves(g, events, k - 1);
      if events[k - 1].TurnEnds? { AnchorFitsUnlessLeft(Before(g, events, k - 1)); }
    } else {
      assert events[..0] == [];
    }
  }

  /** Over any run, the anchor fits throughout exactly when no turn leaves its anchor behind. */
  lemma AnchorAlwaysFitsUnlessLeft(g: Play, events: seq<Event>)
    requires AnchorFits(g)
    ensures (forall k :: 0 <= k <= |events| ==> AnchorFits(Before(g, events, k))) <==>
            (forall k :: 0 <= k < |events| ==> !Leaves(g, events, k))
  {
    if (forall k :: 0 <= k <= |events| ==> AnchorFits(Before(g, events, k))) {
      forall k | 0 <= k < |events| ensures !Leaves(g, events, k) {
        assert AnchorFits(Before(g, events, k)) && AnchorFits(Before(g, events, k + 1));
        BeforeTheNext(g, events, k);
        if events[k].TurnEnds? { AnchorFitsUnlessLeft(Before(g, events, k)); }
      }
    }
    if (forall k :: 0 <= k < |events| ==> !Leaves(g, events, k)) {
      forall k | 0 <= k <= |events| ensures AnchorFits(Before(g, events, k)) {
        NothingLeftFits(g, events, k);
      }
    }
  }

  // ---------- When the assertion holds ----------

  /** An after-current grant: it meets the assertion and sets the anchor. */
  predicate Anchors(events: seq<Event>, k: nat) {
    k < |events| && events[k].Granted? && events[k].timing == AfterCurrentTurn
  }

  ghost predicate Asserted(g: Play, events: seq<Event>) {
    forall k: nat :: Anchors(events, k) ==> AnchorFits(Before(g, events, k))
  }

  /** No turn boundary among the events lo..hi consumes after-current grants. */
  predicate NothingCleared(g: Play, events: seq<Event>, lo: nat, hi: nat)
    requires hi <= |events|
  {
    forall i :: lo <= i < hi ==>
      !(events[i].TurnEnds? && ClearsAnchor(Before(g, events, i).schedule, Before(g, events, i).current))
  }

  /** Two grants in turns of different players, the first still unconsumed at the second. */
  predicate Stale(g: Play, events: seq<Event>, j: nat, k: nat) {
    && j < k && Anchors(events, j) && Anchors(events, k) && NothingCleared(g, events, j + 1, k)
    && Before(g, events, j).current != Before(g, events, k).current
  }

  /** The same with the grant that set the anchor before the run. */
  predicate StaleFromStart(g: Play, events: seq<Event>, k: nat) {
    && g.schedule.anchor.Some? && Anchors(events, k) && NothingCleared(g, events, 0, k)
    && g.schedule.anchor.value != Before(g, events, k).current
  }

  /** While the assertion holds and nothing is consumed, the anchor stays the player it was set for. */
  lemma {:induction false} AnchorStays(g: Play, events: seq<Event>, lo: nat, hi: nat, p: PlayerId)
    requires Asserted(g, events) && lo <= hi <= |events| && NothingCleared(g, events, lo, hi)
    requires Before(g, events, lo).schedule.anchor == Some(p)
    ensures Before(g, events, hi).schedule.anchor == Some(p)
    decreases hi
  {
    if lo < hi {
      AnchorStays(g, events, lo, hi - 1, p);
      BeforeTheNext(g, events, hi - 1);
      assert Anchors(events, hi - 1) ==> AnchorFits(Before(g, events, hi - 1));
    }
  }

  /** An anchor was set by an earlier grant, or before the run, and not consumed since. */
  lemma {:induction false} AnchorWasSet(g: Play, events: seq<Event>, k: nat)
    requires k <= |events| && Before(g, events, k).schedule.anchor.Some?
    ensures var p := Before(g, events, k).schedule.anchor;
            || (g.schedule.anchor == p && NothingCleared(g, events, 0, k))
            || exists j: nat :: j < k && Anchors(events, j) && NothingCleared(g, events, j + 1, k)
                                && p == Some(Before(g, events, j).current)
    decreases k
  {
    if k > 0 {
      BeforeTheNext(g, events, k - 1);
      if !Anchors(events, k - 1) { AnchorWasSet(g, events, k - 1); }
    } else {
      assert events[..0] == [];
    }
  }

  lemma StaleGrantsAreCaught(g: Play, events: seq<Event>, j: nat, k: nat)
    requires Asserted(g, events)
    ensures !Stale(g, events, j, k) && !StaleFromStart(g, events, k)
  {
    if Stale(g, events, j, k) {
      BeforeTheNext(g, events, j);
      AnchorStays(g, events, j + 1, k, Before(g, events, j).current);
    }
    if StaleFromStart(g, events, k) {
      assert events[..0] == [];
      AnchorStays(g, events, 0, k, g.schedule.anchor.value);
    }
  }

  /**
   Over any run from any game, the assertion holds at every after-current grant
   exactly when no grant meets an unconsumed one made in the other player's turn.
   */
  lemma AssertionHoldsUnlessStale(g: Play, events: seq<Event>)
    ensures Asserted(g, events) <==>
            (forall j: nat, k: nat :: !Stale(g, events, j, k)) && (forall k: nat :: !StaleFromStart(g, events, k))
  {
    if Asserted(g, events) {
      forall j: nat, k: nat ensures !Stale(g, events, j, k) { StaleGrantsAreCaught(g, events, j, k); }
      forall k: nat ensures !StaleFromStart(g, events, k) { StaleGrantsAreCaught(g, events, 0, k); }
    } else {
      var k: nat :| Anchors(events, k) && !AnchorFits(Before(g, events, k));
      AnchorWasSet(g, events, k);
      if !StaleFromStart(g, events, k) {
        var j: nat :| j < k && Anchors(events, j) && NothingCleared(g, events, j + 1, k)
                      && Before(g, events, k).schedule.anchor == Some(Before(g, events, j).current);
        assert Stale(g, events, j, k);
      }
    }
  }

  /** It fails in a game from its start: a grant made inside an extra turn meets a grant of the next natural turn. */
  lemma AssertionDoesNotAlwaysHold()
    ensures var start := Play(EMPTY_SCHEDULE, One, One);
            var one, two := Granted(One, 1, AfterCurrentTurn), Granted(Two, 1, AfterCurrentTurn);
            Reachable(start) && !Asserted(start, [one, TurnEnds, one, TurnEnds, two])
  {
    var start := Play(EMPTY_SCHEDULE, One, One);
    var one, two := Granted(One, 1, AfterCurrentTurn), Granted(Two, 1, AfterCurrentTurn);
    var events := [one, TurnEnds, one, TurnEnds, two];
    assert Repeat(One, 1) == [Turn(One, Extra)] && Repeat(Two, 0) == [];
    assert events[..0] == [];
    BeforeTheNext(start, events, 0);
    BeforeTheNext(start, events, 1);
    assert Before(start, events, 2) == Play(Schedule([], NO_EXTRAS, NO_EXTRAS, None, Some(Two)), One, One);
    BeforeTheNext(start, events, 2);
    BeforeTheNext(start, events, 3);
    assert Before(start, events, 4).current == Two && Before(start, events, 4).schedule.anchor == Some(One);
    assert Anchors(events, 4);
  }
}
