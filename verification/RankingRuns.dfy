/**
 What the ranking means over whole histories: answers are never forgotten,
 a consistent reader gets a sorted list, and placement takes few answers.
 */
module RankingRuns {
  import opened Outcomes
  import opened RankingProjection

  // ---------- Consistent answers sort the list ----------

  ghost predicate StrictTotalOrder(before: (BookId, BookId) -> bool) {
    && (forall x :: !before(x, x))
    && (forall x, y :: x != y ==> before(x, y) || before(y, x))
    && (forall x, y, z :: before(x, y) && before(y, z) ==> before(x, z))
  }

  /** The answer, unless a skip, says what the reader's fixed order says. */
  ghost predicate Truthful(e: RankingEvent, before: (BookId, BookId) -> bool) {
    match e.kind
    case ComparisonAnswered(opponent, PreferCandidate) => before(e.candidate, opponent)
    case ComparisonAnswered(opponent, PreferOpponent) => before(opponent, e.candidate)
    case _ => true
  }

  /** Entries are in order and a pending candidate belongs somewhere in lo..hi. */
  ghost predicate SortedBy(p: Projection, before: (BookId, BookId) -> bool) {
    && InOrder(p.entries, before)
    && (p.pending.Some? ==>
          FitsBetween(p.entries, p.pending.value.lo, p.pending.value.hi, p.pending.value.candidate, before))
  }

  /** What an accepted answer does: it narrows the gap and places the candidate if that closed it. */
  lemma AnswerShape(p: Projection, e: RankingEvent, q: Projection) returns (j: nat, t: Session)
    requires Valid(p) && Apply(p, e) == Ok(q) && e.kind.ComparisonAnswered?
    ensures p.pending.Some? && p.pending.value.lo <= j < p.pending.value.hi <= |p.entries|
    ensures p.pending.value.candidate == e.candidate && p.entries[j].book == e.kind.opponent
    ensures t == Narrow(p.entries, p.pending.value, j, e.kind.choice, e.metadata.time) && t.lo <= t.hi
    ensures t.lo == t.hi ==>
      q.pending.None? && q.entries == Insert(p.entries, t.lo, Entry(e.candidate, e.metadata.time))
    ensures t.lo < t.hi ==> q.entries == p.entries && q.pending.Some? && q.pending.value.(paused := t.paused) == t
  {
    j := NextPosition(p).value;
    t := Narrow(p.entries, p.pending.value, j, e.kind.choice, e.metadata.time);
  }

  /** Any other accepted event keeps the entries and the gap, or starts a placement. */
  lemma OtherShape(p: Projection, e: RankingEvent, q: Projection)
    requires Valid(p) && Apply(p, e) == Ok(q) && !e.kind.ComparisonAnswered?
    ensures e.kind.PlacementStarted? && p.entries == [] ==>
      q.pending.None? && p.pending.None? && q.entries == [Entry(e.candidate, e.metadata.time)]
    ensures e.kind.PlacementStarted? && p.entries != [] ==>
      && q.entries == p.entries && q.pending.Some? && p.pending.None? && !Ranked(p, e.candidate)
      && q.pending.value.candidate == e.candidate && q.pending.value.lo == 0 && q.pending.value.hi == |p.entries|
    ensures !e.kind.PlacementStarted? ==>
      && q.entries == p.entries && q.pending.Some? && p.pending.Some?
      && q.pending.value.candidate == p.pending.value.candidate
      && q.pending.value.lo == p.pending.value.lo && q.pending.value.hi == p.pending.value.hi
  {
  }

  lemma TruthfulStepKeepsSorted(p: Projection, e: RankingEvent, before: (BookId, BookId) -> bool)
    requires Valid(p) && StrictTotalOrder(before) && SortedBy(p, before)
    requires Truthful(e, before) && Apply(p, e).Ok?
    ensures SortedBy(Apply(p, e).value, before)
  {
    var q := Apply(p, e).value;
    if e.kind.ComparisonAnswered? {
      var j, t := AnswerShape(p, e, q);
      AnswerNarrowsSoundly(p.entries, p.pending.value, t, j, e.kind.choice, before);
      if t.lo == t.hi { InsertKeepsSorted(p.entries, t.lo, Entry(e.candidate, e.metadata.time), before); }
    } else {
      OtherShape(p, e, q);
    }
  }

  ghost predicate InOrder(entries: seq<Entry>, before: (BookId, BookId) -> bool) {
    forall i, j :: 0 <= i < j < |entries| ==> before(entries[i].book, entries[j].book)
  }

  ghost predicate FitsBetween(entries: seq<Entry>, lo: nat, hi: nat, b: BookId, before: (BookId, BookId) -> bool) {
    && (forall k :: 0 <= k < lo && k < |entries| ==> before(entries[k].book, b))
    && (forall k :: hi <= k < |entries| ==> before(b, entries[k].book))
  }

  lemma AnswerNarrowsSoundly(
    entries: seq<Entry>, s: Session, t: Session, j: nat, choice: Choice, before: (BookId, BookId) -> bool)
    requires StrictTotalOrder(before) && InOrder(entries, before)
    requires s.lo <= j < s.hi <= |entries| && t == Narrow(entries, s, j, choice, t.lastActivityAt)
    requires FitsBetween(entries, s.lo, s.hi, s.candidate, before)
    requires choice.PreferCandidate? ==> before(s.candidate, entries[j].book)
    requires choice.PreferOpponent? ==> before(entries[j].book, s.candidate)
    ensures FitsBetween(entries, t.lo, t.hi, s.candidate, before)
  {
    forall k | 0 <= k < t.lo ensures before(entries[k].book, s.candidate) {
      if s.lo <= k < j { assert before(entries[k].book, entries[j].book); }
    }
    forall k | t.hi <= k < |entries| ensures before(s.candidate, entries[k].book) {
      if j < k < s.hi { assert before(entries[j].book, entries[k].book); }
    }
  }

  lemma InsertKeepsSorted(entries: seq<Entry>, i: nat, e: Entry, before: (BookId, BookId) -> bool)
    requires InOrder(entries, before) && i <= |entries| && FitsBetween(entries, i, i, e.book, before)
    ensures InOrder(Insert(entries, i, e), before)
  {
    var r := Insert(entries, i, e);
    forall m, n | 0 <= m < n < |r| ensures before(r[m].book, r[n].book) {
      if m != i && n != i {
        var m', n' := if m < i then m else m - 1, if n < i then n else n - 1;
        assert r[m] == entries[m'] && r[n] == entries[n'];
      }
    }
  }

  lemma {:induction false} TruthfulHistoriesSort(
    p: Projection, events: seq<RankingEvent>, before: (BookId, BookId) -> bool)
    requires Valid(p) && StrictTotalOrder(before) && SortedBy(p, before)
    requires forall e :: e in events ==> Truthful(e, before)
    requires ReplayFrom(p, events).Ok?
    ensures SortedBy(ReplayFrom(p, events).value, before)
    decreases |events|
  {
    if events != [] {
      TruthfulStepKeepsSorted(p, events[0], before);
      TruthfulHistoriesSort(Apply(p, events[0]).value, events[1..], before);
    }
  }

  /** Whatever skips, pauses and resumes occur, truthful answers leave the list sorted. */
  lemma TruthfulReadersGetSortedLists(
    reader: ReaderId, events: seq<RankingEvent>, before: (BookId, BookId) -> bool)
    requires StrictTotalOrder(before)
    requires forall e :: e in events ==> Truthful(e, before)
    requires Replay(reader, events).Ok?
    ensures SortedBy(Replay(reader, events).value, before)
  {
    TruthfulHistoriesSort(Empty(reader), events, before);
  }

  // ---------- Every answer is respected for ever ----------

  /** The pairs (preferred, other) that a history records. */
  ghost function Preferences(events: seq<RankingEvent>): set<(BookId, BookId)> {
    if events == [] then {}
    else Preferences(events[..|events| - 1]) + PreferenceOf(events[|events| - 1])
  }

  function PreferenceOf(e: RankingEvent): set<(BookId, BookId)> {
    match e.kind
    case ComparisonAnswered(opponent, PreferCandidate) => {(e.candidate, opponent)}
    case ComparisonAnswered(opponent, PreferOpponent) => {(opponent, e.candidate)}
    case _ => {}
  }

  predicate Known(p: Projection, b: BookId) {
    Ranked(p, b) || (p.pending.Some? && p.pending.value.candidate == b)
  }

  ghost predicate StandsBefore(entries: seq<Entry>, x: BookId, y: BookId) {
    forall i, j ::
      0 <= i < |entries| && 0 <= j < |entries| && entries[i].book == x && entries[j].book == y ==> i < j
  }

  ghost predicate AllFrom(entries: seq<Entry>, i: nat, b: BookId) {
    forall k :: 0 <= k < |entries| && entries[k].book == b ==> i <= k
  }

  ghost predicate AllBelow(entries: seq<Entry>, i: nat, b: BookId) {
    forall k :: 0 <= k < |entries| && entries[k].book == b ==> k < i
  }

  /** In the entries the preferred book stands first; a pending book's gap allows no other place. */
  ghost predicate Respects(p: Projection, x: BookId, y: BookId) {
    && Known(p, x) && Known(p, y) && x != y
    && StandsBefore(p.entries, x, y)
    && (p.pending.Some? && p.pending.value.candidate == x ==> AllFrom(p.entries, p.pending.value.hi, y))
    && (p.pending.Some? && p.pending.value.candidate == y ==> AllBelow(p.entries, p.pending.value.lo, x))
  }

  lemma InsertKeepsBooks(entries: seq<Entry>, i: nat, e: Entry, b: BookId)
    requires i <= |entries|
    ensures forall k :: 0 <= k < |entries| ==> entries[k] in Insert(entries, i, e)
    ensures e in Insert(entries, i, e)
  {
    var r := Insert(entries, i, e);
    assert r[i] == e;
    forall k | 0 <= k < |entries| ensures entries[k] in r {
      assert r[if k < i then k else k + 1] == entries[k];
    }
  }

  lemma KnownBooksStayKnown(p: Projection, e: RankingEvent, q: Projection, b: BookId)
    requires Valid(p) && Apply(p, e) == Ok(q) && Known(p, b)
    ensures Known(q, b)
  {
    if e.kind.ComparisonAnswered? {
      var j, t := AnswerShape(p, e, q);
      InsertKeepsBooks(p.entries, t.lo, Entry(e.candidate, e.metadata.time), b);
    } else {
      OtherShape(p, e, q);
    }
  }

  lemma InsertKeepsStandsBefore(entries: seq<Entry>, i: nat, e: Entry, x: BookId, y: BookId)
    requires i <= |entries| && x != y && StandsBefore(entries, x, y)
    requires e.book == x ==> AllFrom(entries, i, y)
    requires e.book == y ==> AllBelow(entries, i, x)
    ensures StandsBefore(Insert(entries, i, e), x, y)
  {
    var r := Insert(entries, i, e);
    forall m, n | 0 <= m < |r| && 0 <= n < |r| && r[m].book == x && r[n].book == y ensures m < n {
      var m', n' := if m < i then m else m - 1, if n < i then n else n - 1;
      assert m != i ==> r[m] == entries[m'];
      assert n != i ==> r[n] == entries[n'];
    }
  }

  lemma RespectedThroughAnAnswer(p: Projection, e: RankingEvent, q: Projection, x: BookId, y: BookId)
    requires Valid(p) && Apply(p, e) == Ok(q) && Respects(p, x, y) && e.kind.ComparisonAnswered?
    ensures StandsBefore(q.entries, x, y)
    ensures q.pending.Some? && q.pending.value.candidate == x ==> AllFrom(q.entries, q.pending.value.hi, y)
    ensures q.pending.Some? && q.pending.value.candidate == y ==> AllBelow(q.entries, q.pending.value.lo, x)
  {
    var j, t := AnswerShape(p, e, q);
    if t.lo == t.hi { InsertKeepsStandsBefore(p.entries, t.lo, Entry(e.candidate, e.metadata.time), x, y); }
  }

  lemma RespectedPairStays(p: Projection, e: RankingEvent, q: Projection, x: BookId, y: BookId)
    requires Valid(p) && Apply(p, e) == Ok(q) && Respects(p, x, y)
    ensures Respects(q, x, y)
  {
    KnownBooksStayKnown(p, e, q, x);
    KnownBooksStayKnown(p, e, q, y);
    if e.kind.ComparisonAnswered? {
      RespectedThroughAnAnswer(p, e, q, x, y);
    } else {
      OtherShape(p, e, q);
    }
  }

  lemma NewAnswerIsRespected(p: Projection, e: RankingEvent, q: Projection, x: BookId, y: BookId)
    requires Valid(p) && Apply(p, e) == Ok(q) && (x, y) in PreferenceOf(e)
    ensures Respects(q, x, y)
  {
    var j, t := AnswerShape(p, e, q);
    assert Ranked(p, e.kind.opponent) && Known(p, e.candidate);
    KnownBooksStayKnown(p, e, q, x);
    KnownBooksStayKnown(p, e, q, y);
    if t.lo == t.hi { InsertKeepsStandsBefore(p.entries, t.lo, Entry(e.candidate, e.metadata.time), x, y); }
  }

  /** No oracle needed: every recorded preference is respected in every later state. */
  lemma {:induction false} EveryAnswerIsRespected(reader: ReaderId, events: seq<RankingEvent>)
    requires Replay(reader, events).Ok?
    ensures forall x, y :: (x, y) in Preferences(events) ==> Respects(Replay(reader, events).value, x, y)
    decreases |events|
  {
    if events != [] {
      var front, last := events[..|events| - 1], events[|events| - 1];
      var p, q := SplitLast(reader, events);
      EveryAnswerIsRespected(reader, front);
      forall x, y | (x, y) in Preferences(events) ensures Respects(q, x, y) {
        if (x, y) in Preferences(front) {
          RespectedPairStays(p, last, q, x, y);
        } else {
          NewAnswerIsRespected(p, last, q, x, y);
        }
      }
    }
  }

  lemma SplitLast(reader: ReaderId, events: seq<RankingEvent>) returns (p: Projection, q: Projection)
    requires events != [] && Replay(reader, events).Ok?
    ensures Replay(reader, events[..|events| - 1]) == Ok(p) && Replay(reader, events) == Ok(q)
    ensures Valid(p) && Apply(p, events[|events| - 1]) == Ok(q)
  {
    var front, last := events[..|events| - 1], events[|events| - 1];
    ReplayOfSnoc(Empty(reader), front, last);
    assert events == front + [last];
    p, q := Replay(reader, front).value, Replay(reader, events).value;
  }

  lemma {:induction false} ReplayOfSnoc(p: Projection, front: seq<RankingEvent>, last: RankingEvent)
    requires Valid(p)
    ensures ReplayFrom(p, front + [last]) ==
      match ReplayFrom(p, front)
      case Ok(q) => Apply(q, last)
      case Err(error) => Err(error)
    decreases |front|
  {
    if front == [] {
      assert (front + [last])[1..] == [];
    } else {
      assert (front + [last])[1..] == front[1..] + [last];
      if Apply(p, front[0]).Ok? { ReplayOfSnoc(Apply(p, front[0]).value, front[1..], last); }
    }
  }

  /** Entries of p appear in q, unaltered and in the same relative order. */
  ghost predicate KeepsOrder(p: seq<Entry>, q: seq<Entry>) {
    && (forall i :: 0 <= i < |p| ==> p[i] in q)
    && (forall i, j :: 0 <= i < j < |p| ==> StandsBefore(q, p[i].book, p[j].book))
  }

  lemma {:induction false} RankedBooksNeverSwap(p: Projection, events: seq<RankingEvent>)
    requires Valid(p) && ReplayFrom(p, events).Ok?
    ensures KeepsOrder(p.entries, ReplayFrom(p, events).value.entries)
    decreases |events|
  {
    if events != [] {
      var q := Apply(p, events[0]).value;
      RankedBooksNeverSwap(q, events[1..]);
      OneEventKeepsOrder(p, events[0], q);
      KeepsOrderIsTransitive(p.entries, q.entries, ReplayFrom(p, events).value.entries);
    }
  }

  lemma OneEventKeepsOrder(p: Projection, e: RankingEvent, q: Projection)
    requires Valid(p) && Apply(p, e) == Ok(q)
    ensures KeepsOrder(p.entries, q.entries)
  {
    var entry := Entry(e.candidate, e.metadata.time);
    forall i, j | 0 <= i < j < |p.entries| ensures StandsBefore(q.entries, p.entries[i].book, p.entries[j].book) {
      if e.kind.ComparisonAnswered? {
        var k, t := AnswerShape(p, e, q);
        if t.lo == t.hi { InsertKeepsStandsBefore(p.entries, t.lo, entry, p.entries[i].book, p.entries[j].book); }
      } else {
        OtherShape(p, e, q);
      }
    }
    if e.kind.ComparisonAnswered? {
      var k, t := AnswerShape(p, e, q);
      InsertKeepsBooks(p.entries, t.lo, entry, e.candidate);
    } else {
      OtherShape(p, e, q);
    }
  }

  lemma KeepsOrderIsTransitive(p: seq<Entry>, q: seq<Entry>, r: seq<Entry>)
    requires KeepsOrder(p, q) && KeepsOrder(q, r) && Distinct(p)
    ensures KeepsOrder(p, r)
  {
    forall i, j | 0 <= i < j < |p| ensures StandsBefore(r, p[i].book, p[j].book) {
      var a :| 0 <= a < |q| && q[a] == p[i];
      var b :| 0 <= b < |q| && q[b] == p[j];
      assert a < b;
    }
  }

  // ---------- How many answers placement takes ----------

  /** How many positions of lo..hi may still be offered. */
  function CountOpen(entries: seq<Entry>, skipped: set<BookId>, lo: nat, hi: nat): (n: nat)
    requires lo <= hi <= |entries|
    ensures n <= hi - lo
    decreases hi - lo
  {
    if lo == hi then 0 else (if Open(entries, skipped, lo) then 1 else 0) + CountOpen(entries, skipped, lo + 1, hi)
  }

  lemma {:induction false} CountOpenSplits(entries: seq<Entry>, skipped: set<BookId>, lo: nat, mid: nat, hi: nat)
    requires lo <= mid <= hi <= |entries|
    ensures CountOpen(entries, skipped, lo, hi)
      == CountOpen(entries, skipped, lo, mid) + CountOpen(entries, skipped, mid, hi)
    decreases mid - lo
  {
    if lo < mid { CountOpenSplits(entries, skipped, lo + 1, mid, hi); }
  }

  lemma {:induction false} SkippingClosesOne(entries: seq<Entry>, skipped: set<BookId>, b: BookId, lo: nat, hi: nat)
    requires lo <= hi <= |entries|
    ensures CountOpen(entries, skipped + {b}, lo, hi) <= CountOpen(entries, skipped, lo, hi)
    decreases hi - lo
  {
    if lo < hi { SkippingClosesOne(entries, skipped, b, lo + 1, hi); }
  }

  /** The positions that the session can still offer. */
  function Remaining(p: Projection): nat
    requires Valid(p)
  {
    if p.pending.None? then 0
    else var s := p.pending.value; CountOpen(p.entries, s.skipped, s.lo, s.hi)
  }

  lemma SkipShrinks(entries: seq<Entry>, skipped: set<BookId>, lo: nat, j: nat, hi: nat)
    requires lo <= j < hi <= |entries| && Open(entries, skipped, j)
    ensures CountOpen(entries, skipped + {entries[j].book}, lo, hi) < CountOpen(entries, skipped, lo, hi)
  {
    var t := skipped + {entries[j].book};
    CountOpenSplits(entries, skipped, lo, j, hi);
    CountOpenSplits(entries, t, lo, j, hi);
    SkippingClosesOne(entries, skipped, entries[j].book, lo, j);
    SkippingClosesOne(entries, skipped, entries[j].book, j + 1, hi);
  }

  lemma ChoiceShrinks(entries: seq<Entry>, skipped: set<BookId>, lo: nat, j: nat, hi: nat)
    requires lo <= j < hi <= |entries| && Open(entries, skipped, j)
    ensures CountOpen(entries, skipped, lo, j) < CountOpen(entries, skipped, lo, hi)
    ensures CountOpen(entries, skipped, j + 1, hi) < CountOpen(entries, skipped, lo, hi)
  {
    CountOpenSplits(entries, skipped, lo, j, hi);
  }

  lemma EveryAnswerShrinksTheChoice(p: Projection, e: RankingEvent, q: Projection)
    requires Valid(p) && Apply(p, e) == Ok(q) && e.kind.ComparisonAnswered?
    ensures Remaining(q) < Remaining(p)
  {
    var s, j := p.pending.value, NextPosition(p).value;
    var _, t := AnswerShape(p, e, q);
    SkipShrinks(p.entries, s.skipped, s.lo, j, s.hi);
    ChoiceShrinks(p.entries, s.skipped, s.lo, j, s.hi);
  }

  function CountAnswers(events: seq<RankingEvent>): nat {
    if events == [] then 0 else (if events[0].kind.ComparisonAnswered? then 1 else 0) + CountAnswers(events[1..])
  }

  /** Between resumes a placement takes no more answers than it has positions left to offer. */
  lemma {:induction false} FewAnswersBetweenResumes(p: Projection, events: seq<RankingEvent>)
    requires Valid(p) && ReplayFrom(p, events).Ok?
    requires forall e :: e in events ==> e.kind.ComparisonAnswered? || e.kind.PlacementPaused?
    ensures CountAnswers(events) <= Remaining(p) <= |p.entries|
    decreases |events|
  {
    if events != [] {
      var q := Apply(p, events[0]).value;
      FewAnswersBetweenResumes(q, events[1..]);
      if events[0].kind.ComparisonAnswered? { EveryAnswerShrinksTheChoice(p, events[0], q); }
    }
  }

  /** Doubling x k times: 2 to the k, times x. */
  function Doubled(x: nat, k: nat): nat {
    if k == 0 then x else 2 * Doubled(x, k - 1)
  }

  function Gap(p: Projection): nat
    requires Valid(p)
  {
    if p.pending.None? then 0 else p.pending.value.hi - p.pending.value.lo
  }

  ghost predicate NothingSkipped(p: Projection) {
    p.pending.Some? ==> p.pending.value.skipped == {}
  }

  /** Without skips the middle of the gap is offered, so an answer at least halves it. */
  lemma AnswerHalvesTheGap(p: Projection, e: RankingEvent, q: Projection)
    requires Valid(p) && Apply(p, e) == Ok(q) && NothingSkipped(p)
    requires e.kind.ComparisonAnswered? && !e.kind.choice.Skip?
    ensures 2 * Gap(q) <= Gap(p) && NothingSkipped(q)
  {
    var s := p.pending.value;
    assert Open(p.entries, s.skipped, Midpoint(s));
    assert NextPosition(p) == Some(Midpoint(s));
  }

  /** A step without a start or a skip: an answer halves the gap, anything else keeps it. */
  lemma GapAfterOneEvent(p: Projection, e: RankingEvent, q: Projection)
    requires Valid(p) && p.pending.Some? && NothingSkipped(p) && Apply(p, e) == Ok(q)
    requires !e.kind.PlacementStarted? && !IsSkip(e)
    ensures NothingSkipped(q) && Valid(q) && Gap(p) >= 1
    ensures q.pending.None? ==> e.kind.ComparisonAnswered?
    ensures if e.kind.ComparisonAnswered? then 2 * Gap(q) <= Gap(p) else Gap(q) == Gap(p)
  {
    if e.kind.ComparisonAnswered? { AnswerHalvesTheGap(p, e, q); } else { OtherShape(p, e, q); }
  }

  predicate NoStartNoSkip(events: seq<RankingEvent>) {
    events == [] || (!events[0].kind.PlacementStarted? && !IsSkip(events[0]) && NoStartNoSkip(events[1..]))
  }

  /**
   k answers fit a gap g only if the gap left, doubled k times, is at most g; a
   finished placement has 2^(k-1) <= g.
   */
  lemma {:induction false} BinarySearchBound(p: Projection, events: seq<RankingEvent>)
    requires Valid(p) && p.pending.Some? && NothingSkipped(p) && ReplayFrom(p, events).Ok? && NoStartNoSkip(events)
    ensures Fits(CountAnswers(events), Gap(ReplayFrom(p, events).value), Gap(p))
    decreases |events|
  {
    if events != [] {
      var q := Apply(p, events[0]).value;
      if q.pending.Some? {
        GapAfterOneEvent(p, events[0], q);
        BinarySearchBound(q, events[1..]);
        FitsNext(events[0].kind.ComparisonAnswered?, CountAnswers(events[1..]), Gap(ReplayFrom(q, events[1..]).value),
                 Gap(q), Gap(p));
      } else {
        PlacedByTheAnswer(p, events);
      }
    }
  }

  lemma FitsNext(answered: bool, k: nat, left: nat, next: nat, g: nat)
    requires Fits(k, left, next) && if answered then 2 * next <= g else next == g
    ensures Fits(if answered then 1 + k else k, left, g)
  {
    if answered { FitsOneMore(k, left, next, g); }
  }

  /** The answer that places the candidate is the last event. */
  lemma PlacedByTheAnswer(p: Projection, events: seq<RankingEvent>)
    requires Valid(p) && p.pending.Some? && events != [] && ReplayFrom(p, events).Ok?
    requires NoStartNoSkip(events)
    requires Apply(p, events[0]).Ok? && Apply(p, events[0]).value.pending.None?
    ensures CountAnswers(events) == 1 && Gap(ReplayFrom(p, events).value) == 0 && Gap(p) >= 1
  {
    var q := Apply(p, events[0]).value;
    if events[1..] != [] {
      OnlyAStartFollowsPlacement(q, events[1..]);
    }
    assert events[1..] == [];
  }

  predicate IsSkip(e: RankingEvent) {
    e.kind.ComparisonAnswered? && e.kind.choice.Skip?
  }

  /** k halvings lead from gap g to what is left of it, zero standing for a finished placement. */
  predicate Fits(k: nat, left: nat, g: nat) {
    if left > 0 then Doubled(left, k) <= g else k > 0 && Doubled(1, k - 1) <= g
  }

  lemma FitsOneMore(k: nat, left: nat, half: nat, g: nat)
    requires Fits(k, left, half) && 2 * half <= g
    ensures Fits(k + 1, left, g)
  {
  }

  lemma OnlyAStartFollowsPlacement(p: Projection, events: seq<RankingEvent>)
    requires Valid(p) && p.pending.None? && events != [] && !events[0].kind.PlacementStarted?
    ensures ReplayFrom(p, events).Err?
  {
  }

  /** Placing a book among n others without skips takes at most floor(log2 n) + 1 answers. */
  lemma PlacementIsLogarithmic(p: Projection, start: RankingEvent, q: Projection, events: seq<RankingEvent>)
    requires Valid(p) && p.entries != [] && start.kind.PlacementStarted? && Apply(p, start) == Ok(q)
    requires ReplayFrom(q, events).Ok? && NoStartNoSkip(events)
    ensures CountAnswers(events) > 0 ==> Doubled(1, CountAnswers(events) - 1) <= |p.entries|
  {
    StartOpensTheWholeGap(p, start, q);
    PlacedWithin(q, events);
  }

  lemma PlacedWithin(q: Projection, events: seq<RankingEvent>)
    requires Valid(q) && q.pending.Some? && NothingSkipped(q) && ReplayFrom(q, events).Ok? && NoStartNoSkip(events)
    ensures CountAnswers(events) > 0 ==> Doubled(1, CountAnswers(events) - 1) <= Gap(q)
  {
    BinarySearchBound(q, events);
    if CountAnswers(events) > 0 { AtMostLogarithmic(CountAnswers(events), Gap(ReplayFrom(q, events).value), Gap(q)); }
  }

  lemma StartOpensTheWholeGap(p: Projection, start: RankingEvent, q: Projection)
    requires Valid(p) && p.entries != [] && start.kind.PlacementStarted? && Apply(p, start) == Ok(q)
    ensures Valid(q) && q.pending.Some? && NothingSkipped(q) && Gap(q) == |p.entries|
  {
  }

  lemma AtMostLogarithmic(k: nat, left: nat, n: nat)
    requires Fits(k, left, n) && k > 0
    ensures Doubled(1, k - 1) <= n
  {
    if left > 0 { DoublingGrows(left, k); }
  }

  lemma {:induction false} DoublingGrows(x: nat, k: nat)
    requires x > 0
    ensures Doubled(x, k) >= Doubled(1, k) && (k > 0 ==> Doubled(x, k) >= Doubled(1, k - 1))
    decreases k
  {
    if k > 0 { DoublingGrows(x, k - 1); }
  }
}
