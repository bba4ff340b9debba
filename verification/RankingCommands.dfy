/**
 Commands against a ranking (book_smartz/domain/command.rs) and the notices
 derived from an accepted event (book_smartz/domain/notice.rs).
 */
module RankingCommands {
  import opened Outcomes
  import opened RankingProjection

  datatype Command = Start(book: BookId) | Answer(opponent: BookId, choice: Choice) | Pause | Resume

  datatype Context = Context(expectedRevision: nat, eventId: EventId, time: Instant)

  datatype DomainError =
    | SequenceOverflows
    | UnknownBook
    | StaleRevision(expected: nat, actual: nat)
    | InvalidTransition(reason: Reason)

  /** The candidate and kind a command asks for, before the transition is checked. */
  function Propose(p: Projection, registry: set<BookId>, command: Command)
    : Result<(BookId, EventKind), DomainError>
  {
    match command
    case Start(book) =>
      if book !in registry then Err(UnknownBook) else Ok((book, PlacementStarted))
    case Answer(opponent, choice) =>
      if opponent !in registry then Err(UnknownBook)
      else if p.pending.None? then Err(InvalidTransition(NoActivePlacement))
      else Ok((p.pending.value.candidate, ComparisonAnswered(opponent, choice)))
    case Pause =>
      if p.pending.None? then Err(InvalidTransition(NoActivePlacement))
      else Ok((p.pending.value.candidate, PlacementPaused))
    case Resume =>
      if p.pending.None? then Err(InvalidTransition(NoActivePlacement))
      else Ok((p.pending.value.candidate, PlacementResumed))
  }

  function Decide(p: Projection, registry: set<BookId>, context: Context, command: Command)
    : Result<RankingEvent, DomainError>
    requires Valid(p)
  {
    if context.expectedRevision != p.revision then Err(StaleRevision(context.expectedRevision, p.revision))
    else if p.revision >= U64_MAX then Err(SequenceOverflows)
    else match Propose(p, registry, command)
      case Err(error) => Err(error)
      case Ok((candidate, kind)) =>
        var e := RankingEvent(Metadata(context.eventId, p.reader, p.revision + 1, context.time), candidate, kind);
        match Apply(p, e)
        case Err(error) => Err(InvalidTransition(error.reason))
        case Ok(_) => Ok(e)
  }

  /** What a reader may do next, said without mentioning events or replay. */
  predicate Legal(p: Projection, registry: set<BookId>, command: Command)
    requires Valid(p)
  {
    match command
    case Start(book) => book in registry && !Ranked(p, book) && p.pending.None?
    case Answer(opponent, _) => opponent in registry && NextOpponent(p) == Some(opponent)
    case Pause => p.pending.Some? && !p.pending.value.paused
    case Resume => p.pending.Some? && p.pending.value.paused
  }

  /** A command is accepted exactly when it is current, unrepeated and legal, and its event then applies. */
  lemma DecideAcceptsExactlyLegal(p: Projection, registry: set<BookId>, context: Context, command: Command)
    requires Valid(p)
    ensures Decide(p, registry, context, command).Ok? <==>
      && context.expectedRevision == p.revision < U64_MAX
      && context.eventId !in p.seen
      && Legal(p, registry, command)
    ensures var d := Decide(p, registry, context, command);
      d.Ok? ==>
        && Apply(p, d.value).Ok?
        && d.value.metadata == Metadata(context.eventId, p.reader, p.revision + 1, context.time)
  {
    assert command.Answer? ==> (NextOpponent(p).Some? ==> p.pending.Some? && !p.pending.value.paused);
  }

  // ---------- The ranking a caller holds ----------

  class Ranking {
    var history: seq<RankingEvent>
    var projection: Projection
    const reader: ReaderId

    /** The projection is never anything but the replay of the history. */
    ghost predicate Consistent()
      reads this
    {
      Replay(reader, history) == Ok(projection) && RankingProjection.Valid(projection)
    }

    constructor (reader: ReaderId)
      ensures Consistent() && history == [] && this.reader == reader
    {
      history, projection, this.reader := [], Empty(reader), reader;
    }

    method Execute(registry: set<BookId>, context: Context, command: Command)
      returns (r: Result<RankingEvent, DomainError>)
      requires Consistent()
      modifies `history, `projection
      ensures Consistent()
      ensures r == Decide(old(projection), registry, context, command)
      ensures r.Ok? ==> history == old(history) + [r.value] && Ok(projection) == Apply(old(projection), r.value)
      ensures r.Err? ==> history == old(history) && projection == old(projection)
    {
      r := Decide(projection, registry, context, command);
      if r.Err? { return; }
      var next := Apply(projection, r.value);
      assert next.Ok?;  // the second check can never refuse what Decide proposed
      ReplayOfConcatenation(Empty(reader), history, [r.value]);
      assert ReplayFrom(projection, [r.value]) == Ok(next.value);
      history := history + [r.value];
      projection := next.value;
    }
  }

  /** Replaying a concatenation is replaying the suffix from the state after the prefix. */
  lemma {:induction false} ReplayOfConcatenation(p: Projection, prefix: seq<RankingEvent>, suffix: seq<RankingEvent>)
    requires RankingProjection.Valid(p)
    ensures ReplayFrom(p, prefix + suffix) ==
      match ReplayFrom(p, prefix)
      case Ok(q) => ReplayFrom(q, suffix)
      case Err(error) => Err(error)
    decreases |prefix|
  {
    if prefix == [] {
      assert prefix + suffix == suffix;
    } else {
      assert (prefix + suffix)[1..] == prefix[1..] + suffix;
      var next := Apply(p, prefix[0]);
      if next.Ok? {
        ReplayOfConcatenation(next.value, prefix[1..], suffix);
      }
    }
  }

  datatype Attempt = Attempt(registry: set<BookId>, context: Context, command: Command)

  /** A ranking after any run of commands, accepted or not. */
  function RunCommands(reader: ReaderId, attempts: seq<Attempt>): (r: (seq<RankingEvent>, Projection))
    ensures RankingProjection.Valid(r.1)
  {
    if attempts == [] then ([], Empty(reader))
    else
      var last := attempts[|attempts| - 1];
      var (history, p) := RunCommands(reader, attempts[..|attempts| - 1]);
      match Decide(p, last.registry, last.context, last.command)
      case Ok(e) => (history + [e], Apply(p, e).value)
      case Err(_) => (history, p)
  }

  /** The projection is the replay of the history, one event a revision, and no event ID occurs twice. */
  lemma {:induction false} RunIsItsReplay(reader: ReaderId, attempts: seq<Attempt>)
    ensures var (history, p) := RunCommands(reader, attempts);
      && Replay(reader, history) == Ok(p)
      && p.revision == |history| <= |attempts|
      && p.seen == (set e | e in history :: e.metadata.id)
      && (forall i, j :: 0 <= i < j < |history| ==> history[i].metadata.id != history[j].metadata.id)
  {
    if attempts != [] {
      var last := attempts[|attempts| - 1];
      RunIsItsReplay(reader, attempts[..|attempts| - 1]);
      var (history, p) := RunCommands(reader, attempts[..|attempts| - 1]);
      var d := Decide(p, last.registry, last.context, last.command);
      if d.Ok? {
        ReplayOfConcatenation(Empty(reader), history, [d.value]);
        assert ReplayFrom(p, [d.value]) == Apply(p, d.value);
        forall i | 0 <= i < |history| ensures history[i].metadata.id in p.seen {
          assert history[i] in history;
        }
      }
    }
  }

  // ---------- Notices ----------

  datatype Notice =
    | BookRanked(metadata: Metadata, candidate: BookId, position: nat, entryCount: nat)
    | AutomaticallyPaused(metadata: Metadata, candidate: BookId)

  function PositionOf(entries: seq<Entry>, book: BookId): (i: nat)
    requires exists k :: 0 <= k < |entries| && entries[k].book == book
    ensures i < |entries| && entries[i].book == book
  {
    if entries[0].book == book then 0 else 1 + PositionOf(entries[1..], book)
  }

  function DeriveNotices(before: Projection, e: RankingEvent, after: Projection): seq<Notice>
    requires Valid(before) && Apply(before, e) == Ok(after)
  {
    if |after.entries| > |before.entries| then
      Grows(before, e, after);
      [BookRanked(e.metadata, e.candidate, PositionOf(after.entries, e.candidate), |after.entries|)]
    else if
      && e.kind.ComparisonAnswered?
      && before.pending.Some? && !before.pending.value.paused
      && after.pending.Some? && after.pending.value.paused
    then [AutomaticallyPaused(e.metadata, e.candidate)]
    else []
  }

  /** An accepted event leaves the entries alone or inserts its candidate at one position. */
  lemma Grows(before: Projection, e: RankingEvent, after: Projection)
    requires Valid(before) && Apply(before, e) == Ok(after)
    ensures |after.entries| > |before.entries| ==>
      exists i :: 0 <= i <= |before.entries|
        && after.entries == Insert(before.entries, i, Entry(e.candidate, e.metadata.time))
        && after.entries[i].book == e.candidate
    ensures |after.entries| <= |before.entries| ==> after.entries == before.entries
  {
    if e.kind.PlacementStarted? && before.entries == [] {
      assert after.entries == Insert(before.entries, 0, Entry(e.candidate, e.metadata.time));
    }
  }

  predicate AllSkipped(p: Projection)
    requires Valid(p) && p.pending.Some?
  {
    forall k :: p.pending.value.lo <= k < p.pending.value.hi ==> !Open(p.entries, p.pending.value.skipped, k)
  }

  /**
   One notice at most; it says "ranked" exactly when the candidate was inserted, naming where
   it now stands, and "paused" exactly when an answer left no open position in the gap.
   */
  lemma NoticesAreFaithful(before: Projection, e: RankingEvent, after: Projection)
    requires Valid(before) && Apply(before, e) == Ok(after)
    ensures var notices := DeriveNotices(before, e, after);
      && |notices| <= 1
      && (notices != [] && notices[0].BookRanked? <==> |after.entries| == |before.entries| + 1)
      && (notices != [] && notices[0].BookRanked? ==>
            var n := notices[0];
            && n.entryCount == |after.entries| && n.position < n.entryCount
            && after.entries == Insert(before.entries, n.position, Entry(e.candidate, e.metadata.time)))
      && (notices != [] && notices[0].AutomaticallyPaused? <==>
            e.kind.ComparisonAnswered? && after.pending.Some? && AllSkipped(after))
  {
    Grows(before, e, after);
    if |after.entries| > |before.entries| {
      var i :| 0 <= i <= |before.entries|
        && after.entries == Insert(before.entries, i, Entry(e.candidate, e.metadata.time))
        && after.entries[i].book == e.candidate;
      var j := PositionOf(after.entries, e.candidate);
      assert i == j;
    }
  }

  function NoticesOf(p: Projection, events: seq<RankingEvent>): seq<Notice>
    requires Valid(p) && ReplayFrom(p, events).Ok?
    decreases |events|
  {
    if events == [] then []
    else var q := Apply(p, events[0]).value; DeriveNotices(p, events[0], q) + NoticesOf(q, events[1..])
  }

  function CountRanked(notices: seq<Notice>): nat {
    if notices == [] then 0 else (if notices[0].BookRanked? then 1 else 0) + CountRanked(notices[1..])
  }

  lemma {:induction false} CountRankedOfConcatenation(a: seq<Notice>, b: seq<Notice>)
    ensures CountRanked(a + b) == CountRanked(a) + CountRanked(b)
  {
    if a == [] {
      assert a + b == b;
    } else {
      assert (a + b)[1..] == a[1..] + b;
      CountRankedOfConcatenation(a[1..], b);
    }
  }

  /** Over a whole run, the "ranked" notices number exactly the entries gained. */
  lemma {:induction false} RankedNoticesCountEntries(p: Projection, events: seq<RankingEvent>)
    requires Valid(p) && ReplayFrom(p, events).Ok?
    ensures |p.entries| + CountRanked(NoticesOf(p, events)) == |ReplayFrom(p, events).value.entries|
    decreases |events|
  {
    if events != [] {
      var q := Apply(p, events[0]).value;
      NoticesAreFaithful(p, events[0], q);
      Grows(p, events[0], q);
      CountRankedOfConcatenation(DeriveNotices(p, events[0], q), NoticesOf(q, events[1..]));
      RankedNoticesCountEntries(q, events[1..]);
    }
  }
}
