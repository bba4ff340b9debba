/**
 The reader's ranking as a function of its event history
 (book_smartz/domain/projection.rs): binary insertion driven by answers,
 with skips, automatic and explicit pauses, resumes and strict replay.
 UUIDs and instants matter only up to equality, so they are numbers here.
 */
module RankingProjection {
  import opened Outcomes

  type BookId = nat
  type EventId = nat
  type ReaderId = nat
  type Instant = int

  datatype Choice = PreferCandidate | PreferOpponent | Skip

  datatype EventKind =
    | PlacementStarted
    | ComparisonAnswered(opponent: BookId, choice: Choice)
    | PlacementPaused
    | PlacementResumed

  datatype Metadata = Metadata(id: EventId, reader: ReaderId, sequence: nat, time: Instant)

  datatype RankingEvent = RankingEvent(metadata: Metadata, candidate: BookId, kind: EventKind)

  datatype Reason =
    | SequenceMismatch(expected: nat)
    | SequenceOverflow
    | DuplicateEventId
    | WrongReader
    | DuplicateBook
    | PendingPlacement
    | NoActivePlacement
    | WrongCandidate
    | WrongOpponent
    | Paused
    | NotPaused

  datatype ReplayError = ReplayError(attemptedSequence: nat, reason: Reason)

  datatype Entry = Entry(book: BookId, addedAt: Instant)

  datatype Session = Session(
    candidate: BookId, lo: nat, hi: nat, skipped: set<BookId>, paused: bool,
    startedAt: Instant, lastActivityAt: Instant)

  datatype Projection = Projection(
    reader: ReaderId, revision: nat, entries: seq<Entry>, pending: Option<Session>, seen: set<EventId>)

  // ---------- The opponent offered next ----------

  function Distance(a: nat, b: nat): nat {
    if a < b then b - a else a - b
  }

  /** The order of the keys (|j - mid|, j). */
  predicate NoFurther(j: nat, k: nat, mid: nat) {
    Distance(j, mid) < Distance(k, mid) || (Distance(j, mid) == Distance(k, mid) && j <= k)
  }

  predicate Open(entries: seq<Entry>, skipped: set<BookId>, k: nat)
    requires k < |entries|
  {
    entries[k].book !in skipped
  }

  /** The open position of j..hi closest to mid; the left one on a tie. */
  function Nearest(entries: seq<Entry>, skipped: set<BookId>, mid: nat, j: nat, hi: nat): (r: Option<nat>)
    requires j <= hi <= |entries|
    ensures r.None? ==> forall k :: j <= k < hi ==> !Open(entries, skipped, k)
    ensures r.Some? ==> j <= r.value < hi && Open(entries, skipped, r.value)
    ensures r.Some? ==> forall k :: j <= k < hi && Open(entries, skipped, k) ==> NoFurther(r.value, k, mid)
    decreases hi - j
  {
    if j == hi then None
    else
      var rest := Nearest(entries, skipped, mid, j + 1, hi);
      if !Open(entries, skipped, j) then rest
      else if rest.None? || NoFurther(j, rest.value, mid) then Some(j)
      else rest
  }

  /** What every reachable session satisfies; `lo < hi` keeps the midpoint from underflowing. */
  ghost predicate ValidSession(entries: seq<Entry>, s: Session) {
    && s.lo < s.hi <= |entries|
    && (forall k :: 0 <= k < |entries| ==> entries[k].book != s.candidate)
    && (!s.paused ==> exists k :: s.lo <= k < s.hi && Open(entries, s.skipped, k))
  }

  ghost predicate Distinct(entries: seq<Entry>) {
    forall i, j :: 0 <= i < j < |entries| ==> entries[i].book != entries[j].book
  }

  ghost predicate Valid(p: Projection) {
    && Distinct(p.entries)
    && (p.pending.Some? ==> ValidSession(p.entries, p.pending.value))
  }

  function Midpoint(s: Session): nat
    requires s.lo < s.hi
  {
    s.lo + (s.hi - s.lo - 1) / 2
  }

  function NextPosition(p: Projection): (r: Option<nat>)
    requires Valid(p)
    ensures r.Some? <==> p.pending.Some? && !p.pending.value.paused
    ensures r.Some? ==>
      && p.pending.value.lo <= r.value < p.pending.value.hi
      && Open(p.entries, p.pending.value.skipped, r.value)
  {
    if p.pending.None? || p.pending.value.paused then None
    else var s := p.pending.value; Nearest(p.entries, s.skipped, Midpoint(s), s.lo, s.hi)
  }

  function NextOpponent(p: Projection): (r: Option<BookId>)
    requires Valid(p)
    ensures r.Some? ==> exists k :: 0 <= k < |p.entries| && p.entries[k].book == r.value
  {
    match NextPosition(p)
    case None => None
    case Some(j) => Some(p.entries[j].book)
  }

  // ---------- One event ----------

  function Insert(entries: seq<Entry>, i: nat, e: Entry): (r: seq<Entry>)
    requires i <= |entries|
    ensures |r| == |entries| + 1 && r[i] == e
    ensures forall k :: 0 <= k < i ==> r[k] == entries[k]
    ensures forall k :: i < k <= |entries| ==> r[k] == entries[k - 1]
  {
    entries[..i] + [e] + entries[i..]
  }

  predicate Ranked(p: Projection, b: BookId) {
    exists k :: 0 <= k < |p.entries| && p.entries[k].book == b
  }

  /** The session once the opponent at position j has been answered. */
  function Narrow(entries: seq<Entry>, s: Session, j: nat, choice: Choice, time: Instant): Session
    requires s.lo <= j < s.hi <= |entries|
  {
    match choice
    case PreferCandidate => s.(hi := j, lastActivityAt := time)
    case PreferOpponent => s.(lo := j + 1, lastActivityAt := time)
    case Skip => s.(skipped := s.skipped + {entries[j].book}, lastActivityAt := time)
  }

  /** An emptied gap places the candidate; a gap with nothing left to offer pauses. */
  function Settle(p: Projection, s: Session, time: Instant): Projection
    requires s.lo <= s.hi <= |p.entries|
  {
    if s.lo == s.hi then
      p.(entries := Insert(p.entries, s.lo, Entry(s.candidate, time)), pending := None)
    else if !s.paused && Nearest(p.entries, s.skipped, Midpoint(s), s.lo, s.hi).None? then
      p.(pending := Some(s.(paused := true)))
    else
      p.(pending := Some(s))
  }

  lemma SettleKeepsValid(p: Projection, s: Session, time: Instant)
    requires Distinct(p.entries) && s.lo <= s.hi <= |p.entries|
    requires forall k :: 0 <= k < |p.entries| ==> p.entries[k].book != s.candidate
    ensures Valid(Settle(p, s, time))
  {
    if s.lo == s.hi {
      var r := Insert(p.entries, s.lo, Entry(s.candidate, time));
      forall i, j | 0 <= i < j < |r| ensures r[i].book != r[j].book {
        assert i != s.lo ==> r[i] == p.entries[if i < s.lo then i else i - 1];
        assert j != s.lo ==> r[j] == p.entries[if j < s.lo then j else j - 1];
      }
    }
  }

  function ApplyKind(p: Projection, e: RankingEvent): (r: Result<Projection, Reason>)
    requires Valid(p)
    ensures r.Ok? ==> Valid(r.value)
  {
    match e.kind
    case PlacementStarted =>
      if Ranked(p, e.candidate) then Err(DuplicateBook)
      else if p.pending.Some? then Err(PendingPlacement)
      else if p.entries == [] then Ok(p.(entries := [Entry(e.candidate, e.metadata.time)]))
      else
        var s := Session(e.candidate, 0, |p.entries|, {}, false, e.metadata.time, e.metadata.time);
        assert Open(p.entries, s.skipped, 0);
        Ok(p.(pending := Some(s)))
    case ComparisonAnswered(opponent, choice) =>
      if p.pending.None? then Err(NoActivePlacement)
      else if p.pending.value.candidate != e.candidate then Err(WrongCandidate)
      else if p.pending.value.paused then Err(Paused)
      else if NextOpponent(p) != Some(opponent) then Err(WrongOpponent)
      else
        var narrowed := Narrow(p.entries, p.pending.value, NextPosition(p).value, choice, e.metadata.time);
        SettleKeepsValid(p, narrowed, e.metadata.time);
        Ok(Settle(p, narrowed, e.metadata.time))
    case PlacementPaused =>
      if p.pending.None? then Err(NoActivePlacement)
      else if p.pending.value.candidate != e.candidate then Err(WrongCandidate)
      else if p.pending.value.paused then Err(Paused)
      else Ok(p.(pending := Some(p.pending.value.(paused := true, lastActivityAt := e.metadata.time))))
    case PlacementResumed =>
      if p.pending.None? then Err(NoActivePlacement)
      else if p.pending.value.candidate != e.candidate then Err(WrongCandidate)
      else if !p.pending.value.paused then Err(NotPaused)
      else
        var s := p.pending.value.(paused := false, skipped := {}, lastActivityAt := e.metadata.time);
        assert Open(p.entries, s.skipped, s.lo);
        Ok(p.(pending := Some(s)))
  }

  function Apply(p: Projection, e: RankingEvent): (r: Result<Projection, ReplayError>)
    requires Valid(p)
    ensures r.Ok? ==> Valid(r.value)
  {
    var sequence := e.metadata.sequence;
    if e.metadata.reader != p.reader then Err(ReplayError(sequence, WrongReader))
    else if p.revision >= U64_MAX then Err(ReplayError(sequence, SequenceOverflow))
    else if sequence != p.revision + 1 then Err(ReplayError(sequence, SequenceMismatch(p.revision + 1)))
    else if e.metadata.id in p.seen then Err(ReplayError(sequence, DuplicateEventId))
    else match ApplyKind(p, e)
      case Err(reason) => Err(ReplayError(sequence, reason))
      case Ok(q) => Ok(q.(revision := sequence, seen := p.seen + {e.metadata.id}))
  }

  function Empty(reader: ReaderId): (p: Projection)
    ensures Valid(p)
  {
    Projection(reader, 0, [], None, {})
  }

  function ReplayFrom(p: Projection, events: seq<RankingEvent>): (r: Result<Projection, ReplayError>)
    requires Valid(p)
    ensures r.Ok? ==> Valid(r.value)
    decreases |events|
  {
    if events == [] then Ok(p)
    else match Apply(p, events[0])
      case Err(error) => Err(error)
      case Ok(q) => ReplayFrom(q, events[1..])
  }

  function Replay(reader: ReaderId, events: seq<RankingEvent>): (r: Result<Projection, ReplayError>)
    ensures r.Ok? ==> Valid(r.value)
  {
    ReplayFrom(Empty(reader), events)
  }

  // ---------- The same operations on a mutable projection ----------

  /** The projection as the program holds it: fields that an event overwrites in place. */
  class MutableProjection {
    var reader: ReaderId
    var revision: nat
    var entries: seq<Entry>
    var pending: Option<Session>
    var seen: set<EventId>

    function Value(): Projection
      reads this
    {
      Projection(reader, revision, entries, pending, seen)
    }

    constructor (p: Projection)
      ensures Value() == p
    {
      reader, revision, entries, pending, seen := p.reader, p.revision, p.entries, p.pending, p.seen;
    }

    method Position(book: BookId) returns (j: nat)
      requires exists k :: 0 <= k < |entries| && entries[k].book == book
      ensures j < |entries| && entries[j].book == book
      ensures forall k :: 0 <= k < j ==> entries[k].book != book
    {
      j := 0;
      while entries[j].book != book
        invariant j < |entries|
        invariant forall k :: 0 <= k < j ==> entries[k].book != book
        decreases |entries| - j
      {
        j := j + 1;
      }
    }

    /** Overwrites the session and the entries as the event says, or leaves everything alone. */
    method ApplyEventKind(e: RankingEvent) returns (failure: Option<Reason>)
      requires Valid(Value())
      modifies `entries, `pending
      ensures ApplyKind(old(Value()), e) == if failure.None? then Ok(Value()) else Err(failure.value)
      ensures failure.Some? ==> Value() == old(Value())
    {
      match e.kind
      case PlacementStarted =>
        if Ranked(Value(), e.candidate) { return Some(DuplicateBook); }
        if pending.Some? { return Some(PendingPlacement); }
        if entries == [] {
          entries := entries + [Entry(e.candidate, e.metadata.time)];
          assert entries == [Entry(e.candidate, e.metadata.time)];
        } else {
          pending := Some(Session(e.candidate, 0, |entries|, {}, false, e.metadata.time, e.metadata.time));
        }
        return None;
      case ComparisonAnswered(opponent, choice) =>
        var selected := NextOpponent(Value());
        if pending.None? { return Some(NoActivePlacement); }
        if pending.value.candidate != e.candidate { return Some(WrongCandidate); }
        if pending.value.paused { return Some(Paused); }
        if selected != Some(opponent) { return Some(WrongOpponent); }
        var j := Position(opponent);
        assert j == NextPosition(Value()).value;
        match choice {
          case PreferCandidate => pending := Some(pending.value.(hi := j));
          case PreferOpponent => pending := Some(pending.value.(lo := j + 1));
          case Skip => pending := Some(pending.value.(skipped := pending.value.skipped + {opponent}));
        }
        pending := Some(pending.value.(lastActivityAt := e.metadata.time));
        var s := pending.value;
        if s.lo == s.hi {
          entries := Insert(entries, s.lo, Entry(e.candidate, e.metadata.time));
          pending := None;
        } else if Nearest(entries, s.skipped, Midpoint(s), s.lo, s.hi).None? {
          pending := Some(s.(paused := true));
        }
        return None;
      case PlacementPaused =>
        if pending.None? { return Some(NoActivePlacement); }
        if pending.value.candidate != e.candidate { return Some(WrongCandidate); }
        if pending.value.paused { return Some(Paused); }
        pending := Some(pending.value.(paused := true, lastActivityAt := e.metadata.time));
        return None;
      case PlacementResumed =>
        if pending.None? { return Some(NoActivePlacement); }
        if pending.value.candidate != e.candidate { return Some(WrongCandidate); }
        if !pending.value.paused { return Some(NotPaused); }
        pending := Some(pending.value.(paused := false, skipped := {}, lastActivityAt := e.metadata.time));
        return None;
    }

    /** Works on a clone, so that a refused event leaves this projection as it was. */
    method ApplyEvent(e: RankingEvent) returns (r: Result<Projection, ReplayError>)
      requires Valid(Value())
      ensures r == Apply(Value(), e)
    {
      var sequence := e.metadata.sequence;
      if e.metadata.reader != reader { return Err(ReplayError(sequence, WrongReader)); }
      if revision >= U64_MAX { return Err(ReplayError(sequence, SequenceOverflow)); }
      if sequence != revision + 1 { return Err(ReplayError(sequence, SequenceMismatch(revision + 1))); }
      if e.metadata.id in seen { return Err(ReplayError(sequence, DuplicateEventId)); }
      var next := new MutableProjection(Value());
      var failure := next.ApplyEventKind(e);
      if failure.Some? { return Err(ReplayError(sequence, failure.value)); }
      next.revision := sequence;
      next.seen := next.seen + {e.metadata.id};
      return Ok(next.Value());
    }
  }

  /** Rebuilds the current state from an ordered history, stopping at the first invalid event. */
  method ReplayHistory(reader: ReaderId, events: seq<RankingEvent>) returns (r: Result<Projection, ReplayError>)
    ensures r == Replay(reader, events)
  {
    var projection := Empty(reader);
    var i := 0;
    while i < |events|
      invariant 0 <= i <= |events| && Valid(projection)
      invariant Replay(reader, events) == ReplayFrom(projection, events[i..])
    {
      var current := new MutableProjection(projection);
      var next := current.ApplyEvent(events[i]);
      assert events[i..][0] == events[i] && events[i..][1..] == events[i + 1..];
      if next.Err? { return next; }
      projection := next.value;
      i := i + 1;
    }
    return Ok(projection);
  }
}
