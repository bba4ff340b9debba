/**
 The durable save protocol of one reader (book_smartz/web/actions.rs).

 An action starts as an intent fact. Its ranking event is then frozen in a
 prepared document, or the action is rejected, and a prepared document is at
 last appended to the ranking. Every arrow is one transaction under the
 reader's lock. Between two transactions a request may crash, another request
 may help, and a commit may succeed without being acknowledged.
 */
module SaveProtocol {
  import opened Outcomes
  import opened RankingProjection
  import opened RankingCommands

  type ActionId = nat
  type WorkId = nat
  type Pid = nat

  datatype Preferred = PreferTheCandidate | PreferTheOpponent | PausePlacement | ResumePlacement

  datatype Payload =
    | AddBook(work: WorkId)
    | Preference(candidate: BookId, opponent: BookId, choice: Preferred)

  datatype Intent = Intent(action: ActionId, payload: Payload, revision: nat, event: EventId, time: Instant)

  /** The frozen envelope: the event with the action it belongs to and the preparation that froze it. */
  datatype Document = Document(event: RankingEvent, correlation: ActionId, causation: nat)

  datatype Refusal = ComparisonChanged | AlreadyAdded | UnfinishedPlacement | BooksChanged

  datatype Stage = IntentStage | RejectedStage | PreparedStage | RegistrationStage

  datatype Fact =
    | IntentFact(action: ActionId, intent: Intent)
    | RegistrationPrepared(action: ActionId, book: BookId)
    | RankingPrepared(action: ActionId, document: Document)
    | RejectedFact(action: ActionId, reason: Refusal)

  function StageOf(f: Fact): Stage {
    match f
    case IntentFact(_, _) => IntentStage
    case RegistrationPrepared(_, _) => RegistrationStage
    case RankingPrepared(_, _) => PreparedStage
    case RejectedFact(_, _) => RejectedStage
  }

  /** The committed state: the reader's facts and ranking documents, and the shared catalog of books. */
  datatype Db = Db(history: seq<Fact>, documents: seq<Document>, books: map<WorkId, BookId>)

  // ---------- Reading the evidence ----------

  /** The first fact of the action at this stage. */
  function First(history: seq<Fact>, action: ActionId, stage: Stage): (f: Option<Fact>)
    ensures f.Some? ==> f.value.action == action && StageOf(f.value) == stage
  {
    if history == [] then None else
      var earlier := First(history[..|history| - 1], action, stage);
      var last := history[|history| - 1];
      if earlier.Some? then earlier
      else if last.action == action && StageOf(last) == stage then Some(last) else None
  }

  function IntentOf(db: Db, action: ActionId): Option<Intent> {
    match First(db.history, action, IntentStage)
    case Some(f) => Some(f.intent)
    case None => None
  }

  function PreparedOf(db: Db, action: ActionId): Option<Document> {
    match First(db.history, action, PreparedStage)
    case Some(f) => Some(f.document)
    case None => None
  }

  function RejectionOf(db: Db, action: ActionId): Option<Refusal> {
    match First(db.history, action, RejectedStage)
    case Some(f) => Some(f.reason)
    case None => None
  }

  function RegistrationOf(db: Db, action: ActionId): Option<BookId> {
    match First(db.history, action, RegistrationStage)
    case Some(f) => Some(f.book)
    case None => None
  }

  /** The ranking document with this event id, if there is one. */
  function WithId(documents: seq<Document>, id: EventId): Option<Document> {
    if documents == [] then None
    else if documents[0].event.metadata.id == id then Some(documents[0]) else WithId(documents[1..], id)
  }

  /** Saved means that the ranking holds the whole prepared document, not only its event id. */
  predicate Saved(db: Db, action: ActionId) {
    PreparedOf(db, action).Some? &&
    WithId(db.documents, PreparedOf(db, action).value.event.metadata.id) == PreparedOf(db, action)
  }

  predicate Unresolved(db: Db, action: ActionId) {
    IntentOf(db, action).Some? && RejectionOf(db, action).None? && !Saved(db, action)
  }

  /** The unresolved actions among these facts, as their intents name them and in the order of their intents. */
  function UnresolvedAmong(db: Db, facts: seq<Fact>): seq<ActionId> {
    if facts == [] then [] else
      UnresolvedAmong(db, facts[..|facts| - 1]) +
      var last := facts[|facts| - 1];
      if last.IntentFact? && RejectionOf(db, last.intent.action).None? && !Saved(db, last.intent.action)
      then [last.intent.action] else []
  }

  function Events(documents: seq<Document>): (events: seq<RankingEvent>)
    ensures |events| == |documents|
    ensures forall i :: 0 <= i < |documents| ==> events[i] == documents[i].event
  {
    seq(|documents|, i requires 0 <= i < |documents| => documents[i].event)
  }

  // ---------- One request ----------

  datatype Outcome = SavedOutcome | RejectedOutcome(reason: Refusal) | Missing | Unconfirmed | Blocked | Forbidden
    | Failed

  /** Where a request stands between two transactions; tops counts how often it has gone round its loop. */
  datatype Request =
    | Submitting(action: ActionId, payload: Payload, revision: nat)
    | AtTop(action: ActionId, tops: nat)
    | LookingUpBooks(action: ActionId, original: Intent, tops: nat)
    | PreparingPreference(action: ActionId, original: Intent, known: set<BookId>, tops: nat)
    | LookingUpWork(action: ActionId, original: Intent, tops: nat)
    | PreparingRegistration(action: ActionId, original: Intent, book: BookId, tops: nat)
    | Registering(action: ActionId, original: Intent, proposed: BookId, tops: nat)
    | Registered(action: ActionId, original: Intent, book: BookId, tops: nat)
    | Finished(action: ActionId, outcome: Outcome)

  datatype Commit = Acknowledged | LostAcknowledgement | NotCommitted

  /** What the world decides during one step: failures, the fate of the commit, fresh ids and the clock. */
  datatype Input = Input(fails: bool, commit: Commit, uuid: nat, preparation: nat, time: Instant)

  /** The state after a commit, and where the request goes: on, only when the commit was acknowledged. */
  function Committed(db: Db, staged: Db, commit: Commit, next: Request, otherwise: Request): (Db, Request) {
    (if commit == NotCommitted then db else staged, if commit == Acknowledged then next else otherwise)
  }

  function Append(db: Db, f: Fact): Db {
    db.(history := db.history + [f])
  }

  function CommandOf(payload: Payload): Command
    requires payload.Preference?
  {
    match payload.choice
    case PreferTheCandidate => Answer(payload.opponent, PreferCandidate)
    case PreferTheOpponent => Answer(payload.opponent, PreferOpponent)
    case PausePlacement => Pause
    case ResumePlacement => Resume
  }

  /** The decision on a preference: it must still be about the pending candidate. */
  function DecidePreference(p: Projection, original: Intent, known: set<BookId>): Result<RankingEvent, DomainError>
    requires Valid(p) && original.payload.Preference?
  {
    if p.pending.Some? && p.pending.value.candidate == original.payload.candidate
    then Decide(p, known, Context(original.revision, original.event, original.time), CommandOf(original.payload))
    else Err(UnknownBook)
  }

  function DecideStart(p: Projection, original: Intent, book: BookId): Result<RankingEvent, DomainError>
    requires Valid(p)
  {
    Decide(p, {book}, Context(original.revision, original.event, original.time), Start(book))
  }

  function StartRefusal(p: Projection, book: BookId): Refusal {
    if Ranked(p, book) then AlreadyAdded else if p.pending.Some? then UnfinishedPlacement else BooksChanged
  }

  /** An accepted decision is frozen; a refused one becomes a rejection. */
  function DecisionFact(action: ActionId, decision: Result<RankingEvent, DomainError>, refusal: Refusal,
                        preparation: nat): Fact {
    match decision
    case Ok(event) => RankingPrepared(action, Document(event, action, preparation))
    case Err(_) => RejectedFact(action, refusal)
  }

  /** Adding a book or answering: under the lock, one intent, and none while another action is unresolved. */
  function Submit(db: Db, r: Request, inp: Input): (Db, Request)
    requires r.Submitting?
  {
    if inp.fails then (db, Finished(r.action, Unconfirmed)) else
      match IntentOf(db, r.action)
      case Some(original) =>
        if original.payload != r.payload || original.revision != r.revision then (db, Finished(r.action, Forbidden))
        else (db, AtTop(r.action, 0))
      case None =>
        if UnresolvedAmong(db, db.history) != [] then (db, Finished(r.action, Blocked)) else
          var original := Intent(r.action, r.payload, r.revision, inp.uuid, inp.time);
          Committed(db, Append(db, IntentFact(r.action, original)), inp.commit, AtTop(r.action, 0),
                    Finished(r.action, Unconfirmed))
  }

  /** The prepared document goes into the ranking, unless the ranking has moved since it was frozen. */
  function SavePrepared(db: Db, p: Projection, action: ActionId, original: Intent, document: Document, tops: nat,
                        commit: Commit)
    : (Db, Request)
    requires Valid(p)
  {
    if WithId(db.documents, document.event.metadata.id).Some? then (db, Finished(action, Failed)) else
      if p.revision != original.revision then
        Committed(db, Append(db, RejectedFact(action, BooksChanged)), commit, AtTop(action, tops + 1),
                  Finished(action, Failed))
      else if Apply(p, document.event).Err? then (db, Finished(action, Failed)) else
        Committed(db, db.(documents := db.documents + [document]), commit,
                  Finished(action, SavedOutcome), Finished(action, Failed))
  }

  /** The top of the loop: resolved, prepared, or one preparation further. */
  function LoopTop(db: Db, p: Projection, action: ActionId, tops: nat, commit: Commit): (Db, Request)
    requires Valid(p)
  {
    match IntentOf(db, action)
    case None => (db, Finished(action, Missing))
    case Some(original) =>
      if Saved(db, action) then (db, Finished(action, SavedOutcome)) else
        match RejectionOf(db, action)
        case Some(reason) => (db, Finished(action, RejectedOutcome(reason)))
        case None =>
          match PreparedOf(db, action)
          case Some(document) => SavePrepared(db, p, action, original, document, tops, commit)
          case None =>
            if original.payload.Preference? then (db, LookingUpBooks(action, original, tops)) else
              match RegistrationOf(db, action)
              case None => (db, LookingUpWork(action, original, tops))
              case Some(proposed) => (db, Registering(action, original, proposed, tops))
  }

  predicate Decided(db: Db, action: ActionId) {
    PreparedOf(db, action).Some? || RejectionOf(db, action).Some?
  }

  /** The preparation of a preference, under the lock: nothing to do when another request has decided. */
  function PreparePreference(db: Db, p: Projection, r: Request, inp: Input): (Db, Request)
    requires Valid(p) && r.PreparingPreference?
  {
    if !r.original.payload.Preference? then (db, Finished(r.action, Failed)) else
      if Decided(db, r.action) then (db, AtTop(r.action, r.tops + 1)) else
        var f := DecisionFact(r.action, DecidePreference(p, r.original, r.known), ComparisonChanged, inp.preparation);
        Committed(db, Append(db, f), inp.commit, AtTop(r.action, r.tops + 1), Finished(r.action, Failed))
  }

  function PrepareStart(db: Db, p: Projection, r: Request, inp: Input): (Db, Request)
    requires Valid(p) && r.Registered?
  {
    if Decided(db, r.action) then (db, AtTop(r.action, r.tops + 1)) else
      var f := DecisionFact(r.action, DecideStart(p, r.original, r.book), StartRefusal(p, r.book), inp.preparation);
      Committed(db, Append(db, f), inp.commit, AtTop(r.action, r.tops + 1), Finished(r.action, Failed))
  }

  function PrepareRegistration(db: Db, r: Request, inp: Input): (Db, Request)
    requires r.PreparingRegistration?
  {
    if RegistrationOf(db, r.action).Some? then (db, AtTop(r.action, r.tops + 1)) else
      Committed(db, Append(db, RegistrationPrepared(r.action, r.book)), inp.commit, AtTop(r.action, r.tops + 1),
                Finished(r.action, Failed))
  }

  /** The catalog has its own transaction, and its own fate. */
  function Register(db: Db, r: Request, inp: Input): (Db, Request)
    requires r.Registering?
  {
    if !r.original.payload.AddBook? then (db, Finished(r.action, Failed)) else
      var (books, winner) := RegisterBook(db.books, r.original.payload.work, r.proposed);
      if winner.None? then (db, Finished(r.action, Failed))
      else Committed(db, db.(books := books), inp.commit, Registered(r.action, r.original, winner.value, r.tops),
                     Finished(r.action, Failed))
  }

  /** One transaction, or one read of the catalog, of a request. */
  function StepRequest(db: Db, p: Projection, r: Request, inp: Input): (Db, Request)
    requires Valid(p)
  {
    if r.Finished? then (db, r) else
      if r.Submitting? then Submit(db, r, inp) else
        if inp.fails then (db, Finished(r.action, Failed)) else
          match r
          case AtTop(action, tops) => LoopTop(db, p, action, tops, inp.commit)
          case LookingUpBooks(action, original, tops) =>
            (db, PreparingPreference(action, original, db.books.Values, tops))
          case PreparingPreference(_, _, _, _) => PreparePreference(db, p, r, inp)
          case LookingUpWork(action, original, tops) =>
            (db, PreparingRegistration(action, original, BookFor(db.books, original.payload, inp.uuid), tops))
          case PreparingRegistration(_, _, _, _) => PrepareRegistration(db, r, inp)
          case Registering(_, _, _, _) => Register(db, r, inp)
          case Registered(_, _, _, _) => PrepareStart(db, p, r, inp)
  }

  /** The id the work already has, or a fresh one. */
  function BookFor(books: map<WorkId, BookId>, payload: Payload, minted: BookId): BookId {
    if payload.AddBook? && payload.work in books then books[payload.work] else minted
  }

  /** One row for each work and for each book: a second insertion finds the first winner. */
  function RegisterBook(books: map<WorkId, BookId>, work: WorkId, proposed: BookId): (map<WorkId, BookId>,
                                                                                      Option<BookId>) {
    if work in books then (books, Some(books[work]))
    else if proposed in books.Values then (books, None)
    else (books[work := proposed], Some(proposed))
  }

  // ---------- All requests together ----------

  datatype World = World(db: Db, requests: map<Pid, Request>)

  /** Requests arrive, take a step each, or stop for ever; other readers register books. */
  datatype Move =
    | Arrive(pid: Pid, action: ActionId, submission: Option<(Payload, nat)>)
    | Step(pid: Pid, input: Input)
    | RegisterElsewhere(work: WorkId, book: BookId)

  function Replayed(reader: ReaderId, db: Db): Result<Projection, ReplayError> {
    Replay(reader, Events(db.documents))
  }

  /** A ranking that does not replay refuses every transaction; it is never reached. */
  function Next(reader: ReaderId, w: World, move: Move): World {
    match move
    case Arrive(pid, action, submission) =>
      if pid in w.requests then w else
        w.(requests := w.requests[pid := if submission.Some?
                                  then Submitting(action, submission.value.0, submission.value.1)
                                         else AtTop(action, 0)])
    case Step(pid, input) =>
      if pid !in w.requests || Replayed(reader, w.db).Err? then w else
        var (db, r) := StepRequest(w.db, Replayed(reader, w.db).value, w.requests[pid], input);
        World(db, w.requests[pid := r])
    case RegisterElsewhere(work, book) =>
      w.(db := w.db.(books := RegisterBook(w.db.books, work, book).0))
  }

  function Run(reader: ReaderId, w: World, moves: seq<Move>): World
    decreases |moves|
  {
    if moves == [] then w else Run(reader, Next(reader, w, moves[0]), moves[1..])
  }

  function NoHistory(books: map<WorkId, BookId>): World {
    World(Db([], [], books), map[])
  }
}
