/**
 What every interleaving of requests keeps: one unresolved action, one fact of
 each stage, and a ranking that takes each frozen event at most once.
 */
module SaveProtocolRuns {
  import opened Outcomes
  import opened RankingProjection
  import opened RankingCommands
  import opened SaveProtocol

  // ---------- The committed state ----------

  function Count(history: seq<Fact>, action: ActionId, stage: Stage): nat {
    if history == [] then 0 else
      var last := history[|history| - 1];
      Count(history[..|history| - 1], action, stage) + if last.action == action && StageOf(last) == stage then 1 else 0
  }

  ghost predicate OneFactEach(history: seq<Fact>) {
    forall a, s :: Count(history, a, s) <= 1
  }

  /** The correlation of an intent is the action the intent names. */
  predicate IntentsNamed(history: seq<Fact>) {
    forall f :: f in history && f.IntentFact? ==> f.intent.action == f.action
  }

  /** Facts follow an intent, preparations carry the intent's event, and no action is both prepared and rejected. */
  predicate WellOrdered(db: Db, a: ActionId) {
    && (PreparedOf(db, a).Some? || RejectionOf(db, a).Some? || RegistrationOf(db, a).Some? ==> IntentOf(db, a).Some?)
    && !(PreparedOf(db, a).Some? && RejectionOf(db, a).Some?)
    && (RegistrationOf(db, a).Some? ==> IntentOf(db, a).value.payload.AddBook?)
    && (PreparedOf(db, a).Some? ==>
          PreparedOf(db, a).value.correlation == a
          && PreparedOf(db, a).value.event.metadata.id == IntentOf(db, a).value.event)
  }

  /** While an action is prepared and unsaved the ranking stands where its intent saw it, and takes its event. */
  predicate FrozenFits(db: Db, p: Projection, a: ActionId)
    requires Valid(p)
  {
    IntentOf(db, a).Some? && PreparedOf(db, a).Some? && Unresolved(db, a) ==>
      p.revision == IntentOf(db, a).value.revision && Apply(p, PreparedOf(db, a).value.event).Ok?
  }

  ghost predicate OneUnresolved(db: Db) {
    forall a, b :: Unresolved(db, a) && Unresolved(db, b) ==> a == b
  }

  /** Every ranking document is the preparation of its own action, and no event id occurs twice. */
  ghost predicate DocumentsPrepared(db: Db) {
    && (forall i :: 0 <= i < |db.documents| ==> PreparedOf(db, db.documents[i].correlation) == Some(db.documents[i]))
    && (forall i, j :: 0 <= i < j < |db.documents| ==>
          db.documents[i].event.metadata.id != db.documents[j].event.metadata.id)
  }

  ghost predicate RankingReplays(reader: ReaderId, db: Db) {
    && Replayed(reader, db).Ok?
    && Replayed(reader, db).value.seen == (set d | d in db.documents :: d.event.metadata.id)
    && Replayed(reader, db).value.revision == |db.documents|
  }

  ghost predicate DbSound(reader: ReaderId, db: Db) {
    && OneFactEach(db.history) && IntentsNamed(db.history)
    && (forall a :: WellOrdered(db, a))
    && OneUnresolved(db) && DocumentsPrepared(db)
    && RankingReplays(reader, db)
    && forall a :: FrozenFits(db, Replayed(reader, db).value, a)
  }

  // ---------- Appending ----------

  lemma AppendedFact(history: seq<Fact>, f: Fact, a: ActionId, s: Stage)
    ensures First(history + [f], a, s) ==
            if First(history, a, s).Some? then First(history, a, s)
            else if f.action == a && StageOf(f) == s then Some(f) else None
    ensures Count(history + [f], a, s) == Count(history, a, s) + if f.action == a && StageOf(f) == s then 1 else 0
  {
    assert (history + [f])[..|history|] == history;
  }

  lemma {:induction false} NoFirstMeansNone(history: seq<Fact>, a: ActionId, s: Stage)
    ensures First(history, a, s).None? <==> Count(history, a, s) == 0
    decreases |history|
  {
    if history != [] { NoFirstMeansNone(history[..|history| - 1], a, s); }
  }

  lemma {:induction false} AppendedDocument(documents: seq<Document>, d: Document, id: EventId)
    ensures WithId(documents + [d], id) ==
            if WithId(documents, id).Some? then WithId(documents, id)
            else if d.event.metadata.id == id then Some(d) else None
    decreases |documents|
  {
    if documents == [] {
      assert [] + [d] == [d];
    } else {
      assert (documents + [d])[1..] == documents[1..] + [d];
      AppendedDocument(documents[1..], d, id);
    }
  }

  lemma {:induction false} FoundDocument(documents: seq<Document>, id: EventId)
    ensures WithId(documents, id).None? <==> forall i :: 0 <= i < |documents| ==> documents[i].event.metadata.id != id
    ensures WithId(documents, id).Some? ==>
      exists i :: 0 <= i < |documents| && WithId(documents, id) == Some(documents[i])
        && documents[i].event.metadata.id == id
    decreases |documents|
  {
    if documents != [] {
      FoundDocument(documents[1..], id);
      if documents[0].event.metadata.id == id {
        assert WithId(documents, id) == Some(documents[0]);
      } else {
        forall i | 0 <= i < |documents| && WithId(documents, id).None? ensures documents[i].event.metadata.id != id {
          if i > 0 { assert documents[i] == documents[1..][i - 1]; }
        }
        if WithId(documents, id).Some? {
          var i :| 0 <= i < |documents| - 1 && WithId(documents[1..], id) == Some(documents[1..][i])
                   && documents[1..][i].event.metadata.id == id;
          assert documents[i + 1] == documents[1..][i];
        }
        if forall i :: 0 <= i < |documents| ==> documents[i].event.metadata.id != id {
          assert forall i :: 0 <= i < |documents| - 1 ==> documents[1..][i] == documents[i + 1];
        }
      }
    }
  }

  /** The loop's question whether anything is unresolved is answered truthfully. */
  lemma {:induction false} UnresolvedAmongIsExact(db: Db, facts: seq<Fact>, a: ActionId)
    requires IntentsNamed(facts)
    ensures a in UnresolvedAmong(db, facts) <==>
            Count(facts, a, IntentStage) > 0 && RejectionOf(db, a).None? && !Saved(db, a)
    decreases |facts|
  {
    if facts != [] {
      UnresolvedAmongIsExact(db, facts[..|facts| - 1], a);
    }
  }

  lemma NothingUnresolved(db: Db, a: ActionId)
    requires IntentsNamed(db.history) && UnresolvedAmong(db, db.history) == []
    ensures !Unresolved(db, a)
  {
    UnresolvedAmongIsExact(db, db.history, a);
    NoFirstMeansNone(db.history, a, IntentStage);
  }

  /** What never goes away: facts, saves and the shape of the catalog's winners. */
  ghost predicate Grows(db: Db, later: Db) {
    && (forall a, s :: First(db.history, a, s).Some? ==> First(later.history, a, s) == First(db.history, a, s))
    && (forall a :: Saved(db, a) ==> Saved(later, a))
  }

  lemma FactGrows(db: Db, f: Fact)
    ensures Grows(db, Append(db, f))
  {
    forall a, s | First(db.history, a, s).Some? ensures First(Append(db, f).history, a, s) == First(db.history, a, s) {
      AppendedFact(db.history, f, a, s);
    }
  }

  lemma DocumentGrows(db: Db, d: Document)
    ensures Grows(db, db.(documents := db.documents + [d]))
  {
    forall a | Saved(db, a) ensures Saved(db.(documents := db.documents + [d]), a) {
      AppendedDocument(db.documents, d, PreparedOf(db, a).value.event.metadata.id);
    }
  }

  // ---------- Each kind of commit ----------

  lemma NewStageKeepsOneEach(db: Db, f: Fact)
    requires OneFactEach(db.history) && First(db.history, f.action, StageOf(f)).None?
    ensures OneFactEach(Append(db, f).history)
  {
    forall a, s ensures Count(Append(db, f).history, a, s) <= 1 {
      AppendedFact(db.history, f, a, s);
      NoFirstMeansNone(db.history, a, s);
    }
  }

  lemma NewIntentFits(db: Db, p: Projection, original: Intent, a: ActionId)
    requires Valid(p) && WellOrdered(db, a) && FrozenFits(db, p, a) && IntentOf(db, original.action).None?
    ensures var after := Append(db, IntentFact(original.action, original));
            WellOrdered(after, a) && FrozenFits(after, p, a)
  {
    SameExcept(db, IntentFact(original.action, original), a);
  }

  lemma OnlyTheNewIntent(db: Db, original: Intent)
    requires IntentsNamed(db.history) && UnresolvedAmong(db, db.history) == []
    ensures OneUnresolved(Append(db, IntentFact(original.action, original)))
  {
    var f := IntentFact(original.action, original);
    forall a | Unresolved(Append(db, f), a) ensures a == original.action {
      SameExcept(db, f, a);
      NothingUnresolved(db, a);
    }
  }

  lemma IntentKeepsSound(reader: ReaderId, db: Db, original: Intent)
    requires DbSound(reader, db) && IntentOf(db, original.action).None?
    requires UnresolvedAmong(db, db.history) == []
    ensures DbSound(reader, Append(db, IntentFact(original.action, original)))
  {
    var f, p := IntentFact(original.action, original), Replayed(reader, db).value;
    NewStageKeepsOneEach(db, f);
    forall a ensures WellOrdered(Append(db, f), a) && FrozenFits(Append(db, f), p, a) {
      NewIntentFits(db, p, original, a);
    }
    OnlyTheNewIntent(db, original);
    DocumentsStayPrepared(db, f);
  }

  /** The lookups of an action after one more fact. */
  lemma SameExcept(db: Db, f: Fact, a: ActionId)
    ensures var after := Append(db, f);
            && IntentOf(after, a) == (if IntentOf(db, a).None? && f.action == a && f.IntentFact? then Some(f.intent)
                                      else IntentOf(db, a))
            && PreparedOf(after, a) == (if PreparedOf(db, a).None? && f.action == a && f.RankingPrepared?
                                        then Some(f.document) else PreparedOf(db, a))
            && RejectionOf(after, a) == (if RejectionOf(db, a).None? && f.action == a && f.RejectedFact?
                                         then Some(f.reason) else RejectionOf(db, a))
            && RegistrationOf(after, a) ==
              (if RegistrationOf(db, a).None? && f.action == a && f.RegistrationPrepared? then Some(f.book)
               else RegistrationOf(db, a))
            && (PreparedOf(after, a) == PreparedOf(db, a) ==> Saved(after, a) == Saved(db, a))
  {
    AppendedFact(db.history, f, a, IntentStage);
    AppendedFact(db.history, f, a, PreparedStage);
    AppendedFact(db.history, f, a, RejectedStage);
    AppendedFact(db.history, f, a, RegistrationStage);
  }

  lemma DocumentsStayPrepared(db: Db, f: Fact)
    requires DocumentsPrepared(db)
    ensures DocumentsPrepared(Append(db, f))
  {
    var after := Append(db, f);
    forall i | 0 <= i < |after.documents|
      ensures PreparedOf(after, after.documents[i].correlation) == Some(after.documents[i])
    {
      SameExcept(db, f, db.documents[i].correlation);
    }
  }

  lemma RegistrationKeepsSound(reader: ReaderId, db: Db, a: ActionId, book: BookId)
    requires DbSound(reader, db) && RegistrationOf(db, a).None?
    requires IntentOf(db, a).Some? && IntentOf(db, a).value.payload.AddBook?
    ensures DbSound(reader, Append(db, RegistrationPrepared(a, book)))
  {
    var f := RegistrationPrepared(a, book);
    SameExcept(db, f, a);
    assert WellOrdered(db, a) && FrozenFits(db, Replayed(reader, db).value, a);
    FactKeepsSound(reader, db, f);
  }

  /** A fact of a new stage that leaves every action's preparation fitting keeps the state sound. */
  lemma FactKeepsSound(reader: ReaderId, db: Db, f: Fact)
    requires DbSound(reader, db) && First(db.history, f.action, StageOf(f)).None? && !f.IntentFact?
    requires WellOrdered(Append(db, f), f.action) && FrozenFits(Append(db, f), Replayed(reader, db).value, f.action)
    requires Saved(Append(db, f), f.action) ==> Saved(db, f.action)
    ensures DbSound(reader, Append(db, f))
  {
    var after, p := Append(db, f), Replayed(reader, db).value;
    NewStageKeepsOneEach(db, f);
    forall a ensures WellOrdered(after, a) && FrozenFits(after, p, a) && (Unresolved(after, a) ==> Unresolved(db, a)) {
      SameExcept(db, f, a);
      assert WellOrdered(db, a) && FrozenFits(db, p, a);
    }
    DocumentsStayPrepared(db, f);
  }

  /** A decision made at the current ranking is either a rejection or a document that fits. */
  lemma DecisionKeepsSound(reader: ReaderId, db: Db, a: ActionId, decision: Result<RankingEvent, DomainError>,
                           refusal: Refusal, preparation: nat)
    requires DbSound(reader, db) && IntentOf(db, a).Some? && !Decided(db, a)
    requires decision.Ok? ==>
      var p, original := Replayed(reader, db).value, IntentOf(db, a).value;
      && Apply(p, decision.value).Ok? && original.revision == p.revision
      && decision.value.metadata.id == original.event
    ensures DbSound(reader, Append(db, DecisionFact(a, decision, refusal, preparation)))
  {
    var f := DecisionFact(a, decision, refusal, preparation);
    var p := Replayed(reader, db).value;
    SameExcept(db, f, a);
    assert WellOrdered(db, a) && FrozenFits(db, p, a);
    if decision.Ok? {
      FoundDocument(db.documents, decision.value.metadata.id);
      forall i | 0 <= i < |db.documents| ensures db.documents[i].event.metadata.id != decision.value.metadata.id {
        assert db.documents[i] in db.documents;
        assert db.documents[i].event.metadata.id in p.seen;
      }
    }
    FactKeepsSound(reader, db, f);
  }

  lemma AcceptedPreferenceFits(p: Projection, original: Intent, known: set<BookId>)
    requires Valid(p) && original.payload.Preference? && DecidePreference(p, original, known).Ok?
    ensures var e := DecidePreference(p, original, known).value;
            Apply(p, e).Ok? && original.revision == p.revision && e.metadata.id == original.event
  {
    DecideAcceptsExactlyLegal(p, known, Context(original.revision, original.event, original.time),
                              CommandOf(original.payload));
  }

  lemma AcceptedStartFits(p: Projection, original: Intent, book: BookId)
    requires Valid(p) && DecideStart(p, original, book).Ok?
    ensures var e := DecideStart(p, original, book).value;
            Apply(p, e).Ok? && original.revision == p.revision && e.metadata.id == original.event
  {
    DecideAcceptsExactlyLegal(p, {book}, Context(original.revision, original.event, original.time), Start(book));
  }

  lemma {:induction false} ReplayedWith(reader: ReaderId, db: Db, d: Document)
    requires Replayed(reader, db).Ok? && Apply(Replayed(reader, db).value, d.event).Ok?
    ensures Replayed(reader, db.(documents := db.documents + [d])) == Apply(Replayed(reader, db).value, d.event)
  {
    assert Events(db.documents + [d]) == Events(db.documents) + [d.event];
    ReplayOfConcatenation(Empty(reader), Events(db.documents), [d.event]);
    var q := Apply(Replayed(reader, db).value, d.event).value;
    assert ReplayFrom(Replayed(reader, db).value, [d.event]) == Ok(q) by { assert [d.event][1..] == []; }
  }

  lemma PreparedIsNew(reader: ReaderId, db: Db, a: ActionId)
    requires DbSound(reader, db) && Unresolved(db, a) && PreparedOf(db, a).Some?
    ensures WithId(db.documents, PreparedOf(db, a).value.event.metadata.id).None?
    ensures forall i :: 0 <= i < |db.documents| ==>
      db.documents[i].event.metadata.id != PreparedOf(db, a).value.event.metadata.id
  {
    var d, p := PreparedOf(db, a).value, Replayed(reader, db).value;
    assert FrozenFits(db, p, a);
    forall i | 0 <= i < |db.documents| ensures db.documents[i].event.metadata.id != d.event.metadata.id {
      assert db.documents[i] in db.documents;
      assert db.documents[i].event.metadata.id in p.seen;
    }
    FoundDocument(db.documents, d.event.metadata.id);
  }

  lemma SavedReplays(reader: ReaderId, db: Db, a: ActionId)
    requires DbSound(reader, db) && Unresolved(db, a) && PreparedOf(db, a).Some?
    ensures RankingReplays(reader, db.(documents := db.documents + [PreparedOf(db, a).value]))
  {
    var d := PreparedOf(db, a).value;
    var after := db.(documents := db.documents + [d]);
    assert WellOrdered(db, a) && FrozenFits(db, Replayed(reader, db).value, a);
    ReplayedWith(reader, db, d);
    var q := Replayed(reader, after).value;
    assert q.seen == (set x | x in after.documents :: x.event.metadata.id) by {
      assert forall x :: x in after.documents <==> x in db.documents || x == d;
    }
  }

  /** Saving the prepared document: it is then in the ranking, and nothing is left unresolved. */
  lemma SaveKeepsSound(reader: ReaderId, db: Db, a: ActionId)
    requires DbSound(reader, db) && Unresolved(db, a) && PreparedOf(db, a).Some?
    ensures var d := PreparedOf(db, a).value;
            && WithId(db.documents, d.event.metadata.id).None?
            && DbSound(reader, db.(documents := db.documents + [d]))
            && Saved(db.(documents := db.documents + [d]), a)
  {
    var d := PreparedOf(db, a).value;
    var after := db.(documents := db.documents + [d]);
    PreparedIsNew(reader, db, a);
    SavedReplays(reader, db, a);
    AppendedDocument(db.documents, d, d.event.metadata.id);
    DocumentGrows(db, d);
    assert WellOrdered(db, a);
    forall b ensures WellOrdered(after, b) && !Unresolved(after, b) {
      assert WellOrdered(db, b);
      assert Unresolved(db, b) ==> b == a;
    }
  }

  // ---------- Requests ----------

  /** How far the action has come: nothing, intent, registration, preparation, resolution. */
  function Phase(db: Db, a: ActionId): nat {
    if Saved(db, a) || RejectionOf(db, a).Some? then 4
    else if PreparedOf(db, a).Some? then 3
    else if RegistrationOf(db, a).Some? then 2
    else if IntentOf(db, a).Some? then 1 else 0
  }

  /** What a request knows stays true, and every turn of its loop followed an advance of its action. */
  predicate RequestSound(db: Db, r: Request) {
    match r
    case Submitting(_, _, _) => true
    case AtTop(a, tops) => tops > 0 ==> Phase(db, a) > tops
    case LookingUpBooks(a, original, tops) =>
      IntentOf(db, a) == Some(original) && original.payload.Preference? && tops == 0
    case PreparingPreference(a, original, _, tops) =>
      IntentOf(db, a) == Some(original) && original.payload.Preference? && tops == 0
    case LookingUpWork(a, original, tops) =>
      IntentOf(db, a) == Some(original) && original.payload.AddBook? && tops == 0
    case PreparingRegistration(a, original, _, tops) =>
      IntentOf(db, a) == Some(original) && original.payload.AddBook? && tops == 0
    case Registering(a, original, proposed, tops) =>
      && IntentOf(db, a) == Some(original) && original.payload.AddBook?
      && RegistrationOf(db, a) == Some(proposed) && tops <= 1
    case Registered(a, original, _, tops) =>
      && IntentOf(db, a) == Some(original) && original.payload.AddBook?
      && RegistrationOf(db, a).Some? && tops <= 1
    case Finished(a, outcome) =>
      && (outcome.SavedOutcome? ==> Saved(db, a))
      && (outcome.RejectedOutcome? ==> RejectionOf(db, a) == Some(outcome.reason))
  }

  lemma KnowledgeLasts(db: Db, later: Db, r: Request)
    requires Grows(db, later) && RequestSound(db, r)
    ensures RequestSound(later, r)
  {
    PhaseGrows(db, later, r.action);
  }

  lemma PhaseGrows(db: Db, later: Db, a: ActionId)
    requires Grows(db, later)
    ensures Phase(db, a) <= Phase(later, a)
    ensures IntentOf(db, a).Some? ==> IntentOf(later, a) == IntentOf(db, a)
    ensures RejectionOf(db, a).Some? ==> RejectionOf(later, a) == RejectionOf(db, a)
    ensures RegistrationOf(db, a).Some? ==> RegistrationOf(later, a) == RegistrationOf(db, a)
    ensures Saved(db, a) ==> Saved(later, a)
  {
    assert First(db.history, a, IntentStage).Some? ==>
        First(later.history, a, IntentStage) == First(db.history, a, IntentStage);
    assert First(db.history, a, RejectedStage).Some? ==>
        First(later.history, a, RejectedStage) == First(db.history, a, RejectedStage);
    assert First(db.history, a, RegistrationStage).Some? ==>
        First(later.history, a, RegistrationStage) == First(db.history, a, RegistrationStage);
    assert First(db.history, a, PreparedStage).Some? ==>
        First(later.history, a, PreparedStage) == First(db.history, a, PreparedStage);
  }

  lemma NothingChangedGrows(db: Db)
    ensures Grows(db, db)
  {
  }

  ghost predicate StepSound(reader: ReaderId, db: Db, result: (Db, Request)) {
    DbSound(reader, result.0) && Grows(db, result.0) && RequestSound(result.0, result.1)
  }

  lemma SubmitIsSound(reader: ReaderId, db: Db, r: Request, inp: Input)
    requires DbSound(reader, db) && r.Submitting?
    ensures StepSound(reader, db, Submit(db, r, inp))
  {
    if IntentOf(db, r.action).None? && UnresolvedAmong(db, db.history) == [] && !inp.fails {
      var original := Intent(r.action, r.payload, r.revision, inp.uuid, inp.time);
      IntentKeepsSound(reader, db, original);
      FactGrows(db, IntentFact(r.action, original));
    }
  }

  lemma LoopTopIsSound(reader: ReaderId, db: Db, a: ActionId, tops: nat, commit: Commit)
    requires DbSound(reader, db) && RequestSound(db, AtTop(a, tops))
    ensures StepSound(reader, db, LoopTop(db, Replayed(reader, db).value, a, tops, commit))
  {
    assert WellOrdered(db, a);
    if IntentOf(db, a).Some? && !Saved(db, a) && RejectionOf(db, a).None? && PreparedOf(db, a).Some? {
      assert FrozenFits(db, Replayed(reader, db).value, a);
      SaveKeepsSound(reader, db, a);
      DocumentGrows(db, PreparedOf(db, a).value);
    }
  }

  lemma PreparePreferenceIsSound(reader: ReaderId, db: Db, r: Request, inp: Input)
    requires DbSound(reader, db) && r.PreparingPreference? && RequestSound(db, r)
    ensures StepSound(reader, db, PreparePreference(db, Replayed(reader, db).value, r, inp))
  {
    var p := Replayed(reader, db).value;
    if !Decided(db, r.action) {
      var decision := DecidePreference(p, r.original, r.known);
      var f := DecisionFact(r.action, decision, ComparisonChanged, inp.preparation);
      if decision.Ok? { AcceptedPreferenceFits(p, r.original, r.known); }
      DecisionKeepsSound(reader, db, r.action, decision, ComparisonChanged, inp.preparation);
      FactGrows(db, f);
      SameExcept(db, f, r.action);
    }
  }

  lemma PrepareStartIsSound(reader: ReaderId, db: Db, r: Request, inp: Input)
    requires DbSound(reader, db) && r.Registered? && RequestSound(db, r)
    ensures StepSound(reader, db, PrepareStart(db, Replayed(reader, db).value, r, inp))
  {
    var p := Replayed(reader, db).value;
    if !Decided(db, r.action) {
      var decision := DecideStart(p, r.original, r.book);
      var f := DecisionFact(r.action, decision, StartRefusal(p, r.book), inp.preparation);
      if decision.Ok? { AcceptedStartFits(p, r.original, r.book); }
      DecisionKeepsSound(reader, db, r.action, decision, StartRefusal(p, r.book), inp.preparation);
      FactGrows(db, f);
      SameExcept(db, f, r.action);
    }
  }

  lemma PrepareRegistrationIsSound(reader: ReaderId, db: Db, r: Request, inp: Input)
    requires DbSound(reader, db) && r.PreparingRegistration? && RequestSound(db, r)
    ensures StepSound(reader, db, PrepareRegistration(db, r, inp))
  {
    if RegistrationOf(db, r.action).None? {
      var f := RegistrationPrepared(r.action, r.book);
      SameExcept(db, f, r.action);
      RegistrationKeepsSound(reader, db, r.action, r.book);
      FactGrows(db, f);
    }
  }

  /** The catalog is no part of the reader's evidence. */
  lemma BooksKeepSound(reader: ReaderId, db: Db, books: map<WorkId, BookId>)
    requires DbSound(reader, db)
    ensures DbSound(reader, db.(books := books)) && Grows(db, db.(books := books))
  {
    var after := db.(books := books);
    forall a ensures WellOrdered(after, a) && (Unresolved(after, a) <==> Unresolved(db, a))
                     && FrozenFits(after, Replayed(reader, db).value, a)
    {
      assert WellOrdered(db, a) && FrozenFits(db, Replayed(reader, db).value, a);
    }
    forall i | 0 <= i < |after.documents|
      ensures PreparedOf(after, after.documents[i].correlation) == Some(after.documents[i])
    {
      assert PreparedOf(db, db.documents[i].correlation) == Some(db.documents[i]);
    }
  }

  lemma StepIsSound(reader: ReaderId, db: Db, r: Request, inp: Input)
    requires DbSound(reader, db) && RequestSound(db, r)
    ensures StepSound(reader, db, StepRequest(db, Replayed(reader, db).value, r, inp))
  {
    NothingChangedGrows(db);
    if r.Submitting? {
      SubmitIsSound(reader, db, r, inp);
    } else if !r.Finished? && !inp.fails {
      match r
      case AtTop(a, tops) => LoopTopIsSound(reader, db, a, tops, inp.commit);
      case PreparingPreference(_, _, _, _) => PreparePreferenceIsSound(reader, db, r, inp);
      case PreparingRegistration(_, _, _, _) => PrepareRegistrationIsSound(reader, db, r, inp);
      case Registering(_, _, _, _) =>
        var (books, winner) := RegisterBook(db.books, r.original.payload.work, r.proposed);
        BooksKeepSound(reader, db, books);
        if winner.Some? {
          KnowledgeLasts(db, db.(books := books), Registered(r.action, r.original, winner.value, r.tops));
        }
      case Registered(_, _, _, _) => PrepareStartIsSound(reader, db, r, inp);
      case _ =>
    }
  }

  // ---------- Every interleaving ----------

  ghost predicate WorldSound(reader: ReaderId, w: World) {
    DbSound(reader, w.db) && forall pid :: pid in w.requests ==> RequestSound(w.db, w.requests[pid])
  }

  lemma NextIsSound(reader: ReaderId, w: World, move: Move)
    requires WorldSound(reader, w)
    ensures WorldSound(reader, Next(reader, w, move)) && Grows(w.db, Next(reader, w, move).db)
  {
    var after := Next(reader, w, move);
    match move
    case Arrive(_, _, _) => NothingChangedGrows(w.db);
    case RegisterElsewhere(work, book) => BooksKeepSound(reader, w.db, RegisterBook(w.db.books, work, book).0);
    case Step(pid, input) =>
      NothingChangedGrows(w.db);
      if pid in w.requests { StepIsSound(reader, w.db, w.requests[pid], input); }
    forall pid | pid in after.requests ensures RequestSound(after.db, after.requests[pid]) {
      if pid in w.requests && after.requests[pid] == w.requests[pid] {
        KnowledgeLasts(w.db, after.db, w.requests[pid]);
      }
    }
  }

  /** Whatever requests arrive, crash, retry and interleave, the committed state and every request stay sound. */
  lemma {:induction false} EveryInterleavingIsSound(reader: ReaderId, w: World, moves: seq<Move>)
    requires WorldSound(reader, w)
    ensures WorldSound(reader, Run(reader, w, moves)) && Grows(w.db, Run(reader, w, moves).db)
    decreases |moves|
  {
    NothingChangedGrows(w.db);
    if moves != [] {
      NextIsSound(reader, w, moves[0]);
      EveryInterleavingIsSound(reader, Next(reader, w, moves[0]), moves[1..]);
    }
  }

  lemma EmptyHistoryIsSound(reader: ReaderId, books: map<WorkId, BookId>)
    ensures WorldSound(reader, NoHistory(books))
  {
    var db := NoHistory(books).db;
    assert Events(db.documents) == [];
  }

  // ---------- What this means for readers ----------

  function Occurrences(documents: seq<Document>, id: EventId): nat {
    if documents == [] then 0
    else Occurrences(documents[1..], id) + if documents[0].event.metadata.id == id then 1 else 0
  }

  lemma {:induction false} DistinctIdsOccurOnce(documents: seq<Document>, id: EventId)
    requires forall i, j ::
      0 <= i < j < |documents| ==> documents[i].event.metadata.id != documents[j].event.metadata.id
    ensures Occurrences(documents, id) <= 1
    ensures Occurrences(documents, id) == 1 <==> WithId(documents, id).Some?
    decreases |documents|
  {
    if documents != [] {
      assert forall i :: 0 <= i < |documents| - 1 ==> documents[1..][i] == documents[i + 1];
      DistinctIdsOccurOnce(documents[1..], id);
      FoundDocument(documents[1..], id);
    }
  }

  /**
   In every reachable state, for every action: one fact of each stage at most,
   not both saved and rejected, at most one unresolved action, and the frozen
   event in the ranking once if the action is saved and not at all otherwise.
   */
  lemma EachActionIsSavedAtMostOnce(reader: ReaderId, books: map<WorkId, BookId>, moves: seq<Move>, a: ActionId)
    ensures var db := Run(reader, NoHistory(books), moves).db;
            && (forall s :: Count(db.history, a, s) <= 1)
            && !(Saved(db, a) && RejectionOf(db, a).Some?)
            && (forall b :: Unresolved(db, a) && Unresolved(db, b) ==> a == b)
            && (PreparedOf(db, a).Some? ==>
                  Occurrences(db.documents, PreparedOf(db, a).value.event.metadata.id) == if Saved(db, a) then 1 else 0)
  {
    EmptyHistoryIsSound(reader, books);
    EveryInterleavingIsSound(reader, NoHistory(books), moves);
    var db := Run(reader, NoHistory(books), moves).db;
    assert WellOrdered(db, a);
    if PreparedOf(db, a).Some? {
      var d := PreparedOf(db, a).value;
      DistinctIdsOccurOnce(db.documents, d.event.metadata.id);
      FoundDocument(db.documents, d.event.metadata.id);
      if !Saved(db, a) {
        assert FrozenFits(db, Replayed(reader, db).value, a);
        SaveKeepsSound(reader, db, a);
      }
    }
  }

  /** In every reachable state, asking for unresolved actions names exactly those there are. */
  lemma UnresolvedActionsAreNamed(reader: ReaderId, books: map<WorkId, BookId>, moves: seq<Move>, a: ActionId)
    ensures var db := Run(reader, NoHistory(books), moves).db;
            a in UnresolvedAmong(db, db.history) <==> Unresolved(db, a)
  {
    EmptyHistoryIsSound(reader, books);
    EveryInterleavingIsSound(reader, NoHistory(books), moves);
    var db := Run(reader, NoHistory(books), moves).db;
    UnresolvedAmongIsExact(db, db.history, a);
    NoFirstMeansNone(db.history, a, IntentStage);
  }

  /** The report says that nothing is known of the action, or that another one is in its way. */
  predicate ReportsNoIntent(r: Request) {
    r.Finished? && (r.outcome.Missing? || r.outcome.Blocked?)
  }

  predicate ReportsFate(r: Request) {
    r.Finished? && (r.outcome.SavedOutcome? || r.outcome.RejectedOutcome?)
  }

  /** No step newly reports a known action as missing or blocked. */
  lemma KnownActionsAreFound(db: Db, p: Projection, r: Request, inp: Input)
    requires Valid(p)
    ensures var after := StepRequest(db, p, r, inp).1;
            ReportsNoIntent(after) && IntentOf(db, after.action).Some? ==> after == r
  {
    if r.AtTop? {
      LoopTopFindsIntents(db, p, r.action, r.tops, inp.commit);
    } else if !r.Submitting? && !r.Finished? {
      PreparationsFindIntents(db, p, r, inp);
    }
  }

  lemma LoopTopFindsIntents(db: Db, p: Projection, a: ActionId, tops: nat, commit: Commit)
    requires Valid(p)
    ensures var after := LoopTop(db, p, a, tops, commit).1;
            ReportsNoIntent(after) ==> after.action == a && IntentOf(db, a).None?
  {
  }

  lemma PreparationsFindIntents(db: Db, p: Projection, r: Request, inp: Input)
    requires Valid(p) && !r.AtTop? && !r.Submitting? && !r.Finished?
    ensures !ReportsNoIntent(StepRequest(db, p, r, inp).1)
  {
  }

  lemma {:induction false} KnownActionsStayFound(reader: ReaderId, w: World, later: seq<Move>, a: ActionId, q: Pid)
    requires WorldSound(reader, w) && IntentOf(w.db, a).Some?
    ensures var v := Run(reader, w, later);
            q in v.requests && ReportsNoIntent(v.requests[q]) && v.requests[q].action == a ==>
              q in w.requests && w.requests[q] == v.requests[q]
    decreases |later|
  {
    if later != [] {
      var next := Next(reader, w, later[0]);
      NextIsSound(reader, w, later[0]);
      PhaseGrows(w.db, next.db, a);
      KnownActionsStayFound(reader, next, later[1..], a, q);
      if later[0].Step? && later[0].pid in w.requests && Replayed(reader, w.db).Ok? {
        KnownActionsAreFound(w.db, Replayed(reader, w.db).value, w.requests[later[0].pid], later[0].input);
      }
    }
  }

  /**
   Once a request has reported the fate of an action, no request ever reports
   another fate of it, and none that finishes later finds it missing or blocked.
   */
  lemma ReportsNeverDisagree(reader: ReaderId, books: map<WorkId, BookId>, moves: seq<Move>, later: seq<Move>, p: Pid,
                             q: Pid)
    requires var w := Run(reader, NoHistory(books), moves); p in w.requests && ReportsFate(w.requests[p])
    requires q in Run(reader, Run(reader, NoHistory(books), moves), later).requests
    ensures var w := Run(reader, NoHistory(books), moves);
            var v := Run(reader, w, later);
            w.requests[p].action == v.requests[q].action ==>
              && (ReportsFate(v.requests[q]) ==> w.requests[p].outcome == v.requests[q].outcome)
              && (ReportsNoIntent(v.requests[q]) ==> q in w.requests && w.requests[q] == v.requests[q])
  {
    EmptyHistoryIsSound(reader, books);
    EveryInterleavingIsSound(reader, NoHistory(books), moves);
    var w := Run(reader, NoHistory(books), moves);
    EveryInterleavingIsSound(reader, w, later);
    var v := Run(reader, w, later);
    var a := w.requests[p].action;
    PhaseGrows(w.db, v.db, a);
    assert WellOrdered(v.db, a) && WellOrdered(w.db, a);
    assert RequestSound(w.db, w.requests[p]) && RequestSound(v.db, v.requests[q]);
    KnownActionsStayFound(reader, w, later, a, q);
  }

  /**
   While an action is prepared and unsaved, the ranking has not moved since its
   intent, so saving it is never refused and it is never rejected after its
   preparation.
   */
  lemma PreparedActionsAlwaysSave(reader: ReaderId, books: map<WorkId, BookId>, moves: seq<Move>, a: ActionId,
                                  tops: nat)
    requires var db := Run(reader, NoHistory(books), moves).db; Unresolved(db, a) && PreparedOf(db, a).Some?
    ensures var db := Run(reader, NoHistory(books), moves).db;
            && Replayed(reader, db).Ok?
            && Replayed(reader, db).value.revision == IntentOf(db, a).value.revision
            && LoopTop(db, Replayed(reader, db).value, a, tops, Acknowledged) ==
               (db.(documents := db.documents + [PreparedOf(db, a).value]), Finished(a, SavedOutcome))
  {
    EmptyHistoryIsSound(reader, books);
    EveryInterleavingIsSound(reader, NoHistory(books), moves);
    var db := Run(reader, NoHistory(books), moves).db;
    assert FrozenFits(db, Replayed(reader, db).value, a) && WellOrdered(db, a);
    SaveKeepsSound(reader, db, a);
  }

  /** However many helpers interfere, a request is at the top of its loop at most four times. */
  lemma RequestsLoopAtMostFourTimes(reader: ReaderId, books: map<WorkId, BookId>, moves: seq<Move>, pid: Pid)
    requires var w := Run(reader, NoHistory(books), moves); pid in w.requests && w.requests[pid].AtTop?
    ensures Run(reader, NoHistory(books), moves).requests[pid].tops <= 3
  {
    EmptyHistoryIsSound(reader, books);
    EveryInterleavingIsSound(reader, NoHistory(books), moves);
    var w := Run(reader, NoHistory(books), moves);
    assert RequestSound(w.db, w.requests[pid]);
  }
}
