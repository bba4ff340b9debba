/**
 One locked composition scope (book_smartz/storage/composition.rs): at most one
 ranking document and one application fact are staged, any error poisons the
 scope, and only a clean scope can be committed.
 */
module Composition {
  import opened Outcomes
  import opened RankingProjection
  import RankingCommands
  import opened SaveProtocol

  /** An application fact with the reader and the place it claims in the history. */
  datatype Numbered = Numbered(reader: ReaderId, sequence: nat, fact: Fact)

  datatype StoreError = InvalidComposition | StaleDocument(expected: nat, actual: nat)
    | InvalidDocument(reason: Reason) | DatabaseFailed

  /** The place of the next fact; the last possible one has no successor. */
  function NextSequence(facts: seq<Numbered>): Option<nat> {
    if facts == [] then Some(1)
    else if facts[|facts| - 1].sequence == U64_MAX then None else Some(facts[|facts| - 1].sequence + 1)
  }

  predicate Gapless(facts: seq<Numbered>) {
    forall i :: 0 <= i < |facts| ==> facts[i].sequence == i + 1
  }

  class CommandTransaction {
    const reader: ReaderId
    const loadedDocuments: seq<Document>
    const loadedFacts: seq<Numbered>
    var projection: Projection
    var documents: seq<Document>
    var facts: seq<Numbered>
    var appended: bool
    var factAppended: bool
    var failed: bool

    /** The scope shows the loaded histories with at most one staged entry each, and the projection of what it shows. */
    ghost predicate Valid()
      reads this
    {
      && Replay(reader, Events(documents)) == Ok(projection) && RankingProjection.Valid(projection)
      && (if appended then documents != [] && documents[..|documents| - 1] == loadedDocuments
          else documents == loadedDocuments)
      && (if factAppended then facts != [] && facts[..|facts| - 1] == loadedFacts else facts == loadedFacts)
      && Gapless(facts)
    }

    constructor (reader: ReaderId, documents: seq<Document>, facts: seq<Numbered>)
      requires Replay(reader, Events(documents)).Ok? && Gapless(facts)
      ensures Valid() && !failed && !appended && !factAppended
      ensures this.reader == reader && this.documents == documents && this.facts == facts
    {
      this.reader, loadedDocuments, loadedFacts := reader, documents, facts;
      projection := Replay(reader, Events(documents)).value;
      this.documents, this.facts := documents, facts;
      appended, factAppended, failed := false, false, false;
    }

    /** Stages a document that the whole history accepts at the expected revision. */
    method AppendRanking(document: Document, expected: nat, inserts: bool) returns (error: Option<StoreError>)
      requires Valid()
      modifies this
      ensures Valid() && facts == old(facts) && factAppended == old(factAppended)
      ensures error.None? <==>
        && !old(failed) && !old(appended) && old(projection.revision) == expected
        && Apply(old(projection), document.event).Ok? && inserts
      ensures error.None? ==>
        && documents == old(documents) + [document] && Ok(projection) == Apply(old(projection), document.event)
        && appended && !failed
      ensures error.Some? ==>
        failed && documents == old(documents) && projection == old(projection) && appended == old(appended)
    {
      if failed || appended {
        failed := true;
        return Some(InvalidComposition);
      }
      failed := true;
      if projection.revision != expected { return Some(StaleDocument(expected, projection.revision)); }
      ghost var before := projection;
      var replayed := Replay(reader, Events(documents) + [document.event]);
      RankingCommands.ReplayOfConcatenation(Empty(reader), Events(documents), [document.event]);
      assert [document.event][1..] == [];
      assert replayed == Apply(before, document.event);
      if replayed.Err? { return Some(InvalidDocument(replayed.error.reason)); }
      if !inserts { return Some(DatabaseFailed); }
      assert Events(documents + [document]) == Events(documents) + [document.event];
      projection := replayed.value;
      documents := documents + [document];
      appended := true;
      failed := false;
      return None;
    }

    /** Stages a fact of this reader that takes the next place, without moving the ranking. */
    method AppendApplication(fact: Numbered, inserts: bool) returns (error: Option<StoreError>)
      requires Valid()
      modifies this
      ensures Valid() && documents == old(documents) && projection == old(projection) && appended == old(appended)
      ensures error.None? <==>
        && !old(failed) && !old(factAppended) && fact.reader == reader
        && NextSequence(old(facts)) == Some(fact.sequence) && inserts
      ensures error.None? ==> facts == old(facts) + [fact] && factAppended && !failed
      ensures error.Some? ==> failed && facts == old(facts) && factAppended == old(factAppended)
    {
      if failed || factAppended {
        failed := true;
        return Some(InvalidComposition);
      }
      failed := true;
      if fact.reader != reader || NextSequence(facts) != Some(fact.sequence) { return Some(InvalidComposition); }
      if !inserts { return Some(DatabaseFailed); }
      facts := facts + [fact];
      factAppended := true;
      failed := false;
      return None;
    }

    /** Publishes everything staged, or nothing; a poisoned scope publishes nothing. */
    method Commit(commits: bool) returns (published: Option<(seq<Document>, seq<Numbered>)>)
      requires Valid()
      ensures published.Some? <==> !failed && commits
      ensures published.Some? ==>
        var (newDocuments, newFacts) := published.value;
        && loadedDocuments <= newDocuments && |newDocuments| <= |loadedDocuments| + 1
        && loadedFacts <= newFacts && |newFacts| <= |loadedFacts| + 1
        && Replay(reader, Events(newDocuments)).Ok? && Gapless(newFacts)
        && newDocuments == documents && newFacts == facts
    {
      if failed || !commits { return None; }
      return Some((documents, facts));
    }
  }
}
