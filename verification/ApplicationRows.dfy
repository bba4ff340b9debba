/**
 Loading the application history (decode_rows and insert in
 book_smartz/storage/application.rs): rows are checked against the events they
 hold, and their sequence has no gap.
 */
module ApplicationRows {
  import opened Outcomes
  import opened WireKeys

  type ReaderId = nat
  type EventId = nat
  type Envelope = string

  datatype ApplicationEvent = ApplicationEvent(reader: ReaderId, sequence: nat, id: EventId, envelope: Envelope)

  datatype Row = Row(reader: ReaderId, key: string, id: EventId, envelope: Envelope)

  datatype CorruptHistory = InvalidEnvelope | CorruptKey | InvalidIndex | SequenceOverflow

  /** Decoding of one envelope for a reader, with all its checks. */
  type Decoder = (ReaderId, Envelope) -> Option<ApplicationEvent>

  /** Decoded events belong to the reader, have a positive 64-bit sequence and keep their envelope. */
  ghost predicate Strict(decode: Decoder) {
    forall reader, envelope :: decode(reader, envelope).Some? ==>
      var e := decode(reader, envelope).value;
      e.reader == reader && 0 < e.sequence <= U64_MAX && e.envelope == envelope
  }

  /** What insertion stores. */
  function Stored(e: ApplicationEvent): Row
    requires 0 < e.sequence <= U64_MAX
  {
    Row(e.reader, Padded(e.sequence, 20), e.id, e.envelope)
  }

  /** The row holds the event that comes next. */
  predicate RowHolds(reader: ReaderId, decode: Decoder, row: Row, e: ApplicationEvent, expected: nat) {
    && decode(reader, row.envelope) == Some(e) && row.reader == reader && row.id == e.id
    && ParseSequenceKey(row.key) == Ok(e.sequence) && e.sequence == expected
  }

  predicate RowsHold(reader: ReaderId, decode: Decoder, rows: seq<Row>, history: seq<ApplicationEvent>) {
    |rows| == |history| && forall i :: 0 <= i < |rows| ==> RowHolds(reader, decode, rows[i], history[i], i + 1)
  }

  /** Loads a history exactly when its rows hold it without a gap and one more sequence number would exist. */
  method DecodeRows(reader: ReaderId, decode: Decoder, rows: seq<Row>)
    returns (r: Result<seq<ApplicationEvent>, CorruptHistory>)
    ensures r.Ok? ==> RowsHold(reader, decode, rows, r.value) && |rows| < U64_MAX
    ensures r.Err? ==> |rows| >= U64_MAX || forall history :: !RowsHold(reader, decode, rows, history)
  {
    var history: seq<ApplicationEvent> := [];
    var expected := 1;
    for i := 0 to |rows|
      invariant expected == i + 1 <= U64_MAX
      invariant RowsHold(reader, decode, rows[..i], history)
    {
      var row := rows[i];
      var event := decode(reader, row.envelope);
      if event.None? {
        NoHistory(reader, decode, rows, i);
        return Err(InvalidEnvelope);
      }
      if ParseSequenceKey(row.key).Err? && row.reader == reader && row.id == event.value.id {
        NoHistory(reader, decode, rows, i);
        return Err(CorruptKey);
      }
      if row.reader != reader || row.id != event.value.id || ParseSequenceKey(row.key) != Ok(event.value.sequence)
         || event.value.sequence != expected {
        NoHistory(reader, decode, rows, i);
        return Err(InvalidIndex);
      }
      if expected == U64_MAX { return Err(SequenceOverflow); }
      expected := expected + 1;
      history := history + [event.value];
    }
    assert rows[..|rows|] == rows;
    return Ok(history);
  }

  /** The row holds some event that may come next. */
  predicate RowFits(reader: ReaderId, decode: Decoder, row: Row, expected: nat) {
    var e := decode(reader, row.envelope);
    e.Some? && RowHolds(reader, decode, row, e.value, expected)
  }

  /** One row that does not fit spoils the whole history. */
  lemma NoHistory(reader: ReaderId, decode: Decoder, rows: seq<Row>, i: nat)
    requires i < |rows| && !RowFits(reader, decode, rows[i], i + 1)
    ensures forall history :: !RowsHold(reader, decode, rows, history)
  {
    forall history ensures !RowsHold(reader, decode, rows, history) {
      assert i < |history| ==> !RowHolds(reader, decode, rows[i], history[i], i + 1);
    }
  }

  predicate Gapless(history: seq<ApplicationEvent>) {
    forall i :: 0 <= i < |history| ==> history[i].sequence == i + 1
  }

  /** A history holds its own rows: what was inserted one after the other is loaded again, and nothing else is. */
  lemma StoredHistoriesAreLoaded(reader: ReaderId, decode: Decoder, rows: seq<Row>, history: seq<ApplicationEvent>)
    requires Strict(decode) && |history| <= U64_MAX
    requires forall i :: 0 <= i < |history| ==> decode(reader, history[i].envelope) == Some(history[i])
    ensures RowsHold(reader, decode, rows, history) <==>
            Gapless(history) && |rows| == |history| && forall i :: 0 <= i < |rows| ==> rows[i] == Stored(history[i])
  {
    forall i | 0 <= i < |rows| && i < |history|
      ensures RowHolds(reader, decode, rows[i], history[i], i + 1) <==>
              history[i].sequence == i + 1 && rows[i] == Stored(history[i])
    {
      OneRow(reader, decode, rows[i], history[i], i + 1);
    }
  }

  lemma OneRow(reader: ReaderId, decode: Decoder, row: Row, e: ApplicationEvent, expected: nat)
    requires Strict(decode) && decode(reader, e.envelope) == Some(e)
    ensures 0 < e.sequence <= U64_MAX
    ensures RowHolds(reader, decode, row, e, expected) <==> e.sequence == expected && row == Stored(e)
  {
    assert decode(reader, e.envelope).Some?;
    KeyRoundTrip(e.sequence);
    if ParseSequenceKey(row.key).Ok? { AcceptedKeysAreCanonical(row.key); }
    if RowHolds(reader, decode, row, e, expected) {
      assert decode(reader, row.envelope).Some?;
    }
  }
}
