/**
 Ranking events as CloudEvents documents (book_smartz/domain/cloudevents.rs,
 profile of CloudEvents 1.0, JSON Event Format, section 3). A document is the
 tree of its names and values; names used by the profile are constructors.
 */
module CloudEvents {
  import opened Outcomes
  import opened Decimals
  import WireKeys

  // ---------- Canonical texts ----------

  /** A UUID by its only accepted text: lower-case hexadecimal digits in five groups. */
  predicate IsUuid(text: string) {
    |text| == 36 && forall i :: 0 <= i < 36 ==>
      if i == 8 || i == 13 || i == 18 || i == 23 then text[i] == '-' else IsDigit(text[i]) || 'a' <= text[i] <= 'f'
  }

  type Uuid = text: string | IsUuid(text) witness "00000000-0000-0000-0000-000000000000"

  /** A positive number without leading zeros. */
  function Decimal(n: nat): (text: string)
    ensures AllDigits(text) && text != ""
  {
    if n < 10 then [WireKeys.DigitOf(n)] else Decimal(n / 10) + [WireKeys.DigitOf(n % 10)]
  }

  function ParseSequence(text: string): Option<nat> {
    if text == "" || text[0] == '0' || !AllDigits(text) || Number(text) > U64_MAX || Number(text) == 0 then None
    else Some(Number(text))
  }

  lemma {:induction false} DecimalSpellsTheNumber(n: nat)
    ensures Number(Decimal(n)) == n && (n > 0 ==> Decimal(n)[0] != '0')
    decreases n
  {
    if n < 10 {
      assert NumberUpTo(Decimal(n), 0) == 0;
    } else {
      DecimalSpellsTheNumber(n / 10);
      var front, text := Decimal(n / 10), Decimal(n);
      assert text[..|front|] == front && text[0] == front[0];
      NumberOfPrefix(text, |front|, |front|);
    }
  }

  /** Exactly one text is read as a given sequence number. */
  lemma SequenceTextIsUnique(text: string, n: nat)
    requires 0 < n <= U64_MAX
    ensures ParseSequence(text) == Some(n) <==> text == Decimal(n)
  {
    DecimalSpellsTheNumber(n);
    if ParseSequence(text) == Some(n) { SameNumber(text, Decimal(n)); }
  }

  // ---------- Events ----------

  datatype Choice = PreferCandidate | PreferOpponent | Skip

  datatype EventKind =
    | PlacementStarted
    | ComparisonAnswered(opponent: Uuid, choice: Choice)
    | PlacementPaused
    | PlacementResumed

  type Sequence = n: nat | 0 < n <= U64_MAX witness 1

  datatype Instant = Instant(year: int, moment: int)

  datatype RankingEvent = RankingEvent(id: Uuid, reader: Uuid, sequence: Sequence, time: Instant, candidate: Uuid,
                                       kind: EventKind)

  function TypeText(kind: EventKind): string {
    match kind
    case PlacementStarted => "bookranking.placement.started.v1"
    case ComparisonAnswered(_, _) => "bookranking.comparison.answered.v1"
    case PlacementPaused => "bookranking.placement.paused.v1"
    case PlacementResumed => "bookranking.placement.resumed.v1"
  }

  function ChoiceText(choice: Choice): string {
    match choice
    case PreferCandidate => "prefer_candidate"
    case PreferOpponent => "prefer_opponent"
    case Skip => "skip"
  }

  function SourceText(reader: Uuid): string {
    "urn:uuid:" + reader
  }

  function SubjectText(candidate: Uuid): string {
    "books/" + candidate
  }

  // ---------- Documents ----------

  datatype Name =
    | SpecVersion | Id | Source | Type | Subject | Time | DataContentType | DataSchema | Data | DataBase64
    | SequenceName | TraceParent | TraceState | Extra(text: string)

  datatype Member = ReaderId | CandidateBookId | SequenceMember | OpponentBookId | ChoiceMember
    | OtherMember(text: string)

  /** A JSON value outside the event data; a number only says which integer it is, if it is one. */
  datatype Json = Null | Bool(value: bool) | Integer(number: int) | OtherNumber | Text(text: string) | Array
                | Object(members: map<Member, Json>)

  type Fields = map<Name, Json>

  datatype CodecError =
    | NotAnObject | MalformedJson | MissingField(name: Name) | InvalidField(name: Name)
    | MissingMember(member: Member) | InvalidMember(member: Member) | InvalidData
    | UnsupportedSpecVersion | UnsupportedEventType | InvalidExtension

  /** How instants are formatted and parsed, and which texts are absolute URIs; both belong to libraries. */
  datatype Library = Library(format: Instant -> string, parse: string -> Option<Instant>, isUri: string -> bool)

  predicate InRange(t: Instant) {
    0 <= t.year <= 9999
  }

  /** Formatted instants are parsed back. */
  ghost predicate Faithful(lib: Library) {
    forall t :: InRange(t) ==> lib.format(t) != "" && lib.parse(lib.format(t)) == Some(t)
  }

  // ---------- Encoding ----------

  function CommonData(e: RankingEvent): map<Member, Json> {
    map[ReaderId := Text(e.reader), CandidateBookId := Text(e.candidate), SequenceMember := Text(Decimal(e.sequence))]
  }

  function DataOf(e: RankingEvent): map<Member, Json> {
    match e.kind
    case ComparisonAnswered(opponent, choice) =>
      CommonData(e)[OpponentBookId := Text(opponent)][ChoiceMember := Text(ChoiceText(choice))]
    case _ => CommonData(e)
  }

  function EncodeEvent(lib: Library, e: RankingEvent): Result<Fields, CodecError> {
    if !InRange(e.time) then Err(InvalidField(Time)) else
      Ok(map[SpecVersion := Text("1.0"), Id := Text(e.id), Source := Text(SourceText(e.reader)),
             Type := Text(TypeText(e.kind)), Subject := Text(SubjectText(e.candidate)),
             Time := Text(lib.format(e.time)),
             DataContentType := Text("application/json"), Data := Object(DataOf(e)),
             SequenceName := Text(WireKeys.Padded(e.sequence, 20))])
  }

  // ---------- Decoding ----------

  function Present(fields: Fields): Fields {
    map name | name in fields && fields[name] != Null :: fields[name]
  }

  predicate HasText(fields: Fields, name: Name) {
    name in fields && fields[name].Text? && fields[name].text != ""
  }

  const REQUIRED: seq<Name> := [SpecVersion, Id, Source, Type, Subject, Time, DataContentType]

  /** The first required field that is missing or not a text. */
  function RequiredFault(fields: Fields, names: seq<Name>): Option<CodecError> {
    if names == [] then None
    else if names[0] !in fields then Some(MissingField(names[0]))
    else if !HasText(fields, names[0]) then Some(InvalidField(names[0]))
    else RequiredFault(fields, names[1..])
  }

  predicate AllRequired(fields: Fields) {
    && HasText(fields, SpecVersion) && HasText(fields, Id) && HasText(fields, Source) && HasText(fields, Type)
    && HasText(fields, Subject) && HasText(fields, Time) && HasText(fields, DataContentType)
  }

  lemma {:induction false} RequiredAreThere(fields: Fields, names: seq<Name>)
    ensures RequiredFault(fields, names).None? <==> forall i :: 0 <= i < |names| ==> HasText(fields, names[i])
    decreases |names|
  {
    if names != [] {
      RequiredAreThere(fields, names[1..]);
      assert forall i :: 0 < i < |names| ==> names[i] == names[1..][i - 1];
    }
  }

  /** The loop over the required names finds no fault exactly when all of them are texts. */
  lemma NoRequiredFault(fields: Fields)
    ensures RequiredFault(fields, REQUIRED).None? <==> AllRequired(fields)
  {
    RequiredAreThere(fields, REQUIRED);
    assert REQUIRED[0] == SpecVersion && REQUIRED[1] == Id && REQUIRED[2] == Source && REQUIRED[3] == Type
           && REQUIRED[4] == Subject && REQUIRED[5] == Time && REQUIRED[6] == DataContentType;
  }

  predicate Reserved(name: Name) {
    match name
    case SequenceName => false
    case TraceParent => false
    case TraceState => false
    case DataBase64 => false
    case Extra(_) => false
    case _ => true
  }

  predicate ValidName(name: Name) {
    match name
    case Extra(text) => text != "" && forall i :: 0 <= i < |text| ==> IsDigit(text[i]) || 'a' <= text[i] <= 'z'
    case DataBase64 => false
    case _ => true
  }

  /** Control characters and noncharacters are refused. */
  predicate CleanText(text: string) {
    forall i :: 0 <= i < |text| ==>
      var c := text[i] as int; !(c <= 0x1f || 0x7f <= c <= 0x9f || 0xfdd0 <= c <= 0xfdef || c % 0x1_0000 >= 0xfffe)
  }

  predicate ValidExtension(name: Name, value: Json) {
    && ValidName(name)
    && match value
       case Text(text) => CleanText(text)
       case Bool(_) => true
       case Integer(number) => -0x8000_0000 <= number <= 0x7fff_ffff
       case _ => false
  }

  predicate ValidExtensions(fields: Fields) {
    forall name :: name in fields && !Reserved(name) ==> ValidExtension(name, fields[name])
  }

  predicate ValidTrace(fields: Fields) {
    && (TraceParent in fields ==> HasText(fields, TraceParent))
    && (TraceState in fields ==> HasText(fields, TraceState) && TraceParent in fields)
  }

  function EnvelopeFault(lib: Library, fields: Fields): (fault: Option<CodecError>)
    ensures fault.None? ==> AllRequired(fields)
  {
    NoRequiredFault(fields);
    if RequiredFault(fields, REQUIRED).Some? then RequiredFault(fields, REQUIRED) else ContentFault(lib, fields)
  }

  function ContentFault(lib: Library, fields: Fields): Option<CodecError>
    requires AllRequired(fields)
  {
    if fields[SpecVersion].text != "1.0" then Some(UnsupportedSpecVersion)
    else if fields[DataContentType].text != "application/json" then Some(InvalidField(DataContentType))
    else if !ValidSchema(lib, fields) then Some(InvalidField(DataSchema))
    else if !ValidExtensions(fields) || !ValidTrace(fields) then Some(InvalidExtension)
    else if lib.parse(fields[Time].text).None? then Some(MalformedJson)
    else None
  }

  predicate ValidSchema(lib: Library, fields: Fields) {
    DataSchema in fields ==> fields[DataSchema].Text? && lib.isUri(fields[DataSchema].text)
  }

  /** A text member, where a missing one and null are the same. */
  function MemberText(data: map<Member, Json>, member: Member): Result<string, CodecError> {
    if member !in data || data[member] == Null || data[member] == Text("") then Err(MissingMember(member))
    else if data[member].Text? then Ok(data[member].text)
    else Err(InvalidData)
  }

  function MemberUuid(data: map<Member, Json>, member: Member): Result<string, CodecError> {
    match MemberText(data, member)
    case Err(error) => Err(error)
    case Ok(text) => if IsUuid(text) then Ok(text) else Err(InvalidMember(member))
  }

  function MemberSequence(data: map<Member, Json>): Result<nat, CodecError> {
    match MemberText(data, SequenceMember)
    case Err(error) => Err(error)
    case Ok(text) =>
      if ParseSequence(text).Some? then Ok(ParseSequence(text).value) else Err(InvalidMember(SequenceMember))
  }

  /** Known members are texts or null. */
  predicate ReadableData(data: map<Member, Json>) {
    forall member :: member in data && !member.OtherMember? ==> data[member].Text? || data[member].Null?
  }

  function DecodeAnswer(data: map<Member, Json>): Result<EventKind, CodecError> {
    match MemberUuid(data, OpponentBookId)
    case Err(error) => Err(error)
    case Ok(opponent) =>
      match MemberText(data, ChoiceMember)
      case Err(error) => Err(error)
      case Ok(text) =>
        if text == ChoiceText(PreferCandidate) then Ok(ComparisonAnswered(opponent, PreferCandidate))
        else if text == ChoiceText(PreferOpponent) then Ok(ComparisonAnswered(opponent, PreferOpponent))
        else if text == ChoiceText(Skip) then Ok(ComparisonAnswered(opponent, Skip))
        else Err(InvalidMember(ChoiceMember))
  }

  function DecodeKind(ty: string, data: map<Member, Json>): Result<EventKind, CodecError> {
    if ty == TypeText(PlacementStarted) then Ok(PlacementStarted)
    else if ty == "bookranking.comparison.answered.v1" then DecodeAnswer(data)
    else if ty == TypeText(PlacementPaused) then Ok(PlacementPaused)
    else if ty == TypeText(PlacementResumed) then Ok(PlacementResumed)
    else Err(UnsupportedEventType)
  }

  function DecodeIn(fields: Fields, id: Uuid, time: Instant, data: map<Member, Json>): Result<RankingEvent, CodecError>
    requires HasText(fields, Source) && HasText(fields, Subject) && HasText(fields, Type)
  {
    var reader, candidate := MemberUuid(data, ReaderId), MemberUuid(data, CandidateBookId);
    var sequence := MemberSequence(data);
    if reader.Err? then Err(reader.error)
    else if candidate.Err? then Err(candidate.error)
    else if sequence.Err? then Err(sequence.error)
    else if fields[Source].text != SourceText(reader.value) then Err(InvalidField(Source))
    else if fields[Subject].text != SubjectText(candidate.value) then Err(InvalidField(Subject))
    else if SequenceName in fields && fields[SequenceName] != Text(WireKeys.Padded(sequence.value, 20))
      then Err(InvalidExtension)
    else match DecodeKind(fields[Type].text, data)
         case Err(error) => Err(error)
         case Ok(kind) => Ok(RankingEvent(id, reader.value, sequence.value, time, candidate.value, kind))
  }

  function DecodeFields(lib: Library, fields: Fields): Result<RankingEvent, CodecError>
    requires AllRequired(fields) && lib.parse(fields[Time].text).Some?
  {
    var time := lib.parse(fields[Time].text).value;
    if !IsUuid(fields[Id].text) then Err(InvalidField(Id))
    else if !InRange(time) then Err(InvalidField(Time))
    else if Data !in fields then Err(MissingField(Data))
    else if !fields[Data].Object? then Err(InvalidField(Data))
    else if !ReadableData(fields[Data].members) then Err(InvalidData)
    else DecodeIn(fields, fields[Id].text, time, fields[Data].members)
  }

  function DecodeEvent(lib: Library, document: Fields): Result<RankingEvent, CodecError> {
    if DataBase64 in document then Err(InvalidField(DataBase64)) else
      var fields := Present(document);
      if EnvelopeFault(lib, fields).Some? then Err(EnvelopeFault(lib, fields).value) else DecodeFields(lib, fields)
  }

  // ---------- What is accepted, and as which event ----------

  predicate Has(data: map<Member, Json>, member: Member, text: string) {
    member in data && data[member] == Text(text)
  }

  /** The event data that say an event; other members may be anything. */
  predicate SaysData(data: map<Member, Json>, e: RankingEvent) {
    && ReadableData(data)
    && Has(data, ReaderId, e.reader) && Has(data, CandidateBookId, e.candidate)
    && Has(data, SequenceMember, Decimal(e.sequence))
    && SaysAnswer(data, e.kind)
  }

  predicate SaysAnswer(data: map<Member, Json>, kind: EventKind) {
    kind.ComparisonAnswered? ==>
      Has(data, OpponentBookId, kind.opponent) && Has(data, ChoiceMember, ChoiceText(kind.choice))
  }

  predicate SaysEnvelope(lib: Library, fields: Fields, e: RankingEvent)
    requires AllRequired(fields)
  {
    && fields[Id].text == e.id && fields[Source].text == SourceText(e.reader) && fields[Type].text == TypeText(e.kind)
    && fields[Subject].text == SubjectText(e.candidate) && lib.parse(fields[Time].text) == Some(e.time)
    && InRange(e.time)
    && (SequenceName in fields ==> fields[SequenceName] == Text(WireKeys.Padded(e.sequence, 20)))
  }

  /** The fields say the event in the one accepted way. */
  predicate Says(lib: Library, fields: Fields, e: RankingEvent) {
    && AllRequired(fields) && SaysEnvelope(lib, fields, e)
    && Data in fields && fields[Data].Object? && SaysData(fields[Data].members, e)
  }

  /** What does not concern the event: versions, schema, extensions and trace context. */
  predicate ValidContext(lib: Library, fields: Fields)
    requires AllRequired(fields)
  {
    && fields[SpecVersion].text == "1.0" && fields[DataContentType].text == "application/json"
    && ValidSchema(lib, fields) && ValidExtensions(fields) && ValidTrace(fields)
  }

  lemma MemberUuidIs(data: map<Member, Json>, member: Member, uuid: Uuid)
    ensures MemberUuid(data, member) == Ok(uuid) <==> Has(data, member, uuid)
  {
  }

  lemma MemberSequenceIs(data: map<Member, Json>, n: Sequence)
    ensures MemberSequence(data) == Ok(n) <==> Has(data, SequenceMember, Decimal(n))
  {
    SequenceTextIsUnique(Decimal(n), n);
    if SequenceMember in data && data[SequenceMember].Text? { SequenceTextIsUnique(data[SequenceMember].text, n); }
  }

  lemma ChoiceTextsDiffer()
    ensures ChoiceText(PreferCandidate) != ChoiceText(PreferOpponent)
    ensures ChoiceText(Skip) != ChoiceText(PreferCandidate) && ChoiceText(Skip) != ChoiceText(PreferOpponent)
  {
    assert ChoiceText(PreferCandidate)[7] != ChoiceText(PreferOpponent)[7];
  }

  lemma AnswerIs(data: map<Member, Json>, kind: EventKind)
    requires kind.ComparisonAnswered?
    ensures DecodeAnswer(data) == Ok(kind) <==> SaysAnswer(data, kind)
  {
    MemberUuidIs(data, OpponentBookId, kind.opponent);
    ChoiceTextsDiffer();
  }

  const ANSWERED := "bookranking.comparison.answered.v1"

  lemma TypeTextsDiffer()
    ensures var started, paused, resumed :=
              TypeText(PlacementStarted), TypeText(PlacementPaused), TypeText(PlacementResumed);
            && started != paused && started != resumed && paused != resumed
            && ANSWERED != started && ANSWERED != paused && ANSWERED != resumed
  {
    assert TypeText(PlacementStarted)[22] == 's' && TypeText(PlacementPaused)[22] == 'p'
        && TypeText(PlacementResumed)[22] == 'r';
    assert ANSWERED[12] == 'c' && TypeText(PlacementStarted)[12] == 'p' && TypeText(PlacementPaused)[12] == 'p'
           && TypeText(PlacementResumed)[12] == 'p';
  }

  lemma KindIs(ty: string, data: map<Member, Json>, kind: EventKind)
    ensures DecodeKind(ty, data) == Ok(kind) <==> ty == TypeText(kind) && SaysAnswer(data, kind)
  {
    TypeTextsDiffer();
    if kind.ComparisonAnswered? { AnswerIs(data, kind); }
  }

  lemma DecodeInIs(fields: Fields, id: Uuid, time: Instant, data: map<Member, Json>, e: RankingEvent)
    requires HasText(fields, Source) && HasText(fields, Subject) && HasText(fields, Type) && ReadableData(data)
    ensures DecodeIn(fields, id, time, data) == Ok(e) <==>
            && id == e.id && time == e.time && SaysData(data, e)
            && fields[Source].text == SourceText(e.reader) && fields[Subject].text == SubjectText(e.candidate)
            && fields[Type].text == TypeText(e.kind)
            && (SequenceName in fields ==> fields[SequenceName] == Text(WireKeys.Padded(e.sequence, 20)))
  {
    MemberUuidIs(data, ReaderId, e.reader);
    MemberUuidIs(data, CandidateBookId, e.candidate);
    MemberSequenceIs(data, e.sequence);
    KindIs(fields[Type].text, data, e.kind);
  }

  lemma FieldsAre(lib: Library, fields: Fields, e: RankingEvent)
    requires AllRequired(fields) && lib.parse(fields[Time].text).Some?
    ensures DecodeFields(lib, fields) == Ok(e) <==> Says(lib, fields, e)
  {
    if IsUuid(fields[Id].text) && Data in fields && fields[Data].Object? && ReadableData(fields[Data].members) {
      DecodeInIs(fields, fields[Id].text, lib.parse(fields[Time].text).value, fields[Data].members, e);
    }
  }

  /** A document is decoded as an event exactly when it says that event and its context is valid. */
  lemma DecodedExactly(lib: Library, document: Fields, e: RankingEvent)
    ensures DecodeEvent(lib, document) == Ok(e) <==>
            DataBase64 !in document && Says(lib, Present(document), e) && ValidContext(lib, Present(document))
  {
    var fields := Present(document);
    NoRequiredFault(fields);
    if AllRequired(fields) && lib.parse(fields[Time].text).Some? { FieldsAre(lib, fields, e); }
  }

  // ---------- Round trips ----------

  lemma CleanDigits(text: string)
    requires AllDigits(text)
    ensures CleanText(text)
  {
  }

  lemma DataSays(e: RankingEvent)
    ensures SaysData(DataOf(e), e)
  {
  }

  lemma EncodedSays(lib: Library, e: RankingEvent, fields: Fields)
    requires Faithful(lib) && EncodeEvent(lib, e) == Ok(fields)
    ensures Says(lib, fields, e)
  {
    DataSays(e);
    EncodedEnvelope(lib, e, fields);
  }

  lemma EncodedEnvelope(lib: Library, e: RankingEvent, fields: Fields)
    requires Faithful(lib) && EncodeEvent(lib, e) == Ok(fields)
    ensures AllRequired(fields) && SaysEnvelope(lib, fields, e)
  {
    assert lib.parse(lib.format(e.time)) == Some(e.time);
  }

  lemma EncodedContext(lib: Library, e: RankingEvent, fields: Fields)
    requires Faithful(lib) && EncodeEvent(lib, e) == Ok(fields) && AllRequired(fields)
    ensures ValidContext(lib, fields) && Present(fields) == fields && DataBase64 !in fields
  {
    EncodedExtensions(lib, e, fields);
    EncodedNames(lib, e, fields);
  }

  lemma EncodedNames(lib: Library, e: RankingEvent, fields: Fields)
    requires EncodeEvent(lib, e) == Ok(fields)
    ensures DataBase64 !in fields && DataSchema !in fields && TraceParent !in fields && TraceState !in fields
    ensures Present(fields) == fields
  {
  }

  lemma EncodedExtensions(lib: Library, e: RankingEvent, fields: Fields)
    requires EncodeEvent(lib, e) == Ok(fields)
    ensures ValidExtensions(fields)
  {
    CleanDigits(WireKeys.Padded(e.sequence, 20));
    assert ValidExtension(SequenceName, Text(WireKeys.Padded(e.sequence, 20)));
  }

  lemma DecodesWhenPresent(lib: Library, fields: Fields, e: RankingEvent)
    requires Present(fields) == fields && DataBase64 !in fields && Says(lib, fields, e) && ValidContext(lib, fields)
    ensures DecodeEvent(lib, fields) == Ok(e)
  {
    DecodedExactly(lib, fields, e);
  }

  /** Encoding fails only outside the years 0 to 9999, and what is encoded is decoded as the same event. */
  lemma RoundTrip(lib: Library, e: RankingEvent)
    requires Faithful(lib)
    ensures EncodeEvent(lib, e).Ok? <==> InRange(e.time)
    ensures InRange(e.time) ==> DecodeEvent(lib, EncodeEvent(lib, e).value) == Ok(e)
  {
    if InRange(e.time) {
      var fields := EncodeEvent(lib, e).value;
      EncodedSays(lib, e, fields);
      EncodedContext(lib, e, fields);
      DecodesWhenPresent(lib, fields, e);
    }
  }

  /** Different events are never encoded alike. */
  lemma EncodingIsInjective(lib: Library, e: RankingEvent, f: RankingEvent)
    requires Faithful(lib) && InRange(e.time) && InRange(f.time) && EncodeEvent(lib, e) == EncodeEvent(lib, f)
    ensures e == f
  {
    RoundTrip(lib, e);
    RoundTrip(lib, f);
  }

  /** A decoded document with its context kept; the sequence extension is written anew. */
  function EncodeDocument(lib: Library, document: Fields, e: RankingEvent): Fields {
    Present(document)[Time := Text(lib.format(e.time))][SequenceName := Text(WireKeys.Padded(e.sequence, 20))]
  }

  lemma RewrittenSays(lib: Library, fields: Fields, e: RankingEvent, again: Fields)
    requires Faithful(lib) && Says(lib, fields, e)
    requires again == fields[Time := Text(lib.format(e.time))][SequenceName := Text(WireKeys.Padded(e.sequence, 20))]
    ensures Says(lib, again, e)
  {
    assert lib.parse(lib.format(e.time)) == Some(e.time);
  }

  lemma RewrittenContext(lib: Library, fields: Fields, e: RankingEvent, again: Fields)
    requires AllRequired(fields) && AllRequired(again) && ValidContext(lib, fields)
    requires again == fields[Time := Text(lib.format(e.time))][SequenceName := Text(WireKeys.Padded(e.sequence, 20))]
    ensures ValidContext(lib, again)
  {
    CleanDigits(WireKeys.Padded(e.sequence, 20));
    forall name | name in again && !Reserved(name) ensures ValidExtension(name, again[name]) {
      assert Reserved(Time);
      if name != SequenceName { assert again[name] == fields[name]; }
    }
  }

  lemma RewrittenIsPresent(fields: Fields, time: string, sequence: string)
    ensures Present(Present(fields)[Time := Text(time)][SequenceName := Text(sequence)])
         == Present(fields)[Time := Text(time)][SequenceName := Text(sequence)]
  {
  }

  /** Encoding a decoded document again keeps the event and every other field. */
  lemma ReencodingKeepsTheEvent(lib: Library, document: Fields, e: RankingEvent)
    requires Faithful(lib) && DecodeEvent(lib, document) == Ok(e)
    ensures DecodeEvent(lib, EncodeDocument(lib, document, e)) == Ok(e)
    ensures forall name :: name in document && document[name] != Null && name != Time && name != SequenceName ==>
      name in EncodeDocument(lib, document, e) && EncodeDocument(lib, document, e)[name] == document[name]
  {
    DecodedExactly(lib, document, e);
    var again := EncodeDocument(lib, document, e);
    RewrittenIsPresent(document, lib.format(e.time), WireKeys.Padded(e.sequence, 20));
    RewrittenSays(lib, Present(document), e, again);
    RewrittenContext(lib, Present(document), e, again);
    DecodedExactly(lib, again, e);
  }
}
