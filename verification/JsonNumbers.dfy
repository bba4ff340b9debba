/**
 The canonical form of JSON number texts (normalized_number and
 numbers_preserved in book_smartz/storage/application.rs): it exists exactly
 while the exponents stay in 64 bits, and it identifies the rational denoted.
 */
module JsonNumbers {
  import opened Outcomes
  import opened Decimals

  const I64_MAX := 0x7FFF_FFFF_FFFF_FFFF

  // ---------- Reading a text ----------

  function SplitOnce(text: string, separators: set<char>): Option<(string, string)> {
    if text == "" then None
    else if text[0] in separators then Some(("", text[1..]))
    else match SplitOnce(text[1..], separators)
         case Some(parts) => Some(([text[0]] + parts.0, parts.1))
         case None => None
  }

  function WithoutDots(text: string): string {
    if text == "" then "" else (if text[0] == '.' then "" else [text[0]]) + WithoutDots(text[1..])
  }

  function InI64(x: int): Option<int> {
    if -I64_MAX - 1 <= x <= I64_MAX then Some(x) else None
  }

  function Signed(negative: bool, magnitude: int): int {
    if negative then -magnitude else magnitude
  }

  /** A signed decimal text as a 64-bit integer, if it is one and fits. */
  function ParseI64(text: string): Option<int> {
    if text == "" then None else
      var digits := if text[0] == '-' || text[0] == '+' then text[1..] else text;
      if digits == "" || !AllDigits(digits) then None
      else InI64(Signed(text[0] == '-', Number(digits)))
  }

  datatype Normalized = Normalized(negative: bool, digits: string, exponent: int)

  function NormalizedNumber(text: string): Option<Normalized> {
    var (mantissa, exponent) := match SplitOnce(text, {'e', 'E'}) case Some(parts) => parts case None => (text, "0");
    Normalize(mantissa != "" && mantissa[0] == '-', WithoutDots(TrimStart(mantissa, '-')), FractionLength(mantissa),
              exponent)
  }

  function FractionLength(mantissa: string): nat {
    match SplitOnce(mantissa, {'.'}) case Some(parts) => |parts.1| case None => 0
  }

  function Normalize(negative: bool, digits: string, fraction: nat, exponent: string): Option<Normalized> {
    var significant := TrimStart(digits, '0');
    if significant == "" then Some(Normalized(false, "0", 0)) else
      var trimmed := TrimEnd(significant, '0');
      match FinalExponent(exponent, fraction, |significant| - |trimmed|)
      case Some(final) => Some(Normalized(negative, trimmed, final))
      case None => None
  }

  /** Every intermediate result has to be a 64-bit integer. */
  function FinalExponent(exponent: string, fraction: nat, zeros: nat): Option<int> {
    if ParseI64(exponent).None? || InI64(fraction).None? then None
    else if InI64(ParseI64(exponent).value - fraction).None? || InI64(zeros).None? then None
    else InI64(ParseI64(exponent).value - fraction + zeros)
  }

  // ---------- Number texts and what they denote ----------

  datatype Exponent = NoExponent | Exponent(marker: char, sign: string, digits: string)

  /** A number by section 6 of RFC 8259; a fraction of no digits stands for no fraction. */
  datatype JsonNumber = JsonNumber(negative: bool, whole: string, fraction: string, exponent: Exponent)

  predicate Valid(n: JsonNumber) {
    && AllDigits(n.whole) && n.whole != "" && (n.whole[0] == '0' ==> n.whole == "0")
    && AllDigits(n.fraction)
    && (n.exponent.Exponent? ==>
          (n.exponent.marker in {'e', 'E'} && n.exponent.sign in {"", "+", "-"}
           && n.exponent.digits != "" && AllDigits(n.exponent.digits)))
  }

  function MantissaText(n: JsonNumber): string {
    (if n.negative then "-" else "") + n.whole + (if n.fraction == "" then "" else "." + n.fraction)
  }

  function ExponentText(n: JsonNumber): string {
    match n.exponent case NoExponent => "0" case Exponent(_, sign, digits) => sign + digits
  }

  function Text(n: JsonNumber): string {
    MantissaText(n) + match n.exponent
      case NoExponent => ""
      case Exponent(marker, sign, digits) => [marker] + sign + digits
  }

  /** The written exponent. */
  function Written(n: JsonNumber): int
    requires Valid(n)
  {
    match n.exponent case NoExponent => 0 case Exponent(_, sign, digits) => Signed(sign == "-", Number(digits))
  }

  function Digits(n: JsonNumber): string {
    n.whole + n.fraction
  }

  lemma DigitsOfBoth(n: JsonNumber)
    requires Valid(n)
    ensures AllDigits(Digits(n))
  {
  }

  ghost function Denoted(negative: bool, digits: string, e: int): real
    requires AllDigits(digits)
  {
    Scaled(Signed(negative, Number(digits)), e)
  }

  /** The rational that a number text denotes. */
  ghost function Value(n: JsonNumber): real
    requires Valid(n)
  {
    DigitsOfBoth(n);
    Denoted(n.negative, Digits(n), Written(n) - |n.fraction|)
  }

  // ---------- The text is read as written ----------

  lemma {:induction false} SplitAt(before: string, c: char, after: string, separators: set<char>)
    requires c in separators && forall x :: x in before ==> x !in separators
    ensures SplitOnce(before + [c] + after, separators) == Some((before, after))
    decreases |before|
  {
    var text := before + [c] + after;
    if before == "" {
      assert text[1..] == after;
    } else {
      assert before[0] in before;
      assert text[1..] == before[1..] + [c] + after;
      SplitAt(before[1..], c, after, separators);
      assert [before[0]] + before[1..] == before;
    }
  }

  lemma {:induction false} NoSplit(text: string, separators: set<char>)
    requires forall x :: x in text ==> x !in separators
    ensures SplitOnce(text, separators) == None
    decreases |text|
  {
    if text != "" {
      assert text[0] in text;
      NoSplit(text[1..], separators);
    }
  }

  lemma {:induction false} DotsGo(before: string, after: string)
    requires AllDigits(before)
    ensures WithoutDots(before + after) == before + WithoutDots(after)
    decreases |before|
  {
    if before == "" {
      assert before + after == after;
    } else {
      assert before[0] in before;
      assert (before + after)[1..] == before[1..] + after;
      DotsGo(before[1..], after);
    }
  }

  lemma ExponentIsRead(n: JsonNumber)
    requires Valid(n)
    ensures ParseI64(ExponentText(n)) == InI64(Written(n))
  {
    match n.exponent
    case NoExponent =>
      ZeroIsZero();
    case Exponent(_, sign, digits) =>
      assert digits[0] in digits;
      if sign == "" {
        assert sign + digits == digits;
      } else {
        assert (sign + digits)[1..] == digits && (sign + digits)[0] == sign[0];
      }
  }

  function Unsigned(n: JsonNumber): string {
    n.whole + if n.fraction == "" then "" else "." + n.fraction
  }

  lemma SignIsRead(n: JsonNumber)
    requires Valid(n)
    ensures MantissaText(n)[0] == '-' <==> n.negative
    ensures TrimStart(MantissaText(n), '-') == Unsigned(n)
  {
    var m, rest := MantissaText(n), Unsigned(n);
    assert rest[0] == n.whole[0] && n.whole[0] in n.whole;
    assert m == (if n.negative then "-" else "") + rest;
    if n.negative {
      assert m[0] == '-' && m[1..] == rest;
    } else {
      assert m == rest;
    }
  }

  lemma OneDotGoes(fraction: string)
    requires AllDigits(fraction)
    ensures WithoutDots("." + fraction) == fraction
  {
    DotsGo(fraction, "");
    assert fraction + "" == fraction;
    assert ("." + fraction)[1..] == fraction;
  }

  lemma DigitsAreRead(n: JsonNumber)
    requires Valid(n)
    ensures WithoutDots(Unsigned(n)) == Digits(n)
  {
    if n.fraction == "" {
      DotsGo(n.whole, "");
    } else {
      DotsGo(n.whole, "." + n.fraction);
      OneDotGoes(n.fraction);
    }
  }

  lemma FractionIsRead(n: JsonNumber)
    requires Valid(n)
    ensures FractionLength(MantissaText(n)) == |n.fraction|
  {
    var m, before := MantissaText(n), (if n.negative then "-" else "") + n.whole;
    if n.fraction == "" {
      assert m == before;
      NoSplit(m, {'.'});
    } else {
      assert m == before + ['.'] + n.fraction;
      SplitAt(before, '.', n.fraction, {'.'});
    }
  }

  lemma TextIsSplit(n: JsonNumber)
    requires Valid(n)
    ensures (match SplitOnce(Text(n), {'e', 'E'}) case Some(parts) => parts case None => (Text(n), "0")) ==
      (MantissaText(n), ExponentText(n))
  {
    var m := MantissaText(n);
    assert forall c :: c in m ==> IsDigit(c) || c == '-' || c == '.';
    match n.exponent
    case NoExponent =>
      assert Text(n) == m;
      NoSplit(m, {'e', 'E'});
    case Exponent(marker, sign, digits) =>
      assert Text(n) == m + [marker] + (sign + digits);
      SplitAt(m, marker, sign + digits, {'e', 'E'});
  }

  /** A valid text is taken apart into its sign, digits, fraction and exponent. */
  lemma TextIsRead(n: JsonNumber)
    requires Valid(n)
    ensures NormalizedNumber(Text(n)) == Normalize(n.negative, Digits(n), |n.fraction|, ExponentText(n))
  {
    TextIsSplit(n);
    SignIsRead(n);
    DigitsAreRead(n);
    FractionIsRead(n);
  }

  // ---------- The canonical form ----------

  /** How many zeros end the digits after the leading ones. */
  function EndingZeros(digits: string): nat {
    |TrimStart(digits, '0')| - |TrimEnd(TrimStart(digits, '0'), '0')|
  }

  predicate Fits(x: int) {
    -I64_MAX - 1 <= x <= I64_MAX
  }

  predicate AllFit(written: int, fraction: nat, zeros: nat) {
    && Fits(written) && Fits(fraction) && Fits(written - fraction)
    && Fits(zeros) && Fits(written - fraction + zeros)
  }

  lemma FinalExponentWhenAllFit(exponent: string, written: int, fraction: nat, zeros: nat)
    requires ParseI64(exponent) == InI64(written)
    ensures FinalExponent(exponent, fraction, zeros) ==
            if AllFit(written, fraction, zeros) then Some(written - fraction + zeros) else None
  {
  }

  function Kept(digits: string): string {
    TrimEnd(TrimStart(digits, '0'), '0')
  }

  lemma NormalizeIs(negative: bool, digits: string, fraction: nat, exponent: string, written: int)
    requires ParseI64(exponent) == InI64(written)
    ensures TrimStart(digits, '0') == "" ==>
      Normalize(negative, digits, fraction, exponent) == Some(Normalized(false, "0", 0))
    ensures TrimStart(digits, '0') != "" && AllFit(written, fraction, EndingZeros(digits)) ==>
      Normalize(negative, digits, fraction, exponent) ==
      Some(Normalized(negative, Kept(digits), written - fraction + EndingZeros(digits)))
    ensures TrimStart(digits, '0') != "" && !AllFit(written, fraction, EndingZeros(digits)) ==>
      Normalize(negative, digits, fraction, exponent) == None
  {
    FinalExponentWhenAllFit(exponent, written, fraction, EndingZeros(digits));
  }

  /** There is a canonical form exactly for zero and for numbers whose exponents all fit. */
  lemma NormalizedExactlyWhenItFits(n: JsonNumber)
    requires Valid(n)
    ensures NormalizedNumber(Text(n)).Some? <==>
            Number(Digits(n)) == 0 || AllFit(Written(n), |n.fraction|, EndingZeros(Digits(n)))
  {
    TextIsRead(n);
    ExponentIsRead(n);
    NormalizeIs(n.negative, Digits(n), |n.fraction|, ExponentText(n), Written(n));
    ZeroHasNoSignificantDigits(Digits(n));
  }

  lemma ZeroHasNoSignificantDigits(digits: string)
    requires AllDigits(digits)
    ensures Number(digits) == 0 <==> TrimStart(digits, '0') == ""
  {
    TrimStartIs(digits, '0');
    OnlyZerosAreZero(digits, |digits|);
    var significant := TrimStart(digits, '0');
    if significant != "" {
      assert digits[|digits| - |significant|] == significant[0];
    }
  }

  predicate IsCanonical(c: Normalized) {
    || c == Normalized(false, "0", 0)
    || (AllDigits(c.digits) && c.digits != "" && c.digits[0] != '0' && c.digits[|c.digits| - 1] != '0')
  }

  ghost function CanonicalValue(c: Normalized): real
    requires AllDigits(c.digits)
  {
    Denoted(c.negative, c.digits, c.exponent)
  }

  lemma SignedProduct(negative: bool, a: nat, b: nat)
    ensures Signed(negative, a * b) == Signed(negative, a) * b
  {
  }

  lemma ZeroIsZero()
    ensures AllDigits("0") && Number("0") == 0
  {
    OnlyZerosAreZero("0", 1);
  }

  lemma KeptValue(digits: string)
    requires AllDigits(digits)
    ensures AllDigits(Kept(digits)) && Number(digits) == Number(Kept(digits)) * Power(EndingZeros(digits))
  {
    var significant, kept := TrimStart(digits, '0'), Kept(digits);
    TrimStartIs(digits, '0');
    LeadingZeros(digits, |digits| - |significant|, |digits|);
    TrimEndIs(significant, '0');
    TrailingZeros(significant, |kept|, |significant|);
    NumberOfPrefix(significant, |kept|, |kept|);
  }

  lemma KeptScaled(negative: bool, digits: string, e: int)
    requires AllDigits(digits)
    ensures AllDigits(Kept(digits))
    ensures Scaled(Signed(negative, Number(digits)), e) ==
      Scaled(Signed(negative, Number(Kept(digits))), e + EndingZeros(digits))
  {
    KeptValue(digits);
    SignedProduct(negative, Number(Kept(digits)), Power(EndingZeros(digits)));
    Shift(Signed(negative, Number(Kept(digits))), EndingZeros(digits), e);
  }

  lemma KeptIsCanonical(digits: string)
    requires AllDigits(digits) && TrimStart(digits, '0') != ""
    ensures AllDigits(Kept(digits)) && Kept(digits) != "" && Kept(digits)[0] != '0'
    ensures Kept(digits)[|Kept(digits)| - 1] != '0'
  {
    KeptValue(digits);
    TrimStartIs(digits, '0');
    TrimEndIs(TrimStart(digits, '0'), '0');
  }

  /** The zeros that are trimmed move into the exponent. */
  lemma CanonicalDigits(negative: bool, digits: string, e: int, c: Normalized)
    requires AllDigits(digits) && TrimStart(digits, '0') != ""
    requires c.negative == negative && c.digits == Kept(digits) && c.exponent == e + EndingZeros(digits)
    ensures HasValue(c, Denoted(negative, digits, e))
  {
    KeptScaled(negative, digits, e);
    KeptIsCanonical(digits);
  }

  ghost predicate HasValue(c: Normalized, value: real) {
    IsCanonical(c) && AllDigits(c.digits) && CanonicalValue(c) == value
  }

  lemma ZeroDigits(negative: bool, digits: string, e: int)
    requires AllDigits(digits) && TrimStart(digits, '0') == ""
    ensures HasValue(Normalized(false, "0", 0), Denoted(negative, digits, e))
  {
    ZeroHasNoSignificantDigits(digits);
    ZeroIsZero();
    ScaledZero(e);
  }

  lemma NormalizeKeepsTheValue(negative: bool, digits: string, fraction: nat, exponent: string, written: int,
                               c: Normalized)
    requires AllDigits(digits) && ParseI64(exponent) == InI64(written)
    requires Normalize(negative, digits, fraction, exponent) == Some(c)
    ensures HasValue(c, Denoted(negative, digits, written - fraction))
  {
    NormalizeIs(negative, digits, fraction, exponent, written);
    if TrimStart(digits, '0') == "" {
      ZeroDigits(negative, digits, written - fraction);
    } else {
      CanonicalDigits(negative, digits, written - fraction, c);
    }
  }

  lemma SameDenotation(n: JsonNumber, c: Normalized, digits: string)
    requires Valid(n) && AllDigits(digits) && digits == Digits(n)
    requires HasValue(c, Denoted(n.negative, digits, Written(n) - |n.fraction|))
    ensures HasValue(c, Value(n))
  {
  }

  /** The canonical form has the value of the text. */
  lemma NormalizationKeepsTheValue(n: JsonNumber)
    requires Valid(n) && NormalizedNumber(Text(n)).Some?
    ensures HasValue(NormalizedNumber(Text(n)).value, Value(n))
  {
    TextIsRead(n);
    ExponentIsRead(n);
    DigitsOfBoth(n);
    PartsKeepTheValue(n, Digits(n), ExponentText(n), Written(n), NormalizedNumber(Text(n)).value);
  }

  lemma PartsKeepTheValue(n: JsonNumber, digits: string, exponent: string, written: int, c: Normalized)
    requires Valid(n) && AllDigits(digits) && digits == Digits(n) && written == Written(n)
    requires ParseI64(exponent) == InI64(written) && Normalize(n.negative, digits, |n.fraction|, exponent) == Some(c)
    ensures HasValue(c, Value(n))
  {
    NormalizeKeepsTheValue(n.negative, digits, |n.fraction|, exponent, written, c);
    SameDenotation(n, c, digits);
  }

  /** A canonical form is determined by its value. */
  lemma CanonicalFormsAreUnique(a: Normalized, b: Normalized)
    requires IsCanonical(a) && IsCanonical(b) && AllDigits(a.digits) && AllDigits(b.digits)
    requires CanonicalValue(a) == CanonicalValue(b)
    ensures a == b
  {
    if a.digits == "0" {
      OnlyZeroIsZero(a);
      OnlyZeroIsZero(b);
    } else if b.digits == "0" {
      OnlyZeroIsZero(a);
      OnlyZeroIsZero(b);
    } else {
      LastDigitStays(a.digits);
      LastDigitStays(b.digits);
      NoTensFactor(a);
      NoTensFactor(b);
      SameValue(Signed(a.negative, Number(a.digits)), a.exponent, Signed(b.negative, Number(b.digits)), b.exponent);
      SameNumber(a.digits, b.digits);
    }
  }

  lemma LastDigitStays(digits: string)
    requires AllDigits(digits) && digits != "" && digits[|digits| - 1] != '0'
    ensures Number(digits) % 10 != 0 && Number(digits) > 0
  {
  }

  lemma NoTensFactor(c: Normalized)
    requires AllDigits(c.digits) && Number(c.digits) % 10 != 0
    ensures Signed(c.negative, Number(c.digits)) % 10 != 0
  {
  }

  lemma OnlyZeroIsZero(c: Normalized)
    requires IsCanonical(c) && AllDigits(c.digits)
    ensures CanonicalValue(c) == 0.0 <==> c == Normalized(false, "0", 0)
  {
    ZeroIsZero();
    ScaledZero(c.exponent);
    if c != Normalized(false, "0", 0) {
      LastDigitStays(c.digits);
      if CanonicalValue(c) == 0.0 { ScaledIsInjective(Signed(c.negative, Number(c.digits)), 0, c.exponent); }
    }
  }

  /** Two texts get the same canonical form exactly when they denote the same rational. */
  lemma CanonicalForm(a: JsonNumber, b: JsonNumber)
    requires Valid(a) && Valid(b) && NormalizedNumber(Text(a)).Some? && NormalizedNumber(Text(b)).Some?
    ensures NormalizedNumber(Text(a)) == NormalizedNumber(Text(b)) <==> Value(a) == Value(b)
  {
    NormalizationKeepsTheValue(a);
    NormalizationKeepsTheValue(b);
    if Value(a) == Value(b) {
      CanonicalFormsAreUnique(NormalizedNumber(Text(a)).value, NormalizedNumber(Text(b)).value);
    }
  }

  // ---------- Whole documents ----------

  /** A document as it is written: every number with its text. */
  datatype Document =
    | WrittenNumber(number: JsonNumber)
    | WrittenArray(items: seq<Document>)
    | WrittenObject(names: seq<string>, items: seq<Document>)
    | WrittenOther

  /** A document as it was parsed: every number with the text it is printed as. */
  datatype Parsed =
    | ParsedNumber(number: JsonNumber)
    | ParsedArray(items: seq<Parsed>)
    | ParsedObject(fields: map<string, Parsed>)
    | ParsedOther

  predicate WellWritten(text: Document) {
    match text
    case WrittenNumber(number) => Valid(number)
    case WrittenArray(items) => forall i :: 0 <= i < |items| ==> WellWritten(items[i])
    case WrittenObject(names, items) => |names| == |items| && forall i :: 0 <= i < |items| ==> WellWritten(items[i])
    case WrittenOther => true
  }

  /** Parsing keeps the shape: the kinds, the lengths and the names. */
  predicate SameShape(text: Document, value: Parsed)
    requires WellWritten(text)
    decreases text
  {
    match value
    case ParsedNumber(number) => text.WrittenNumber? && Valid(number)
    case ParsedArray(items) =>
      && text.WrittenArray? && |text.items| == |items|
      && forall i :: 0 <= i < |items| ==> SameShape(text.items[i], items[i])
    case ParsedObject(fields) =>
      text.WrittenObject?
      && forall i :: 0 <= i < |text.items| ==>
        text.names[i] in fields && SameShape(text.items[i], fields[text.names[i]])
    case ParsedOther => text.WrittenOther?
  }

  predicate NumberPreserved(original: JsonNumber, stored: JsonNumber) {
    var a, b := NormalizedNumber(Text(original)), NormalizedNumber(Text(stored));
    a.Some? && b.Some? && a == b
  }

  predicate NumbersPreserved(text: Document, value: Parsed)
    requires WellWritten(text) && SameShape(text, value)
    decreases text
  {
    match value
    case ParsedNumber(number) => NumberPreserved(text.number, number)
    case ParsedArray(items) => forall i :: 0 <= i < |items| ==> NumbersPreserved(text.items[i], items[i])
    case ParsedObject(fields) =>
      forall i :: 0 <= i < |text.items| ==> NumbersPreserved(text.items[i], fields[text.names[i]])
    case ParsedOther => true
  }

  /** Every number of the document has a canonical form and keeps its exact value. */
  ghost predicate ValuesKept(text: Document, value: Parsed)
    requires WellWritten(text) && SameShape(text, value)
    decreases text
  {
    match value
    case ParsedNumber(number) =>
      HasCanonicalForm(text.number) && HasCanonicalForm(number) && Value(text.number) == Value(number)
    case ParsedArray(items) => forall i :: 0 <= i < |items| ==> ValuesKept(text.items[i], items[i])
    case ParsedObject(fields) => forall i :: 0 <= i < |text.items| ==> ValuesKept(text.items[i], fields[text.names[i]])
    case ParsedOther => true
  }

  predicate HasCanonicalForm(n: JsonNumber)
    requires Valid(n)
  {
    DigitsOfBoth(n);
    Number(Digits(n)) == 0 || AllFit(Written(n), |n.fraction|, EndingZeros(Digits(n)))
  }

  /** A document is accepted exactly when every number keeps its exact value and has exponents that fit. */
  lemma {:induction false} AcceptedExactlyWhenValuesAreKept(text: Document, value: Parsed)
    requires WellWritten(text) && SameShape(text, value)
    ensures NumbersPreserved(text, value) <==> ValuesKept(text, value)
    decreases text
  {
    match value
    case ParsedNumber(number) =>
      NormalizedExactlyWhenItFits(text.number);
      NormalizedExactlyWhenItFits(number);
      if HasCanonicalForm(text.number) && HasCanonicalForm(number) { CanonicalForm(text.number, number); }
    case ParsedArray(items) =>
      forall i | 0 <= i < |items|
        ensures NumbersPreserved(text.items[i], items[i]) <==> ValuesKept(text.items[i], items[i])
      {
        AcceptedExactlyWhenValuesAreKept(text.items[i], items[i]);
      }
    case ParsedObject(fields) =>
      forall i | 0 <= i < |text.items|
        ensures NumbersPreserved(text.items[i], fields[text.names[i]]) <==>
          ValuesKept(text.items[i], fields[text.names[i]])
      {
        AcceptedExactlyWhenValuesAreKept(text.items[i], fields[text.names[i]]);
      }
    case ParsedOther =>
  }
}
