/**
 Sequence numbers as database keys of twenty digits
 (book_smartz/storage/wire.rs).
 */
module WireKeys {
  import opened Outcomes
  import opened Decimals

  datatype KeyError = SequenceIsZero | InvalidKey | ExceedsU64

  /** The last width digits of a number, with leading zeros. */
  function Padded(value: nat, width: nat): (text: string)
    ensures |text| == width && AllDigits(text)
  {
    if width == 0 then "" else Padded(value / 10, width - 1) + [DigitOf(value % 10)]
  }

  function DigitOf(d: nat): (c: char)
    requires d < 10
    ensures IsDigit(c) && c as nat - '0' as nat == d
  {
    ('0' as nat + d) as char
  }

  function SequenceKey(value: nat): Result<string, KeyError>
    requires value <= U64_MAX
  {
    if value == 0 then Err(SequenceIsZero) else Ok(Padded(value, 20))
  }

  function ParseSequenceKey(text: string): Result<nat, KeyError> {
    if |text| != 20 || !AllDigits(text) then Err(InvalidKey)
    else if Number(text) > U64_MAX then Err(ExceedsU64)
    else if Number(text) == 0 then Err(SequenceIsZero)
    else Ok(Number(text))
  }

  lemma {:induction false} PaddedSpellsTheNumber(value: nat, width: nat)
    requires value < Power(width)
    ensures Number(Padded(value, width)) == value
    decreases width
  {
    if width > 0 {
      PaddedSpellsTheNumber(value / 10, width - 1);
      var front, text := Padded(value / 10, width - 1), Padded(value, width);
      assert text[..width - 1] == front;
      NumberOfPrefix(text, width - 1, width - 1);
    }
  }

  lemma TwentyDigitsHoldEveryWord()
    ensures Power(20) > U64_MAX
  {
    assert Power(10) == 10000000000 by { assert Power(5) == 100000; }
    assert Power(20) == 100000000000000000000 by { assert Power(15) == 1000000000000000; }
  }

  /** A written key is read back as the same number. */
  lemma KeyRoundTrip(value: nat)
    requires 0 < value <= U64_MAX
    ensures SequenceKey(value).Ok? && ParseSequenceKey(SequenceKey(value).value) == Ok(value)
  {
    TwentyDigitsHoldEveryWord();
    PaddedSpellsTheNumber(value, 20);
  }

  /** Every text that is accepted is the key of the number it is read as. */
  lemma AcceptedKeysAreCanonical(text: string)
    requires ParseSequenceKey(text).Ok?
    ensures var value := ParseSequenceKey(text).value;
            0 < value <= U64_MAX && SequenceKey(value) == Ok(text)
  {
    var value := ParseSequenceKey(text).value;
    TwentyDigitsHoldEveryWord();
    PaddedSpellsTheNumber(value, 20);
    SameLengthSameNumber(text, Padded(value, 20), 20);
    assert text == Padded(value, 20);
  }

  /** Comparison of texts: at the first place where they differ. */
  ghost predicate TextLess(s: string, t: string)
    requires |s| == |t|
  {
    exists k :: 0 <= k < |s| && s[..k] == t[..k] && s[k] < t[k]
  }

  lemma {:induction false} FirstDifferenceDecides(s: string, t: string, first: nat, k: nat)
    requires AllDigits(s) && AllDigits(t) && |s| == |t| && first < k <= |s|
    requires s[..first] == t[..first] && s[first] < t[first]
    ensures NumberUpTo(s, k) < NumberUpTo(t, k)
    decreases k
  {
    if k == first + 1 {
      NumberOfPrefix(s, first, first);
      NumberOfPrefix(t, first, first);
    } else {
      FirstDifferenceDecides(s, t, first, k - 1);
    }
  }

  /** Texts of digits of equal length compare as their numbers. */
  lemma TextsCompareAsNumbers(s: string, t: string)
    requires AllDigits(s) && AllDigits(t) && |s| == |t|
    ensures TextLess(s, t) <==> Number(s) < Number(t)
  {
    if TextLess(s, t) {
      var k :| 0 <= k < |s| && s[..k] == t[..k] && s[k] < t[k];
      FirstDifferenceDecides(s, t, k, |s|);
    }
    if Number(s) < Number(t) {
      SmallerNumberIsLess(s, t);
    }
  }

  lemma SmallerNumberIsLess(s: string, t: string)
    requires AllDigits(s) && AllDigits(t) && |s| == |t| && Number(s) < Number(t)
    ensures TextLess(s, t)
  {
    assert s != t;
    var k := FirstDifference(s, t, 0);
    if t[k] < s[k] {
      FirstDifferenceDecides(t, s, k, |s|);
    }
  }

  /** Keys compare as texts exactly as the numbers compare. */
  lemma KeysSortAsNumbers(a: nat, b: nat)
    requires 0 < a <= U64_MAX && 0 < b <= U64_MAX
    ensures SequenceKey(a).Ok? && SequenceKey(b).Ok?
    ensures TextLess(SequenceKey(a).value, SequenceKey(b).value) <==> a < b
  {
    TwentyDigitsHoldEveryWord();
    PaddedSpellsTheNumber(a, 20);
    PaddedSpellsTheNumber(b, 20);
    TextsCompareAsNumbers(Padded(a, 20), Padded(b, 20));
  }

  /** The first place from here on where the texts differ. */
  function FirstDifference(s: string, t: string, from: nat): (k: nat)
    requires |s| == |t| && from <= |s| && s[..from] == t[..from]
    requires exists i :: from <= i < |s| && s[i] != t[i]
    ensures k < |s| && s[k] != t[k] && s[..k] == t[..k]
    decreases |s| - from
  {
    if s[from] != t[from] then from else
      assert s[..from + 1] == s[..from] + [s[from]] && t[..from + 1] == t[..from] + [t[from]];
      FirstDifference(s, t, from + 1)
  }
}
