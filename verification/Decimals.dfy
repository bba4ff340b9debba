/**
 Decimal texts: the value of a string of digits, trimming of zeros, and scaling
 by powers of ten.
 */
module Decimals {
  predicate IsDigit(c: char) {
    '0' <= c <= '9'
  }

  predicate AllDigits(s: string) {
    forall i :: 0 <= i < |s| ==> IsDigit(s[i])
  }

  /** The number that the first k characters of a string of digits spell. */
  function NumberUpTo(s: string, k: nat): nat
    requires AllDigits(s) && k <= |s|
  {
    if k == 0 then 0 else 10 * NumberUpTo(s, k - 1) + (s[k - 1] as nat - '0' as nat)
  }

  /** The number that a string of digits spells. */
  function Number(s: string): nat
    requires AllDigits(s)
  {
    NumberUpTo(s, |s|)
  }

  function Power(k: nat): (p: nat)
    ensures p >= 1
  {
    if k == 0 then 1 else 10 * Power(k - 1)
  }

  function TrimStart(s: string, c: char): (t: string)
    ensures |t| <= |s|
  {
    if s != "" && s[0] == c then TrimStart(s[1..], c) else s
  }

  function TrimEnd(s: string, c: char): (t: string)
    ensures |t| <= |s|
  {
    if s != "" && s[|s| - 1] == c then TrimEnd(s[..|s| - 1], c) else s
  }

  /** Trimming the start takes away the longest run of the character there. */
  lemma {:induction false} TrimStartIs(s: string, c: char)
    ensures var t := TrimStart(s, c);
            && t == s[|s| - |t|..]
            && (forall i :: 0 <= i < |s| - |t| ==> s[i] == c)
            && (t != "" ==> t[0] != c)
    decreases |s|
  {
    if s != "" && s[0] == c { TrimStartIs(s[1..], c); }
  }

  /** Trimming the end takes away the longest run of the character there. */
  lemma {:induction false} TrimEndIs(s: string, c: char)
    ensures var t := TrimEnd(s, c);
            && t == s[..|t|]
            && (forall i :: |t| <= i < |s| ==> s[i] == c)
            && (t != "" ==> t[|t| - 1] != c)
    decreases |s|
  {
    if s != "" && s[|s| - 1] == c { TrimEndIs(s[..|s| - 1], c); }
  }

  // ---------- Digits and their number ----------

  lemma {:induction false} NumberIsBelow(s: string, k: nat)
    requires AllDigits(s) && k <= |s|
    ensures NumberUpTo(s, k) < Power(k)
  {
    if k > 0 { NumberIsBelow(s, k - 1); }
  }

  lemma {:induction false} PowerMonotone(a: nat, b: nat)
    requires a <= b
    ensures Power(a) <= Power(b)
    decreases b
  {
    if a < b { PowerMonotone(a, b - 1); }
  }

  /** A first digit other than zero is worth at least its place. */
  lemma {:induction false} NumberIsAtLeast(s: string, k: nat)
    requires AllDigits(s) && 0 < k <= |s| && s[0] != '0'
    ensures NumberUpTo(s, k) >= Power(k - 1)
  {
    if k == 1 {
      assert s[0] > '0';
    } else {
      NumberIsAtLeast(s, k - 1);
    }
  }

  /** Leading zeros do not change the number. */
  lemma {:induction false} LeadingZeros(s: string, zeros: nat, k: nat)
    requires AllDigits(s) && zeros <= k <= |s| && forall i :: 0 <= i < zeros ==> s[i] == '0'
    ensures AllDigits(s[zeros..]) && NumberUpTo(s, k) == NumberUpTo(s[zeros..], k - zeros)
  {
    if k == zeros {
      if k > 0 {
        LeadingZeros(s, zeros - 1, zeros - 1);
        assert s[zeros - 1] == '0';
      }
    } else {
      LeadingZeros(s, zeros, k - 1);
    }
  }

  lemma {:induction false} NumberOfPrefix(s: string, k: nat, j: nat)
    requires AllDigits(s) && j <= k <= |s|
    ensures NumberUpTo(s[..k], j) == NumberUpTo(s, j)
  {
    if j > 0 { NumberOfPrefix(s, k, j - 1); }
  }

  /** Each trailing zero multiplies by ten. */
  lemma {:induction false} TrailingZeros(s: string, kept: nat, k: nat)
    requires AllDigits(s) && kept <= k <= |s| && forall i :: kept <= i < k ==> s[i] == '0'
    ensures NumberUpTo(s, k) == NumberUpTo(s, kept) * Power(k - kept)
  {
    if k > kept {
      TrailingZeros(s, kept, k - 1);
      TimesTen(NumberUpTo(s, kept), Power(k - 1 - kept));
    }
  }

  lemma TimesTen(x: int, p: nat)
    ensures 10 * (x * p) == x * (10 * p)
  {
  }

  /** Digits in the same places that spell the same number are equal. */
  lemma {:induction false} SameLengthSameNumber(s: string, t: string, k: nat)
    requires AllDigits(s) && AllDigits(t) && k <= |s| && k <= |t| && NumberUpTo(s, k) == NumberUpTo(t, k)
    ensures forall i :: 0 <= i < k ==> s[i] == t[i]
  {
    if k > 0 { SameLengthSameNumber(s, t, k - 1); }
  }

  /** Without leading zeros the digits are determined by the number. */
  lemma SameNumber(s: string, t: string)
    requires AllDigits(s) && AllDigits(t) && Number(s) == Number(t)
    requires s != "" && s[0] != '0' && t != "" && t[0] != '0'
    ensures s == t
  {
    NumberIsBelow(s, |s|);
    NumberIsBelow(t, |t|);
    NumberIsAtLeast(s, |s|);
    NumberIsAtLeast(t, |t|);
    if |s| < |t| { PowerMonotone(|s|, |t| - 1); }
    if |t| < |s| { PowerMonotone(|t|, |s| - 1); }
    SameLengthSameNumber(s, t, |s|);
  }

  /** Zero is spelled by zeros alone. */
  lemma {:induction false} OnlyZerosAreZero(s: string, k: nat)
    requires AllDigits(s) && k <= |s|
    ensures NumberUpTo(s, k) == 0 <==> forall i :: 0 <= i < k ==> s[i] == '0'
  {
    if k > 0 { OnlyZerosAreZero(s, k - 1); }
  }

  // ---------- Scaling by powers of ten ----------

  /** A whole number times ten to any exponent, also a negative one. */
  function Scaled(m: int, e: int): real
    decreases if e < 0 then -e else e
  {
    if e == 0 then m as real else if e > 0 then Scaled(10 * m, e - 1) else Scaled(m, e + 1) / 10.0
  }

  lemma {:induction false} ScaledTenTimes(m: int, e: int)
    ensures Scaled(10 * m, e) == 10.0 * Scaled(m, e)
    decreases if e < 0 then -e else e
  {
    if e > 0 { ScaledTenTimes(10 * m, e - 1); }
    if e < 0 { ScaledTenTimes(m, e + 1); }
  }

  lemma TenMovesIntoTheExponent(m: int, e: int)
    ensures Scaled(10 * m, e) == Scaled(m, e + 1)
  {
    if e < 0 { ScaledTenTimes(m, e + 1); }
  }

  /** Any power of ten can move from the number into the exponent. */
  lemma {:induction false} Shift(m: int, k: nat, e: int)
    ensures Scaled(m * Power(k), e) == Scaled(m, e + k)
    decreases k
  {
    if k == 0 {
      assert m * Power(0) == m;
    } else {
      TenMovesIntoTheExponent(m * Power(k - 1), e);
      TimesTen(m, Power(k - 1));
      Shift(m, k - 1, e + 1);
    }
  }

  lemma {:induction false} ScaledIsInjective(m: int, n: int, e: int)
    requires Scaled(m, e) == Scaled(n, e)
    ensures m == n
    decreases if e < 0 then -e else e
  {
    if e > 0 { ScaledIsInjective(10 * m, 10 * n, e - 1); }
    if e < 0 { ScaledIsInjective(m, n, e + 1); }
  }

  lemma {:induction false} ScaledZero(e: int)
    ensures Scaled(0, e) == 0.0
    decreases if e < 0 then -e else e
  {
    if e > 0 { ScaledZero(e - 1); }
    if e < 0 { ScaledZero(e + 1); }
  }

  /** Numbers without a factor of ten give the same value only with the same exponent. */
  lemma SameValue(m: int, e: int, n: int, f: int)
    requires m % 10 != 0 && n % 10 != 0 && Scaled(m, e) == Scaled(n, f)
    ensures m == n && e == f
  {
    if e <= f {
      SmallerExponent(m, e, n, f - e);
    } else {
      SmallerExponent(n, f, m, e - f);
    }
  }

  lemma SmallerExponent(m: int, e: int, n: int, k: nat)
    requires m % 10 != 0 && Scaled(m, e) == Scaled(n, e + k)
    ensures k == 0 && m == n
  {
    Shift(n, k, e);
    ScaledIsInjective(m, n * Power(k), e);
    if k > 0 { TensFactor(n, k); }
  }

  lemma TensFactor(n: int, k: nat)
    requires k > 0
    ensures (n * Power(k)) % 10 == 0
  {
    TimesTen(n, Power(k - 1));
    assert n * Power(k) == 10 * (n * Power(k - 1));
  }
}
