/**
 The deterministic generator (hearthstone_simulator/core/rng.rs) and the random
 choice of an entity (hearthstone_simulator/simulator/rng.rs).
 */
module Randomness {
  import opened Outcomes

  type EntityId = nat

  // ---------- 64-bit words as numbers ----------

  function Power(k: nat): nat {
    if k == 0 then 1 else 2 * Power(k - 1)
  }

  const MODULUS: nat := 0x1_0000_0000_0000_0000

  function Add(x: nat, y: nat): nat {
    (x + y) % MODULUS
  }

  function Multiply(x: nat, y: nat): nat {
    (x * y) % MODULUS
  }

  /** Exclusive or, bit by bit. */
  function Xor(x: nat, y: nat): nat {
    if x == 0 && y == 0 then 0 else (if x % 2 == y % 2 then 0 else 1) + 2 * Xor(x / 2, y / 2)
  }

  function XorShift(x: nat, places: nat): nat {
    Xor(x, ShiftRight(x, places))
  }

  function ShiftRight(x: nat, places: nat): nat {
    if places == 0 then x else ShiftRight(x / 2, places - 1)
  }

  const INCREMENT: nat := 0x9e37_79b9_7f4a_7c15
  const FIRST_FACTOR: nat := 0xbf58_476d_1ce4_e5b9
  const SECOND_FACTOR: nat := 0x94d0_49bb_1331_11eb
  const ALGORITHM_VERSION: nat := 1

  /** Two odd multiplications between three xor-shifts. */
  function Mix(word: nat): nat {
    XorShift(Multiply(XorShift(Multiply(XorShift(word, 30), FIRST_FACTOR), 27), SECOND_FACTOR), 31)
  }

  datatype Snapshot = Snapshot(version: nat, state: nat, position: nat)

  function Advance(s: Snapshot): (Snapshot, nat) {
    (s.(state := Add(s.state, INCREMENT), position := s.position + 1), Mix(Add(s.state, INCREMENT)))
  }

  class DeterministicRng {
    var state: nat
    var position: nat

    function State(): Snapshot
      reads this
    {
      Snapshot(ALGORITHM_VERSION, state, position)
    }

    constructor (seed: nat)
      ensures State() == Snapshot(ALGORITHM_VERSION, seed, 0)
    {
      state, position := seed, 0;
    }

    method Next() returns (word: nat)
      modifies this
      ensures (State(), word) == Advance(old(State()))
    {
      state := Add(state, INCREMENT);
      var value := state;
      value := Multiply(XorShift(value, 30), FIRST_FACTOR);
      value := Multiply(XorShift(value, 27), SECOND_FACTOR);
      position := position + 1;
      word := XorShift(value, 31);
    }

    /** Takes over a snapshot of the same algorithm, and refuses any other. */
    method Restore(s: Snapshot) returns (accepted: bool)
      modifies this
      ensures accepted <==> s.version == ALGORITHM_VERSION
      ensures accepted ==> State() == s
      ensures !accepted ==> State() == old(State())
    {
      accepted := s.version == ALGORITHM_VERSION;
      if accepted { state, position := s.state, s.position; }
    }
  }

  // ---------- A xor-shift can be undone ----------

  lemma {:induction false} XorCancels(x: nat, y: nat, z: nat)
    requires Xor(x, z) == Xor(y, z)
    ensures x == y
    decreases x + y + z
  {
    if x + y + z > 0 {
      XorParity(x, z);
      XorParity(y, z);
      XorCancels(x / 2, y / 2, z / 2);
    }
  }

  lemma XorParity(x: nat, z: nat)
    ensures (Xor(x, z) % 2 == 0 <==> x % 2 == z % 2) && Xor(x, z) / 2 == Xor(x / 2, z / 2)
  {
    HalvesOf(if x % 2 == z % 2 then 0 else 1, Xor(x / 2, z / 2));
  }

  lemma HalvesOf(bit: nat, half: nat)
    requires bit <= 1
    ensures (bit + 2 * half) % 2 == bit && (bit + 2 * half) / 2 == half
  {
  }

  lemma {:induction false} ShiftOfXor(x: nat, y: nat, places: nat)
    ensures ShiftRight(Xor(x, y), places) == Xor(ShiftRight(x, places), ShiftRight(y, places))
    decreases places
  {
    if places > 0 {
      XorParity(x, y);
      ShiftOfXor(x / 2, y / 2, places - 1);
    }
  }

  lemma {:induction false} ShiftOfShift(x: nat, a: nat, b: nat)
    ensures ShiftRight(ShiftRight(x, a), b) == ShiftRight(x, a + b)
    decreases a
  {
    if a > 0 { ShiftOfShift(x / 2, a - 1, b); }
  }

  lemma {:induction false} ShiftedOut(x: nat, places: nat)
    requires x < Power(places)
    ensures ShiftRight(x, places) == 0
    decreases places
  {
    if places > 0 { ShiftedOut(x / 2, places - 1); }
  }

  /** Two numbers with the same xor-shift agree from every bit up, and so agree. */
  lemma {:induction false} XorShiftAgrees(x: nat, y: nat, places: nat, width: nat, bit: nat)
    requires places > 0 && x < Power(width) && y < Power(width) && XorShift(x, places) == XorShift(y, places)
    ensures ShiftRight(x, bit) == ShiftRight(y, bit)
    decreases width + places - bit
  {
    if bit >= width {
      ShiftedOut(x, width);
      ShiftedOut(y, width);
      ShiftOfShift(x, width, bit - width);
      ShiftOfShift(y, width, bit - width);
    } else {
      XorShiftAgrees(x, y, places, width, bit + places);
      ShiftOfXor(x, ShiftRight(x, places), bit);
      ShiftOfXor(y, ShiftRight(y, places), bit);
      ShiftOfShift(x, places, bit);
      ShiftOfShift(y, places, bit);
      XorCancels(ShiftRight(x, bit), ShiftRight(y, bit), ShiftRight(x, bit + places));
    }
  }

  lemma {:induction false} XorIsNarrow(x: nat, y: nat, width: nat)
    requires x < Power(width) && y < Power(width)
    ensures Xor(x, y) < Power(width)
    decreases width
  {
    if width > 0 { XorIsNarrow(x / 2, y / 2, width - 1); }
  }

  lemma {:induction false} ShiftIsSmaller(x: nat, places: nat)
    ensures ShiftRight(x, places) <= x
    decreases places
  {
    if places > 0 { ShiftIsSmaller(x / 2, places - 1); }
  }

  lemma ModulusIsAPower()
    ensures Power(64) == MODULUS
  {
    assert Power(8) == 256;
    PowerOfSum(8, 8);
    PowerOfSum(16, 16);
    PowerOfSum(32, 32);
  }

  lemma {:induction false} PowerOfSum(a: nat, b: nat)
    ensures Power(a + b) == Power(a) * Power(b)
    decreases a
  {
    if a > 0 {
      PowerOfSum(a - 1, b);
      assert Power(a + b) == 2 * (Power(a - 1) * Power(b));
    }
  }

  lemma XorShiftIsInjective(x: nat, y: nat, places: nat)
    requires places > 0 && x < MODULUS && y < MODULUS
    ensures XorShift(x, places) < MODULUS
    ensures XorShift(x, places) == XorShift(y, places) ==> x == y
  {
    ModulusIsAPower();
    ShiftIsSmaller(x, places);
    XorIsNarrow(x, ShiftRight(x, places), 64);
    if XorShift(x, places) == XorShift(y, places) { XorShiftAgrees(x, y, places, 64, 0); }
  }

  // ---------- An odd multiplication can be undone ----------

  lemma MultipleVanishes(x: nat, t: int)
    requires x < MODULUS
    ensures (x + t * MODULUS) % MODULUS == x
  {
  }

  lemma Associates(a: int, b: int, c: int)
    ensures a * b * c == a * (b * c)
  {
  }

  lemma Distributes(a: int, b: int, c: int)
    ensures (a - b) * c == a * c - b * c
  {
  }

  /** What is left of a product, times the inverse of the factor, up to multiples of m. */
  lemma Undone(x: int, factor: int, inverse: int, turns: int, m: int, whole: int, r: int)
    requires r == x * factor - whole * m && factor * inverse == 1 + turns * m
    ensures r * inverse == x + (x * turns - whole * inverse) * m
  {
    Distributes(x * factor, whole * m, inverse);
    Associates(x, factor, inverse);
    assert x * (1 + turns * m) == x + x * (turns * m);
    Associates(x, turns, m);
    Associates(whole, m, inverse);
    Associates(whole, inverse, m);
    Distributes(x * turns, whole * inverse, m);
  }

  /** The factor has an inverse: their product is one more than a multiple of the modulus. */
  lemma MultiplicationUndone(x: nat, factor: nat, inverse: nat, turns: nat)
    requires x < MODULUS && factor * inverse == 1 + turns * MODULUS
    ensures Multiply(Multiply(x, factor), inverse) == x
  {
    var whole, r := x * factor / MODULUS, x * factor % MODULUS;
    Undone(x, factor, inverse, turns, MODULUS, whole, r);
    MultipleVanishes(x, x * turns - whole * inverse);
  }

  const FIRST_INVERSE: nat := 0x96de_1b17_3f11_9089
  const SECOND_INVERSE: nat := 0x3196_42b2_d24d_8ec3
  const INCREMENT_INVERSE: nat := 0xf1de_83e1_9937_733d

  lemma FactorsHaveInverses()
    ensures FIRST_FACTOR * FIRST_INVERSE == 1 + (FIRST_FACTOR * FIRST_INVERSE / MODULUS) * MODULUS
    ensures SECOND_FACTOR * SECOND_INVERSE == 1 + (SECOND_FACTOR * SECOND_INVERSE / MODULUS) * MODULUS
    ensures INCREMENT * INCREMENT_INVERSE == 1 + (INCREMENT * INCREMENT_INVERSE / MODULUS) * MODULUS
  {
  }

  lemma MultiplicationIsInjective(x: nat, y: nat, factor: nat, inverse: nat, turns: nat)
    requires x < MODULUS && y < MODULUS && factor * inverse == 1 + turns * MODULUS
    ensures Multiply(x, factor) == Multiply(y, factor) ==> x == y
  {
    MultiplicationUndone(x, factor, inverse, turns);
    MultiplicationUndone(y, factor, inverse, turns);
  }

  /** No two words have the same mix. */
  lemma MixIsInjective(x: nat, y: nat)
    requires x < MODULUS && y < MODULUS && Mix(x) == Mix(y)
    ensures x == y
  {
    FactorsHaveInverses();
    var a, b := XorShift(x, 30), XorShift(y, 30);
    XorShiftIsInjective(x, y, 30);
    XorShiftIsInjective(y, x, 30);
    var c, d := Multiply(a, FIRST_FACTOR), Multiply(b, FIRST_FACTOR);
    var e, f := XorShift(c, 27), XorShift(d, 27);
    XorShiftIsInjective(c, d, 27);
    XorShiftIsInjective(d, c, 27);
    var g, h := Multiply(e, SECOND_FACTOR), Multiply(f, SECOND_FACTOR);
    XorShiftIsInjective(g, h, 31);
    MultiplicationIsInjective(e, f, SECOND_FACTOR, SECOND_INVERSE, SECOND_FACTOR * SECOND_INVERSE / MODULUS);
    MultiplicationIsInjective(a, b, FIRST_FACTOR, FIRST_INVERSE, FIRST_FACTOR * FIRST_INVERSE / MODULUS);
  }

  // ---------- The full period ----------

  /** The generator after a number of calls, and what a further call returns. */
  function After(s: Snapshot, calls: nat): Snapshot {
    if calls == 0 then s else Advance(After(s, calls - 1)).0
  }

  function Output(s: Snapshot, calls: nat): nat {
    Advance(After(s, calls)).1
  }

  lemma AddAgain(x: nat, y: nat)
    ensures Add(x % MODULUS, y) == (x + y) % MODULUS
  {
  }

  lemma {:induction false} StateAfter(s: Snapshot, calls: nat)
    requires s.state < MODULUS
    ensures After(s, calls).state == (s.state + calls * INCREMENT) % MODULUS
    ensures After(s, calls).position == s.position + calls
  {
    if calls > 0 {
      StateAfter(s, calls - 1);
      AddAgain(s.state + (calls - 1) * INCREMENT, INCREMENT);
    }
  }

  lemma SameRemainder(x: nat, y: nat)
    requires x % MODULUS == (x + y) % MODULUS
    ensures y % MODULUS == 0
  {
  }

  /** Fewer steps than the modulus never come back to the same state. */
  lemma StatesDiffer(start: nat, j: nat, k: nat)
    requires j < k < j + MODULUS
    ensures (start + j * INCREMENT) % MODULUS != (start + k * INCREMENT) % MODULUS
  {
    FactorsHaveInverses();
    MultiplicationUndone(k - j, INCREMENT, INCREMENT_INVERSE, INCREMENT * INCREMENT_INVERSE / MODULUS);
    if (start + j * INCREMENT) % MODULUS == (start + k * INCREMENT) % MODULUS {
      assert start + k * INCREMENT == (start + j * INCREMENT) + (k - j) * INCREMENT;
      SameRemainder(start + j * INCREMENT, (k - j) * INCREMENT);
    }
  }

  /** From any state, the next 2 to the 64 outputs are pairwise different. */
  lemma OutputsAreDistinct(s: Snapshot, j: nat, k: nat)
    requires s.state < MODULUS && j < k < MODULUS
    ensures Output(s, j) != Output(s, k)
  {
    StateAfter(s, j + 1);
    StateAfter(s, k + 1);
    StatesDiffer(s.state, j + 1, k + 1);
    if Output(s, j) == Output(s, k) { MixIsInjective(After(s, j + 1).state, After(s, k + 1).state); }
  }

  // ---------- Choosing an entity ----------

  predicate Increasing(xs: seq<EntityId>) {
    forall i, j :: 0 <= i < j < |xs| ==> xs[i] < xs[j]
  }

  function Elements(xs: seq<EntityId>): set<EntityId> {
    set x | x in xs
  }

  datatype Choice = Choice(position: nat, candidates: seq<EntityId>, selected: EntityId)

  lemma InsertedInOrder(sorted: seq<EntityId>, k: nat, x: EntityId)
    requires Increasing(sorted) && k <= |sorted| && (forall m :: 0 <= m < k ==> sorted[m] < x)
    requires k < |sorted| ==> x < sorted[k]
    ensures Increasing(sorted[..k] + [x] + sorted[k..])
    ensures Elements(sorted[..k] + [x] + sorted[k..]) == Elements(sorted) + {x}
  {
    assert sorted == sorted[..k] + sorted[k..];
  }

  /** Sorts a list and drops its duplicates. */
  method SortAndDedup(candidates: seq<EntityId>) returns (sorted: seq<EntityId>)
    ensures Increasing(sorted) && Elements(sorted) == Elements(candidates)
  {
    sorted := [];
    var i := 0;
    while i < |candidates|
      invariant 0 <= i <= |candidates|
      invariant Increasing(sorted) && Elements(sorted) == Elements(candidates[..i])
    {
      var x, k := candidates[i], 0;
      while k < |sorted| && sorted[k] < x
        invariant 0 <= k <= |sorted|
        invariant forall m :: 0 <= m < k ==> sorted[m] < x
      {
        k := k + 1;
      }
      assert candidates[..i + 1] == candidates[..i] + [x];
      assert Elements(candidates[..i + 1]) == Elements(candidates[..i]) + {x};
      if k == |sorted| || sorted[k] != x {
        InsertedInOrder(sorted, k, x);
        sorted := sorted[..k] + [x] + sorted[k..];
      } else {
        assert x in sorted;
      }
      i := i + 1;
    }
    assert candidates[..i] == candidates;
  }

  /** One word picks among the sorted candidates; an empty list leaves the generator alone. */
  method ChooseEntity(rng: DeterministicRng, candidates: seq<EntityId>) returns (choice: Option<Choice>)
    modifies rng
    ensures candidates == [] ==> choice == None && rng.State() == old(rng.State())
    ensures candidates != [] ==>
      && choice.Some? && rng.State() == Advance(old(rng.State())).0
      && Picks(old(rng.State()), Elements(candidates), choice.value)
  {
    var sorted := SortAndDedup(candidates);
    if sorted == [] {
      assert candidates == [] by { assert Elements(candidates) == {}; NoElements(candidates); }
      return None;
    }
    assert candidates != [] by { assert sorted[0] in Elements(sorted); }
    var position := rng.position;
    var word := rng.Next();
    var index := word % |sorted|;
    return Some(Choice(position, sorted, sorted[index]));
  }

  /** The recorded choice lists the candidates in order and takes the one the next word selects. */
  ghost predicate Picks(s: Snapshot, candidates: set<EntityId>, choice: Choice) {
    && choice.position == s.position
    && Increasing(choice.candidates) && Elements(choice.candidates) == candidates && choice.candidates != []
    && choice.selected == choice.candidates[Advance(s).1 % |choice.candidates|]
  }

  lemma {:induction false} IncreasingIsUnique(xs: seq<EntityId>, ys: seq<EntityId>)
    requires Increasing(xs) && Increasing(ys) && Elements(xs) == Elements(ys)
    ensures xs == ys
    decreases |xs|
  {
    if xs == [] {
      NoElements(ys);
    } else {
      assert xs[0] in Elements(xs) && xs[0] in ys;
      assert ys[0] in Elements(ys) && ys[0] in xs;
      assert xs[0] == ys[0];
      assert Elements(xs[1..]) == Elements(xs) - {xs[0]} by { RestOf(xs); }
      assert Elements(ys[1..]) == Elements(ys) - {ys[0]} by { RestOf(ys); }
      IncreasingIsUnique(xs[1..], ys[1..]);
      assert xs == [xs[0]] + xs[1..] && ys == [ys[0]] + ys[1..];
    }
  }

  lemma NoElements(xs: seq<EntityId>)
    ensures Elements(xs) == {} <==> xs == []
  {
    if xs != [] { assert xs[0] in Elements(xs); }
  }

  lemma RestOf(xs: seq<EntityId>)
    requires Increasing(xs) && xs != []
    ensures Elements(xs[1..]) == Elements(xs) - {xs[0]}
  {
    forall x | x in xs && x != xs[0] ensures x in xs[1..] {
      var i :| 0 <= i < |xs| && xs[i] == x;
      assert xs[1..][i - 1] == x;
    }
  }

  /** The pick depends on the set of candidates and the generator alone, not on order or repetition. */
  lemma ChoiceDependsOnTheSetOnly(s: Snapshot, candidates: set<EntityId>, one: Choice, other: Choice)
    requires Picks(s, candidates, one) && Picks(s, candidates, other)
    ensures one == other && one.selected in candidates
  {
    IncreasingIsUnique(one.candidates, other.candidates);
    assert one.selected in Elements(one.candidates);
  }
}
