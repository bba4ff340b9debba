/** Sorting a list of different ids by a strict total order. */
module Sorting {
  type Order = (nat, nat) -> bool

  ghost predicate StrictTotal(before: Order) {
    && (forall x :: !before(x, x))
    && (forall x, y, z :: before(x, y) && before(y, z) ==> before(x, z))
    && (forall x, y :: x != y ==> before(x, y) || before(y, x))
  }

  predicate NoRepeats(ids: seq<nat>) {
    forall i, j :: 0 <= i < j < |ids| ==> ids[i] != ids[j]
  }

  predicate Sorted(before: Order, ids: seq<nat>) {
    forall i, j :: 0 <= i < j < |ids| ==> before(ids[i], ids[j])
  }

  function Insert(before: Order, x: nat, ids: seq<nat>): (r: seq<nat>)
    ensures forall y :: y in r <==> y == x || y in ids
  {
    if ids == [] || before(x, ids[0]) then [x] + ids else [ids[0]] + Insert(before, x, ids[1..])
  }

  function Sort(before: Order, ids: seq<nat>): (r: seq<nat>)
    ensures forall y :: y in r <==> y in ids
  {
    if ids == [] then [] else Insert(before, ids[0], Sort(before, ids[1..]))
  }

  lemma {:induction false} InsertedIsSorted(before: Order, x: nat, ids: seq<nat>)
    requires StrictTotal(before) && Sorted(before, ids) && x !in ids
    ensures Sorted(before, Insert(before, x, ids))
  {
    if ids != [] && !before(x, ids[0]) {
      var rest := Insert(before, x, ids[1..]);
      InsertedIsSorted(before, x, ids[1..]);
      forall j | 0 <= j < |rest| ensures before(ids[0], rest[j]) {
        assert rest[j] in rest;
        if rest[j] != x {
          var k :| 0 <= k < |ids| - 1 && ids[1..][k] == rest[j];
          assert before(ids[0], ids[k + 1]);
        }
      }
    } else if ids != [] {
      forall j | 0 <= j < |ids| ensures before(x, ids[j]) {
        assert j > 0 ==> before(ids[0], ids[j]);
      }
    }
  }

  lemma {:induction false} SortedBySort(before: Order, ids: seq<nat>)
    requires StrictTotal(before) && NoRepeats(ids)
    ensures Sorted(before, Sort(before, ids))
  {
    if ids != [] {
      assert ids[0] !in ids[1..];
      SortedBySort(before, ids[1..]);
      InsertedIsSorted(before, ids[0], Sort(before, ids[1..]));
    }
  }

  lemma SortedMeansNoRepeats(before: Order, ids: seq<nat>)
    requires StrictTotal(before) && Sorted(before, ids)
    ensures NoRepeats(ids)
  {
  }

  /** There is one sorted list of given elements. */
  lemma {:induction false} SortedListsAreEqual(before: Order, xs: seq<nat>, ys: seq<nat>)
    requires StrictTotal(before) && Sorted(before, xs) && Sorted(before, ys)
    requires forall x :: x in xs <==> x in ys
    ensures xs == ys
    decreases |xs|
  {
    if xs == [] {
      FirstIsElement(ys);
    } else {
      assert xs[0] in ys;
      FirstIsLeast(before, xs, ys);
      assert xs[0] == ys[0];
      forall x ensures x in xs[1..] <==> x in ys[1..] {
        TailLacksFirst(before, xs, x);
        TailLacksFirst(before, ys, x);
      }
      SortedListsAreEqual(before, xs[1..], ys[1..]);
    }
  }

  lemma FirstIsElement(xs: seq<nat>)
    ensures xs != [] ==> xs[0] in xs
  {
  }

  lemma TailLacksFirst(before: Order, xs: seq<nat>, x: nat)
    requires StrictTotal(before) && Sorted(before, xs) && xs != []
    ensures x in xs[1..] <==> x in xs && x != xs[0]
  {
    if x in xs[1..] {
      var k :| 0 <= k < |xs| - 1 && xs[1..][k] == x;
      assert before(xs[0], xs[k + 1]);
    }
  }

  lemma FirstComesFirst(before: Order, xs: seq<nat>, y: nat)
    requires Sorted(before, xs) && y in xs
    ensures y == xs[0] || before(xs[0], y)
  {
    var k :| 0 <= k < |xs| && xs[k] == y;
  }

  lemma OneComesFirst(before: Order, x: nat, y: nat)
    requires StrictTotal(before)
    ensures !(before(x, y) && before(y, x))
  {
    assert before(x, y) && before(y, x) ==> before(x, x);
  }

  lemma FirstIsLeast(before: Order, xs: seq<nat>, ys: seq<nat>)
    requires StrictTotal(before) && Sorted(before, xs) && Sorted(before, ys) && xs != []
    requires forall x :: x in xs <==> x in ys
    ensures ys != [] && xs[0] == ys[0]
  {
    FirstIsElement(ys);
    assert xs[0] in ys;
    FirstComesFirst(before, xs, ys[0]);
    FirstComesFirst(before, ys, xs[0]);
    OneComesFirst(before, xs[0], ys[0]);
  }
}
