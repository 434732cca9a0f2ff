/** Sums and concatenations over a sequence, and their response to an update at one position. */
module Sums {

  function Sum(xs: seq<nat>): nat {
    if xs == [] then 0 else xs[0] + Sum(xs[1..])
  }

  lemma {:induction false} SumUpdate(xs: seq<nat>, i: nat, x: nat)
    requires i < |xs|
    ensures Sum(xs[i := x]) + xs[i] == Sum(xs) + x
  {
    if i == 0 {
      assert xs[i := x][1..] == xs[1..];
    } else {
      assert xs[i := x][1..] == xs[1..][i - 1 := x];
      SumUpdate(xs[1..], i - 1, x);
    }
  }

  lemma {:induction false} SumZeros(xs: seq<nat>)
    requires forall i :: 0 <= i < |xs| ==> xs[i] == 0
    ensures Sum(xs) == 0
  {
    if xs != [] { SumZeros(xs[1..]); }
  }

  lemma {:induction false} SumAtMost(xs: seq<nat>, ys: seq<nat>)
    requires |xs| == |ys| && forall i :: 0 <= i < |xs| ==> xs[i] <= ys[i]
    ensures Sum(xs) <= Sum(ys)
  {
    if xs != [] { SumAtMost(xs[1..], ys[1..]); }
  }

  /** The sum of integers, which may be negative. */
  function Total(xs: seq<int>): int {
    if xs == [] then 0 else xs[0] + Total(xs[1..])
  }

  lemma {:induction false} TotalUpdate(xs: seq<int>, i: nat, x: int)
    requires i < |xs|
    ensures Total(xs[i := x]) == Total(xs) - xs[i] + x
  {
    if i == 0 {
      assert xs[i := x][1..] == xs[1..];
    } else {
      assert xs[i := x][1..] == xs[1..][i - 1 := x];
      TotalUpdate(xs[1..], i - 1, x);
    }
  }

  lemma {:induction false} TotalZeros(xs: seq<int>)
    requires forall i :: 0 <= i < |xs| ==> xs[i] == 0
    ensures Total(xs) == 0
  {
    if xs != [] { TotalZeros(xs[1..]); }
  }

  function Flatten<T>(xs: seq<seq<T>>): seq<T> {
    if xs == [] then [] else xs[0] + Flatten(xs[1..])
  }

  /** How often `m` occurs in `xs`. */
  function Count<T(==)>(xs: seq<T>, m: T): nat {
    multiset(xs)[m]
  }

  lemma CountConcat<T>(xs: seq<T>, ys: seq<T>, m: T)
    ensures Count(xs + ys, m) == Count(xs, m) + Count(ys, m)
  {
    assert multiset(xs + ys) == multiset(xs) + multiset(ys);
  }

  lemma CountNone<T>(m: T)
    ensures Count([], m) == 0
  {
  }

  lemma CountOne<T>(xs: seq<T>, m: T)
    requires |xs| <= 1
    ensures Count(xs, m) == if xs == [m] then 1 else 0
  {
    if |xs| == 1 { assert xs == [xs[0]]; }
  }

  lemma {:induction false} FlattenUpdate<T>(xs: seq<seq<T>>, i: nat, x: seq<T>, m: T)
    requires i < |xs|
    ensures Count(Flatten(xs[i := x]), m) + Count(xs[i], m) == Count(Flatten(xs), m) + Count(x, m)
  {
    hide Count;
    var ys := xs[i := x];
    CountConcat(xs[0], Flatten(xs[1..]), m);
    CountConcat(ys[0], Flatten(ys[1..]), m);
    if i == 0 {
      assert ys[1..] == xs[1..];
    } else {
      assert ys[1..] == xs[1..][i - 1 := x];
      FlattenUpdate(xs[1..], i - 1, x, m);
    }
  }

  lemma {:induction false} FlattenEmpty<T>(xs: seq<seq<T>>)
    requires forall i :: 0 <= i < |xs| ==> xs[i] == []
    ensures Flatten(xs) == []
  {
    if xs != [] { FlattenEmpty(xs[1..]); }
  }

  // ----- counting positions

  /** The positions at which `bs` is true. */
  ghost function Places(bs: seq<bool>): set<nat> {
    set i: nat | i < |bs| && bs[i]
  }

  lemma NoPlaces()
    ensures Places([]) == {}
  {
  }

  ghost function Shift(xs: set<nat>): set<nat> {
    set x | x in xs :: x + 1
  }

  lemma ShiftHas(xs: set<nat>, y: nat)
    ensures y in Shift(xs) <==> y > 0 && y - 1 in xs
  {
    if y > 0 && y - 1 in xs { var x: nat := y - 1; assert x + 1 in Shift(xs); }
  }

  lemma {:induction false} ShiftSize(xs: set<nat>)
    ensures |Shift(xs)| == |xs|
    decreases |xs|
  {
    if xs == {} {
      assert Shift(xs) == {};
    } else {
      var x :| x in xs;
      ShiftSize(xs - {x});
      forall y: nat ensures y in Shift(xs) <==> y in Shift(xs - {x}) + {x + 1} {
        ShiftHas(xs, y);
        ShiftHas(xs - {x}, y);
      }
      ShiftHas(xs - {x}, x + 1);
      assert Shift(xs) == Shift(xs - {x}) + {x + 1};
    }
  }

  lemma PlacesSize(bs: seq<bool>)
    requires bs != []
    ensures |Places(bs)| == (if bs[0] then 1 else 0) + |Places(bs[1..])|
  {
    var rest := Shift(Places(bs[1..]));
    ShiftSize(Places(bs[1..]));
    forall i: nat ensures i in Places(bs) <==> (i == 0 && bs[0]) || i in rest {
      ShiftHas(Places(bs[1..]), i);
    }
    assert Places(bs) == if bs[0] then rest + {0} else rest;
    assert 0 !in rest;
  }
}
