/** The integer accumulator: 64-bit arithmetic, and conservation. */
module IntAccumulators {
  import opened Sums
  import opened Retries
  import opened Accumulators

  // ----- 64-bit integers

  const TWO_63 := 0x8000_0000_0000_0000
  const TWO_64 := 0x1_0000_0000_0000_0000

  type Int64 = x: int | -TWO_63 <= x < TWO_63

  /** The 64-bit two's complement value of `x`. */
  function Wrap(x: int): (w: Int64)
    ensures (x - w) % TWO_64 == 0
  {
    (x + TWO_63) % TWO_64 - TWO_63
  }

  lemma WrapUnique(x: int, w: Int64)
    requires (x - w) % TWO_64 == 0
    ensures Wrap(x) == w
  {
  }

  lemma Multiples(x: int, y: int)
    requires x % TWO_64 == 0 && y % TWO_64 == 0
    ensures (x + y) % TWO_64 == 0
  {
  }

  lemma WrapSum(x: int, y: int)
    ensures Wrap(Wrap(x) + y) == Wrap(x + y) == Wrap(x + Wrap(y))
  {
    hide Wrap;
    Multiples(x - Wrap(x), Wrap(x) + y - Wrap(Wrap(x) + y));
    Multiples(y - Wrap(y), x + Wrap(y) - Wrap(x + Wrap(y)));
    WrapUnique(x + y, Wrap(Wrap(x) + y));
    WrapUnique(x + y, Wrap(x + Wrap(y)));
  }

  function Plus(a: Int64, b: Int64): (r: Int64)
    ensures (a + b - r) % TWO_64 == 0
  {
    Wrap(a + b)
  }

  function Minus(a: Int64, b: Int64): (r: Int64)
    ensures (a - b - r) % TWO_64 == 0
  {
    Wrap(a - b)
  }

  /** The accumulator of integers adds in one atomic instruction. */
  function IntKind(): Kind<Int64> { Kind(Plus, Minus, true) }

  // ----- conservation

  function Argument(c: Call<Int64>): int { if c.Added? then c.v else 0 }
  function Delta(c: Call<Int64>): int { if c.Returned? then c.delta else 0 }

  function Arguments(calls: seq<Call<Int64>>): seq<int> {
    seq(|calls|, i requires 0 <= i < |calls| => Argument(calls[i]))
  }

  function Deltas(calls: seq<Call<Int64>>): seq<int> {
    seq(|calls|, i requires 0 <= i < |calls| => Delta(calls[i]))
  }

  /** The sum of what has been aggregated, and of what has been reported. */
  function TotalApplied(calls: seq<Call<Int64>>): int { Total(Arguments(calls)) }

  function TotalReported(calls: seq<Call<Int64>>): int { Total(Deltas(calls)) }

  /** The current sum is the initial one and everything applied; the previous sum is the initial one
      and every delta that was returned. */
  ghost predicate Conserved(s: State<Int64>, cur0: Int64, prev0: Int64) {
    s.cur == Wrap(cur0 + TotalApplied(s.calls)) && s.prev == Wrap(prev0 + TotalReported(s.calls))
  }

  lemma CallUpdate(calls: seq<Call<Int64>>, i: nat, c: Call<Int64>)
    requires i < |calls|
    ensures TotalApplied(calls[i := c]) == TotalApplied(calls) - Argument(calls[i]) + Argument(c)
    ensures TotalReported(calls[i := c]) == TotalReported(calls) - Delta(calls[i]) + Delta(c)
  {
    assert Arguments(calls[i := c]) == Arguments(calls)[i := Argument(c)];
    assert Deltas(calls[i := c]) == Deltas(calls)[i := Delta(c)];
    TotalUpdate(Arguments(calls), i, Argument(c));
    TotalUpdate(Deltas(calls), i, Delta(c));
  }

  /** The totals grow by what a call adds or returns, and start at zero. */
  lemma TotalsSpelled(calls: seq<Call<Int64>>, i: nat, v: Int64)
    requires i < |calls| && !calls[i].Added? && !calls[i].Returned?
    ensures TotalApplied(calls[i := Added(v)]) == TotalApplied(calls) + v
    ensures TotalReported(calls[i := Returned(v)]) == TotalReported(calls) + v
    ensures (forall j :: 0 <= j < |calls| ==> !calls[j].Added?) ==> TotalApplied(calls) == 0
    ensures (forall j :: 0 <= j < |calls| ==> !calls[j].Returned?) ==> TotalReported(calls) == 0
  {
    hide TotalApplied, TotalReported;
    CallUpdate(calls, i, Added(v));
    CallUpdate(calls, i, Returned(v));
    if forall j :: 0 <= j < |calls| ==> !calls[j].Added? { NothingApplied(calls); }
    if forall j :: 0 <= j < |calls| ==> !calls[j].Returned? { NothingReported(calls); }
  }

  lemma NothingApplied(calls: seq<Call<Int64>>)
    requires forall j :: 0 <= j < |calls| ==> !calls[j].Added?
    ensures TotalApplied(calls) == 0
  {
    TotalZeros(Arguments(calls));
  }

  lemma NothingReported(calls: seq<Call<Int64>>)
    requires forall j :: 0 <= j < |calls| ==> !calls[j].Returned?
    ensures TotalReported(calls) == 0
  {
    TotalZeros(Deltas(calls));
  }

  lemma StepConserves(s: State<Int64>, i: nat, cur0: Int64, prev0: Int64)
    requires i < |s.calls| && Conserved(s, cur0, prev0) && Proper(IntKind(), s.calls)
    ensures Conserved(Step(IntKind(), s, i), cur0, prev0)
  {
    hide Wrap, TotalApplied, TotalReported;
    CallUpdate(s.calls, i, Step(IntKind(), s, i).calls[i]);
    match s.calls[i]
    case Adding(v) =>
      WrapSum(cur0 + TotalApplied(s.calls), v);
    case LoadedBoth(c, p) =>
      WrapSum(prev0 + TotalReported(s.calls), Wrap(c - p));
      WrapSum(p, c - p);
      WrapUnique(c, c);
      assert p + (c - p) == c;
    case _ =>
  }

  /** Conservation over every interleaving, overlapping deltas included. */
  lemma {:induction false} RunConserves(s: State<Int64>, schedule: seq<nat>)
    requires s == Begin(s.cur, s.prev, s.calls) && Fresh(s.calls) && Schedule(schedule, |s.calls|)
    ensures Conserved(Run(IntKind(), s, schedule), s.cur, s.prev) && Proper(IntKind(), Run(IntKind(), s, schedule).calls)
    decreases |schedule|
  {
    if schedule == [] {
      TotalZeros(Arguments(s.calls));
      TotalZeros(Deltas(s.calls));
      WrapUnique(s.cur, s.cur);
      WrapUnique(s.prev, s.prev);
    } else {
      hide Conserved, Step, Proper;
      var n := |schedule| - 1;
      RunConserves(s, schedule[..n]);
      StepConserves(Run(IntKind(), s, schedule[..n]), schedule[n], s.cur, s.prev);
      StepProper(IntKind(), Run(IntKind(), s, schedule[..n]), schedule[n]);
    }
  }

  /** A last Delta, called when every other call is over, makes the deltas total what was applied. */
  lemma QuiescentDelta(s: State<Int64>, schedule: seq<nat>, i: nat)
    requires s == Begin(s.cur, s.cur, s.calls) && Fresh(s.calls) && i < |s.calls| && Schedule(schedule, |s.calls|)
    requires var q := Run(IntKind(), s, schedule); q.calls[i].Starting? && forall j :: 0 <= j < |q.calls| && j != i ==> Over(q.calls[j])
    ensures var q := Step(IntKind(), Step(IntKind(), Step(IntKind(), Run(IntKind(), s, schedule), i), i), i);
            && (forall j :: 0 <= j < |q.calls| ==> Over(q.calls[j]))
            && q.prev == q.cur
            && (TotalReported(q.calls) - TotalApplied(q.calls)) % TWO_64 == 0
  {
    hide Wrap, TotalApplied, TotalReported, Run, Conserved;
    var q := Run(IntKind(), s, schedule);
    var q1, q2 := Step(IntKind(), q, i), Step(IntKind(), Step(IntKind(), q, i), i);
    var q3 := Step(IntKind(), q2, i);
    RunConserves(s, schedule);
    StepConserves(q, i, s.cur, s.prev);
    StepConserves(q1, i, s.cur, s.prev);
    StepConserves(q2, i, s.cur, s.prev);
    assert q3.prev == q3.cur;
    SameTotals(q3, s.cur);
  }

  lemma SameTotals(s: State<Int64>, sum0: Int64)
    requires Conserved(s, sum0, sum0) && s.cur == s.prev
    ensures (TotalReported(s.calls) - TotalApplied(s.calls)) % TWO_64 == 0
  {
    var a, r := sum0 + TotalApplied(s.calls), sum0 + TotalReported(s.calls);
    hide Wrap, TotalApplied, TotalReported;
    Opposite(a - Wrap(a));
    Multiples(r - Wrap(r), Wrap(a) - a);
  }

  lemma Opposite(x: int)
    requires x % TWO_64 == 0
    ensures (-x) % TWO_64 == 0
  {
  }

  /** Any calls on an integer accumulator side by side: all end, nothing is lost, and Delta alone retries. */
  method RunAll(a: Accumulator<Int64>, start: seq<Call<Int64>>) returns (s: State<Int64>)
    requires Fresh(start) && a.kind == IntKind()
    modifies a
    ensures s.cur == a.curSum && s.prev == a.prevSum && Conserved(s, old(a.curSum), old(a.prevSum))
    ensures |s.calls| == |start| && forall i :: 0 <= i < |start| ==> Over(s.calls[i]) && SameKind(start[i], s.calls[i])
    ensures s.adds == 0 && s.swaps <= Triangle(DeltaCalls(start))
  {
    hide Step, Conserved, Triangle, DeltaCalls, Linear, Chained, Sound;
    ghost var schedule;
    s, schedule := a.RunAll(start);
    RunConserves(Begin(old(a.curSum), old(a.prevSum), start), schedule);
    NoLoops(IntKind(), start);
  }

  lemma {:induction false} NoLoops(kind: Kind<Int64>, calls: seq<Call<Int64>>)
    requires kind.atomic
    ensures Loops(kind, calls) == 0 && Triangle(0) == 0
  {
    if calls != [] { NoLoops(kind, calls[1..]); }
  }
}
