/** The lock-free accumulators of integers and of floats: atomic loads, additions and compare-and-swap
    loops, under every interleaving of calls of Aggregate and Delta. */
module Accumulators {
  import opened Sums
  import opened Retries

  /** How an accumulator computes. The integer one adds in one atomic instruction, the other one in a
      compare-and-swap loop. */
  datatype Kind<!V> = Kind(plus: (V, V) -> V, minus: (V, V) -> V, atomic: bool)

  /** One call. Aggregate(v) adds atomically, or loads the sum, adds and swaps; Delta loads both sums
      and swaps. A swap that fails starts over. */
  datatype Call<+V> = Adding(v: V) | LoadedSum(v: V, oldV: V) | Added(v: V)
                    | Starting | LoadedCur(cur: V) | LoadedBoth(cur: V, prev: V) | Returned(delta: V)

  /** `adds` and `swaps` count the compare-and-swaps on the two sums. `log` lists the arguments in the
      order in which they were added, `marks` the sums that successful calls of Delta have seen. */
  datatype State<+V> = State(cur: V, prev: V, calls: seq<Call<V>>, adds: nat, swaps: nat, log: seq<V>, marks: seq<V>)

  predicate Over<V>(c: Call<V>) { c.Added? || c.Returned? }

  /** The next atomic step of call `i`. */
  function Step<V(==)>(kind: Kind<V>, s: State<V>, i: nat): (t: State<V>)
    requires i < |s.calls|
    ensures |t.calls| == |s.calls|
  {
    match s.calls[i]
    case Adding(v) =>
      if kind.atomic then
        s.(cur := kind.plus(s.cur, v), calls := s.calls[i := Added(v)], log := s.log + [v])
      else
        s.(calls := s.calls[i := LoadedSum(v, s.cur)])
    case LoadedSum(v, oldV) =>
      if s.cur == oldV then
        s.(cur := kind.plus(oldV, v), calls := s.calls[i := Added(v)], adds := s.adds + 1, log := s.log + [v])
      else
        s.(calls := s.calls[i := Adding(v)], adds := s.adds + 1)
    case Starting => s.(calls := s.calls[i := LoadedCur(s.cur)])
    case LoadedCur(c) => s.(calls := s.calls[i := LoadedBoth(c, s.prev)])
    case LoadedBoth(c, p) =>
      if s.prev == p then
        s.(prev := c, calls := s.calls[i := Returned(kind.minus(c, p))], swaps := s.swaps + 1, marks := s.marks + [c])
      else
        s.(calls := s.calls[i := Starting], swaps := s.swaps + 1)
    case _ => s
  }

  predicate Schedule(schedule: seq<nat>, calls: nat) {
    forall k :: 0 <= k < |schedule| ==> schedule[k] < calls
  }

  function Run<V(==)>(kind: Kind<V>, s: State<V>, schedule: seq<nat>): (t: State<V>)
    requires Schedule(schedule, |s.calls|)
    ensures |t.calls| == |s.calls|
    decreases |schedule|
  {
    if schedule == [] then s
    else
      var n := |schedule| - 1;
      Step(kind, Run(kind, s, schedule[..n]), schedule[n])
  }

  lemma RunNext<V>(kind: Kind<V>, s: State<V>, schedule: seq<nat>, i: nat)
    requires Schedule(schedule, |s.calls|) && i < |s.calls|
    ensures Schedule(schedule + [i], |s.calls|)
    ensures Run(kind, s, schedule + [i]) == Step(kind, Run(kind, s, schedule), i)
  {
    assert (schedule + [i])[..|schedule|] == schedule;
  }

  /** The calls are about to begin. */
  function Begin<V>(cur: V, prev: V, calls: seq<Call<V>>): State<V> {
    State(cur, prev, calls, 0, 0, [], [])
  }

  predicate Fresh<V>(calls: seq<Call<V>>) {
    forall i :: 0 <= i < |calls| ==> calls[i].Adding? || calls[i].Starting?
  }

  // ----- linearisation

  /** Adding the arguments one after the other. */
  function Fold<V>(plus: (V, V) -> V, start: V, vs: seq<V>): V {
    if vs == [] then start else plus(Fold(plus, start, vs[..|vs| - 1]), vs[|vs| - 1])
  }

  /** The differences between one value and the next. */
  function Differences<V>(minus: (V, V) -> V, start: V, marks: seq<V>): (ds: seq<V>)
    ensures |ds| == |marks|
  {
    seq(|marks|, k requires 0 <= k < |marks| => minus(marks[k], if k == 0 then start else marks[k - 1]))
  }

  lemma DifferencesNext<V>(minus: (V, V) -> V, start: V, marks: seq<V>, x: V)
    ensures Differences(minus, start, marks + [x])
         == Differences(minus, start, marks) + [minus(x, if marks == [] then start else marks[|marks| - 1])]
  {
  }

  function Applied<V>(c: Call<V>): seq<V> { if c.Added? then [c.v] else [] }

  function Reported<V>(c: Call<V>): seq<V> { if c.Returned? then [c.delta] else [] }

  function AppliedIn<V>(calls: seq<Call<V>>): seq<seq<V>> {
    seq(|calls|, i requires 0 <= i < |calls| => Applied(calls[i]))
  }

  function ReportedIn<V>(calls: seq<Call<V>>): seq<seq<V>> {
    seq(|calls|, i requires 0 <= i < |calls| => Reported(calls[i]))
  }

  /** The sum is the initial one with the arguments of the finished calls added one at a time. */
  ghost predicate Linear<V(!new)>(kind: Kind<V>, s: State<V>, start: V) {
    && s.cur == Fold(kind.plus, start, s.log)
    && forall m :: Count(s.log, m) == Count(Flatten(AppliedIn(s.calls)), m)
  }

  /** The deltas that were returned lead from the initial previous sum to the present one. */
  ghost predicate Chained<V(!new)>(kind: Kind<V>, s: State<V>, start: V) {
    && s.prev == (if s.marks == [] then start else s.marks[|s.marks| - 1])
    && forall m :: Count(Differences(kind.minus, start, s.marks), m) == Count(Flatten(ReportedIn(s.calls)), m)
  }

  /** The sum was `x` at some moment. */
  ghost predicate Past<V(!new)>(kind: Kind<V>, log: seq<V>, start: V, x: V) {
    exists k :: 0 <= k <= |log| && x == Fold(kind.plus, start, log[..k])
  }

  /** What a call of Delta has loaded was the sum at some moment. */
  ghost predicate Sound<V(!new)>(kind: Kind<V>, s: State<V>, start: V) {
    && (forall i :: 0 <= i < |s.calls| && (s.calls[i].LoadedCur? || s.calls[i].LoadedBoth?) ==> Past(kind, s.log, start, s.calls[i].cur))
    && forall k :: 0 <= k < |s.marks| ==> Past(kind, s.log, start, s.marks[k])
  }

  lemma StepLinear<V(!new)>(kind: Kind<V>, s: State<V>, i: nat, start: V)
    requires i < |s.calls| && Linear(kind, s, start)
    ensures Linear(kind, Step(kind, s, i), start)
  {
    hide Flatten, Count;
    var s' := Step(kind, s, i);
    var c := s'.calls[i];
    assert AppliedIn(s'.calls) == AppliedIn(s.calls)[i := Applied(c)];
    forall m ensures Count(s'.log, m) == Count(Flatten(AppliedIn(s'.calls)), m) {
      FlattenUpdate(AppliedIn(s.calls), i, Applied(c), m);
      CountConcat(s.log, Applied(c), m);
      CountNone(m);
    }
    if s'.log != s.log { assert s'.log[..|s.log|] == s.log; }
  }

  lemma StepChained<V(!new)>(kind: Kind<V>, s: State<V>, i: nat, start: V)
    requires i < |s.calls| && Chained(kind, s, start)
    ensures Chained(kind, Step(kind, s, i), start)
  {
    hide Flatten, Count, Differences;
    var s' := Step(kind, s, i);
    var c := s'.calls[i];
    var ds, ds' := Differences(kind.minus, start, s.marks), Differences(kind.minus, start, s'.marks);
    assert ReportedIn(s'.calls) == ReportedIn(s.calls)[i := Reported(c)];
    if s'.marks != s.marks { DifferencesNext(kind.minus, start, s.marks, s.calls[i].cur); }
    forall m ensures Count(ds', m) == Count(Flatten(ReportedIn(s'.calls)), m) {
      FlattenUpdate(ReportedIn(s.calls), i, Reported(c), m);
      CountConcat(ds, Reported(c), m);
      CountNone(m);
    }
  }

  lemma StillPast<V(!new)>(kind: Kind<V>, log: seq<V>, more: seq<V>, start: V, x: V)
    requires Past(kind, log, start, x)
    ensures Past(kind, log + more, start, x)
  {
    var k :| 0 <= k <= |log| && x == Fold(kind.plus, start, log[..k]);
    assert (log + more)[..k] == log[..k];
  }

  lemma StepSound<V(!new)>(kind: Kind<V>, s: State<V>, i: nat, start: V)
    requires i < |s.calls| && Linear(kind, s, start) && Sound(kind, s, start)
    ensures Sound(kind, Step(kind, s, i), start)
  {
    var s' := Step(kind, s, i);
    var more := s'.log[|s.log|..];
    assert s'.log == s.log + more;
    assert s.log[..|s.log|] == s.log;
    assert Past(kind, s.log, start, s.cur);
    hide Fold, Past;
    forall x | Past(kind, s.log, start, x) ensures Past(kind, s'.log, start, x) { StillPast(kind, s.log, more, start, x); }
  }

  /** Under every interleaving: the sum is the initial one with the arguments of the finished calls
      added in the order of their success, the deltas chain up, and each was taken at a sum that the
      accumulator had. */
  lemma {:induction false} RunLinear<V(!new)>(kind: Kind<V>, s: State<V>, schedule: seq<nat>)
    requires s == Begin(s.cur, s.prev, s.calls) && Fresh(s.calls) && Schedule(schedule, |s.calls|)
    ensures Linear(kind, Run(kind, s, schedule), s.cur) && Chained(kind, Run(kind, s, schedule), s.prev)
    ensures Sound(kind, Run(kind, s, schedule), s.cur)
    decreases |schedule|
  {
    if schedule == [] {
      FlattenEmpty(AppliedIn(s.calls));
      FlattenEmpty(ReportedIn(s.calls));
    } else {
      hide Linear, Chained, Sound, Step;
      var n := |schedule| - 1;
      RunLinear(kind, s, schedule[..n]);
      var t := Run(kind, s, schedule[..n]);
      StepLinear(kind, t, schedule[n], s.cur);
      StepChained(kind, t, schedule[n], s.prev);
      StepSound(kind, t, schedule[n], s.cur);
    }
  }

  // ----- the results, spelled out

  lemma FoldSpelled<V>(plus: (V, V) -> V, start: V, vs: seq<V>, v: V)
    ensures Fold(plus, start, []) == start && Fold(plus, start, vs + [v]) == plus(Fold(plus, start, vs), v)
  {
    assert (vs + [v])[..|vs|] == vs;
  }

  lemma {:induction false} AppliedCounted<V(!new)>(calls: seq<Call<V>>, m: V)
    ensures Count(Flatten(AppliedIn(calls)), m) == |Places(AddedAt(calls, m))|
  {
    hide Count, Places;
    if calls == [] {
      CountNone(m);
      NoPlaces();
    } else {
      AppliedCounted(calls[1..], m);
      assert AppliedIn(calls)[1..] == AppliedIn(calls[1..]);
      CountConcat(Applied(calls[0]), Flatten(AppliedIn(calls[1..])), m);
      CountOne(Applied(calls[0]), m);
      PlacesSize(AddedAt(calls, m));
      assert AddedAt(calls, m)[1..] == AddedAt(calls[1..], m);
    }
  }

  lemma {:induction false} ReportedCounted<V(!new)>(calls: seq<Call<V>>, m: V)
    ensures Count(Flatten(ReportedIn(calls)), m) == |Places(ReturnedAt(calls, m))|
  {
    hide Count, Places;
    if calls == [] {
      CountNone(m);
      NoPlaces();
    } else {
      ReportedCounted(calls[1..], m);
      assert ReportedIn(calls)[1..] == ReportedIn(calls[1..]);
      CountConcat(Reported(calls[0]), Flatten(ReportedIn(calls[1..])), m);
      CountOne(Reported(calls[0]), m);
      PlacesSize(ReturnedAt(calls, m));
      assert ReturnedAt(calls, m)[1..] == ReturnedAt(calls[1..], m);
    }
  }

  ghost function AddedAt<V>(calls: seq<Call<V>>, m: V): seq<bool> {
    seq(|calls|, i requires 0 <= i < |calls| => calls[i] == Added(m))
  }

  ghost function ReturnedAt<V>(calls: seq<Call<V>>, m: V): seq<bool> {
    seq(|calls|, i requires 0 <= i < |calls| => calls[i] == Returned(m))
  }

  /** Each argument is in the log as often as calls have added it, and each delta is among the
      differences of the chain as often as calls have returned it. */
  lemma ResultsSpelled<V(!new)>(kind: Kind<V>, s: State<V>, cur0: V, prev0: V, m: V)
    requires Linear(kind, s, cur0) && Chained(kind, s, prev0)
    ensures multiset(s.log)[m] == |set i: nat | i < |s.calls| && s.calls[i] == Added(m)|
    ensures multiset(Differences(kind.minus, prev0, s.marks))[m] == |set i: nat | i < |s.calls| && s.calls[i] == Returned(m)|
    ensures |Differences(kind.minus, prev0, s.marks)| == |s.marks|
    ensures forall k :: 0 <= k < |s.marks| ==>
              Differences(kind.minus, prev0, s.marks)[k] == kind.minus(s.marks[k], if k == 0 then prev0 else s.marks[k - 1])
  {
    hide Fold, Flatten, Differences, Places, AddedAt, ReturnedAt;
    AppliedCounted(s.calls, m);
    ReportedCounted(s.calls, m);
    PlacesSpelled(s.calls, m);
    DifferencesSpelled(kind.minus, prev0, s.marks);
    CountIs(s.log, m);
    CountIs(Differences(kind.minus, prev0, s.marks), m);
    hide Count;
  }

  lemma PlacesSpelled<V(!new)>(calls: seq<Call<V>>, m: V)
    ensures Places(AddedAt(calls, m)) == set i: nat | i < |calls| && calls[i] == Added(m)
    ensures Places(ReturnedAt(calls, m)) == set i: nat | i < |calls| && calls[i] == Returned(m)
  {
  }

  lemma CountIs<V>(xs: seq<V>, m: V)
    ensures Count(xs, m) == multiset(xs)[m]
  {
  }

  lemma DifferencesSpelled<V>(minus: (V, V) -> V, start: V, marks: seq<V>)
    ensures |Differences(minus, start, marks)| == |marks|
    ensures forall k :: 0 <= k < |marks| ==>
              Differences(minus, start, marks)[k] == minus(marks[k], if k == 0 then start else marks[k - 1])
  {
  }

  // ----- retries

  /** A call as a contender for the current sum. */
  function Adds<V>(atomic: bool, c: Call<V>): Attempt<V> {
    match c
    case Adding(_) => if atomic then Idle else Loading
    case LoadedSum(_, oldV) => if atomic then Idle else Loaded(oldV)
    case _ => Idle
  }

  /** A call as a contender for the previous sum. */
  function Swaps<V>(c: Call<V>): Attempt<V> {
    match c
    case Starting => Loading
    case LoadedCur(_) => Loading
    case LoadedBoth(_, p) => Loaded(p)
    case _ => Idle
  }

  function AddRace<V>(kind: Kind<V>, s: State<V>): Race<V> {
    Race(s.cur, seq(|s.calls|, i requires 0 <= i < |s.calls| => Adds(kind.atomic, s.calls[i])), s.adds)
  }

  function SwapRace<V>(s: State<V>): Race<V> {
    Race(s.prev, seq(|s.calls|, i requires 0 <= i < |s.calls| => Swaps(s.calls[i])), s.swaps)
  }

  /** A loaded sum belongs to a loop, and with atomic additions there is none. */
  predicate Proper<V>(kind: Kind<V>, calls: seq<Call<V>>) {
    forall i :: 0 <= i < |calls| ==> !(kind.atomic && calls[i].LoadedSum?)
  }

  lemma StepProper<V>(kind: Kind<V>, s: State<V>, i: nat)
    requires i < |s.calls| && Proper(kind, s.calls)
    ensures Proper(kind, Step(kind, s, i).calls)
  {
  }

  lemma StepMoves<V>(kind: Kind<V>, s: State<V>, i: nat)
    requires i < |s.calls| && Proper(kind, s.calls)
    ensures var t := Step(kind, s, i);
            Moves(AddRace(kind, s), AddRace(kind, t), i) && Moves(SwapRace(s), SwapRace(t), i)
  {
    var t := Step(kind, s, i);
    assert AddRace(kind, t).calls == AddRace(kind, s).calls[i := AddRace(kind, t).calls[i]];
    assert SwapRace(t).calls == SwapRace(s).calls[i := SwapRace(t).calls[i]];
  }

  lemma {:induction false} RunRetries<V>(kind: Kind<V>, s: State<V>, schedule: seq<nat>)
    requires Schedule(schedule, |s.calls|) && Proper(kind, s.calls)
    ensures Proper(kind, Run(kind, s, schedule).calls)
    ensures Potential(AddRace(kind, Run(kind, s, schedule))) <= Potential(AddRace(kind, s))
    ensures Potential(SwapRace(Run(kind, s, schedule))) <= Potential(SwapRace(s))
    decreases |schedule|
  {
    hide Potential, Step, Proper, AddRace, SwapRace, Moves;
    if schedule != [] {
      var n, t := |schedule| - 1, Run(kind, s, schedule[..|schedule| - 1]);
      RunRetries(kind, s, schedule[..n]);
      StepMoves(kind, t, schedule[n]);
      StepProper(kind, t, schedule[n]);
      MoveBound(AddRace(kind, t), AddRace(kind, Step(kind, t, schedule[n])), schedule[n]);
      MoveBound(SwapRace(t), SwapRace(Step(kind, t, schedule[n])), schedule[n]);
    }
  }

  /** The calls of Aggregate that loop. */
  function Loops<V>(kind: Kind<V>, calls: seq<Call<V>>): nat {
    if calls == [] then 0 else Loops(kind, calls[1..]) + if calls[0].Adding? && !kind.atomic then 1 else 0
  }

  function DeltaCalls<V>(calls: seq<Call<V>>): nat {
    if calls == [] then 0 else DeltaCalls(calls[1..]) + if calls[0].Starting? then 1 else 0
  }

  lemma {:induction false} ContendersCounted<V>(kind: Kind<V>, cur: V, prev: V, calls: seq<Call<V>>)
    requires Fresh(calls)
    ensures Contenders(AddRace(kind, Begin(cur, prev, calls))) == Loops(kind, calls)
    ensures Contenders(SwapRace(Begin(cur, prev, calls))) == DeltaCalls(calls)
  {
    if calls != [] {
      ContendersCounted(kind, cur, prev, calls[1..]);
      var s, t := Begin(cur, prev, calls), Begin(cur, prev, calls[1..]);
      assert LiveIn(AddRace(kind, s).calls)[1..] == LiveIn(AddRace(kind, t).calls);
      assert LiveIn(SwapRace(s).calls)[1..] == LiveIn(SwapRace(t).calls);
    }
  }

  lemma {:induction false} CallsCounted<V>(kind: Kind<V>, calls: seq<Call<V>>)
    ensures Loops(kind, calls) == if kind.atomic then 0 else |set i: nat | i < |calls| && calls[i].Adding?|
    ensures DeltaCalls(calls) == |set i: nat | i < |calls| && calls[i].Starting?|
  {
    var adding := seq(|calls|, i requires 0 <= i < |calls| => calls[i].Adding?);
    var starting := seq(|calls|, i requires 0 <= i < |calls| => calls[i].Starting?);
    assert Places(adding) == set i: nat | i < |calls| && calls[i].Adding?;
    assert Places(starting) == set i: nat | i < |calls| && calls[i].Starting?;
    if calls != [] {
      CallsCounted(kind, calls[1..]);
      PlacesSize(adding);
      PlacesSize(starting);
      assert Places(adding[1..]) == set i: nat | i < |calls[1..]| && calls[1..][i].Adding?;
      assert Places(starting[1..]) == set i: nat | i < |calls[1..]| && calls[1..][i].Starting?;
    }
  }

  /** The bounds of `WorkBound` in plain numbers. */
  lemma WorkBoundSpelled<V>(kind: Kind<V>, s: State<V>, schedule: seq<nat>)
    requires s == Begin(s.cur, s.prev, s.calls) && Fresh(s.calls) && Schedule(schedule, |s.calls|)
    ensures kind.atomic ==> Run(kind, s, schedule).adds == 0
    ensures var n := |set i: nat | i < |s.calls| && s.calls[i].Adding?|; 2 * Run(kind, s, schedule).adds <= n * (n + 1)
    ensures var n := |set i: nat | i < |s.calls| && s.calls[i].Starting?|; 2 * Run(kind, s, schedule).swaps <= n * (n + 1)
  {
    hide Step, Run, Loops, DeltaCalls;
    WorkBound(kind, s, schedule);
    CallsCounted(kind, s.calls);
  }

  /** Under every schedule: n looping calls of Aggregate make at most n(n+1)/2 compare-and-swaps, none
      if additions are atomic, and n calls of Delta make at most n(n+1)/2. */
  lemma WorkBound<V>(kind: Kind<V>, s: State<V>, schedule: seq<nat>)
    requires s == Begin(s.cur, s.prev, s.calls) && Fresh(s.calls) && Schedule(schedule, |s.calls|)
    ensures Run(kind, s, schedule).adds <= Triangle(Loops(kind, s.calls))
    ensures Run(kind, s, schedule).swaps <= Triangle(DeltaCalls(s.calls))
  {
    hide Triangle, Step, Contenders, Loops, DeltaCalls, DoomedCount;
    RunRetries(kind, s, schedule);
    NoneDoomed(AddRace(kind, s));
    NoneDoomed(SwapRace(s));
    ContendersCounted(kind, s.cur, s.prev, s.calls);
  }

  /** The steps left until the call ends or fails. */
  function Left<V>(c: Call<V>): nat {
    match c
    case Adding(_) => 2
    case LoadedSum(_, _) => 1
    case Starting => 3
    case LoadedCur(_) => 2
    case LoadedBoth(_, _) => 1
    case _ => 0
  }

  function LeftIn<V>(calls: seq<Call<V>>): seq<nat> {
    seq(|calls|, i requires 0 <= i < |calls| => Left(calls[i]))
  }

  function Unfinished<V>(calls: seq<Call<V>>): seq<nat> {
    seq(|calls|, i requires 0 <= i < |calls| => if Over(calls[i]) then 0 else 1)
  }

  function DoomedNow<V(==)>(kind: Kind<V>, s: State<V>): nat {
    DoomedCount(AddRace(kind, s)) + DoomedCount(SwapRace(s))
  }

  /** Every step of a call that is not over brings the end nearer. */
  lemma StepNearer<V>(kind: Kind<V>, s: State<V>, i: nat)
    requires i < |s.calls| && !Over(s.calls[i]) && Proper(kind, s.calls)
    ensures var t := Step(kind, s, i);
            (Sum(Unfinished(s.calls)), DoomedNow(kind, s), Sum(LeftIn(s.calls))
             decreases to
             Sum(Unfinished(t.calls)), DoomedNow(kind, t), Sum(LeftIn(t.calls)))
  {
    hide DoomedCount, Potential, Sum;
    var t := Step(kind, s, i);
    var c := t.calls[i];
    StepMoves(kind, s, i);
    MoveBound(AddRace(kind, s), AddRace(kind, t), i);
    MoveBound(SwapRace(s), SwapRace(t), i);
    assert Unfinished(t.calls) == Unfinished(s.calls)[i := if Over(c) then 0 else 1];
    assert LeftIn(t.calls) == LeftIn(s.calls)[i := Left(c)];
    SumUpdate(Unfinished(s.calls), i, if Over(c) then 0 else 1);
    SumUpdate(LeftIn(s.calls), i, Left(c));
  }

  predicate SameKind<V(==)>(c: Call<V>, d: Call<V>) {
    if c.Adding? || c.LoadedSum? || c.Added? then (d.Adding? || d.LoadedSum? || d.Added?) && d.v == c.v
    else !(d.Adding? || d.LoadedSum? || d.Added?)
  }

  lemma StepKind<V>(kind: Kind<V>, s: State<V>, i: nat)
    requires i < |s.calls|
    ensures forall j :: 0 <= j < |s.calls| ==> SameKind(s.calls[j], Step(kind, s, i).calls[j])
  {
  }

  // ----- the accumulator as an object

  class Accumulator<V(==, !new)> {
    var prevSum: V
    var curSum: V
    const kind: Kind<V>

    constructor (zero: V, kind: Kind<V>)
      ensures prevSum == curSum == zero && this.kind == kind
    {
      prevSum, curSum, this.kind := zero, zero, kind;
    }

    method CompareAndSwapPrev(oldV: V, newV: V) returns (swapped: bool)
      modifies this`prevSum
      ensures swapped <==> old(prevSum) == oldV
      ensures prevSum == if swapped then newV else old(prevSum)
    {
      if prevSum != oldV { return false; }
      prevSum := newV;
      return true;
    }

    method CompareAndSwapCur(oldV: V, newV: V) returns (swapped: bool)
      modifies this`curSum
      ensures swapped <==> old(curSum) == oldV
      ensures curSum == if swapped then newV else old(curSum)
    {
      if curSum != oldV { return false; }
      curSum := newV;
      return true;
    }

    method Get() returns (v: V)
      ensures v == curSum
    {
      return curSum;
    }

    /** With no other call under way, both sums become `v`: the next delta counts from there. */
    method Set(v: V)
      modifies this
      ensures curSum == prevSum == v
    {
      var done := false;
      while !done
        invariant done ==> curSum == prevSum == v
        decreases !done
      {
        var oldCur, oldPrev := curSum, prevSum;
        var swappedCur := CompareAndSwapCur(oldCur, v);
        var swappedPrev := CompareAndSwapPrev(oldPrev, v);
        done := swappedCur && swappedPrev;
      }
    }

    /** One atomic step of call `i`. */
    method Advance(s: State<V>, i: nat) returns (t: State<V>)
      requires i < |s.calls| && s.cur == curSum && s.prev == prevSum
      modifies this
      ensures t == Step(kind, s, i) && t.cur == curSum && t.prev == prevSum
    {
      match s.calls[i]
      case Adding(v) =>
        if kind.atomic {
          curSum := kind.plus(curSum, v);
          t := s.(cur := curSum, calls := s.calls[i := Added(v)], log := s.log + [v]);
        } else {
          t := s.(calls := s.calls[i := LoadedSum(v, curSum)]);
        }
      case LoadedSum(v, oldV) =>
        var newV := kind.plus(oldV, v);
        var swapped := CompareAndSwapCur(oldV, newV);
        t := s.(cur := curSum, calls := s.calls[i := if swapped then Added(v) else Adding(v)], adds := s.adds + 1,
                log := if swapped then s.log + [v] else s.log);
      case Starting =>
        t := s.(calls := s.calls[i := LoadedCur(curSum)]);
      case LoadedCur(c) =>
        t := s.(calls := s.calls[i := LoadedBoth(c, prevSum)]);
      case LoadedBoth(c, p) =>
        var swapped := CompareAndSwapPrev(p, c);
        t := s.(prev := prevSum, calls := s.calls[i := if swapped then Returned(kind.minus(c, p)) else Starting], swaps := s.swaps + 1,
                marks := if swapped then s.marks + [c] else s.marks);
      case _ =>
        t := s;
    }

    /** Runs any calls of Aggregate and Delta side by side, under any schedule, until all are over. */
    method RunAll(start: seq<Call<V>>) returns (s: State<V>, ghost schedule: seq<nat>)
      requires Fresh(start)
      modifies this
      ensures Schedule(schedule, |start|) && s == Run(kind, Begin(old(curSum), old(prevSum), start), schedule)
      ensures s.cur == curSum && s.prev == prevSum
      ensures |s.calls| == |start| && forall i :: 0 <= i < |start| ==> Over(s.calls[i]) && SameKind(start[i], s.calls[i])
      ensures Linear(kind, s, old(curSum)) && Chained(kind, s, old(prevSum)) && Sound(kind, s, old(curSum))
      ensures s.adds <= Triangle(Loops(kind, start)) && s.swaps <= Triangle(DeltaCalls(start))
    {
      hide Linear, Chained, Sound, Step, Triangle, DoomedNow, Proper;
      ghost var first := Begin(curSum, prevSum, start);
      s, schedule := Begin(curSum, prevSum, start), [];
      FreshProper(kind, start);
      var next: nat := FirstLive(s.calls);
      while next < |s.calls|
        invariant Schedule(schedule, |start|) && s == Run(kind, first, schedule) && Proper(kind, s.calls)
        invariant s.cur == curSum && s.prev == prevSum
        invariant next < |s.calls| ==> !Over(s.calls[next])
        invariant next >= |s.calls| ==> forall i :: 0 <= i < |s.calls| ==> Over(s.calls[i])
        invariant forall i :: 0 <= i < |start| ==> SameKind(start[i], s.calls[i])
        decreases Sum(Unfinished(s.calls)), DoomedNow(kind, s), Sum(LeftIn(s.calls))
      {
        var i: nat :| i < |s.calls| && !Over(s.calls[i]);
        StepNearer(kind, s, i);
        StepKind(kind, s, i);
        StepProper(kind, s, i);
        RunNext(kind, first, schedule, i);
        s := Advance(s, i);
        schedule := schedule + [i];
        next := FirstLive(s.calls);
      }
      RunLinear(kind, first, schedule);
      WorkBound(kind, first, schedule);
    }
  }

  lemma FreshProper<V>(kind: Kind<V>, calls: seq<Call<V>>)
    requires Fresh(calls)
    ensures Proper(kind, calls)
  {
  }

  method FirstLive<V>(calls: seq<Call<V>>) returns (next: nat)
    ensures next <= |calls| && (next < |calls| ==> !Over(calls[next]))
    ensures next == |calls| ==> forall i :: 0 <= i < |calls| ==> Over(calls[i])
  {
    next := 0;
    while next < |calls| && Over(calls[next])
      invariant next <= |calls| && forall i :: 0 <= i < next ==> Over(calls[i])
    {
      next := next + 1;
    }
  }
}
