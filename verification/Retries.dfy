/** Compare-and-swap loops on one shared cell, seen from the retries: how many attempts a set of calls
    can make between them, and why they come to an end. */
module Retries {
  import opened Sums

  /** A call that does not contend for the cell, one that is about to load it, and one that has. */
  datatype Attempt<+V> = Idle | Loading | Loaded(value: V)

  datatype Race<+V> = Race(cell: V, calls: seq<Attempt<V>>, attempts: nat)

  function Live<V>(a: Attempt<V>): nat { if a.Idle? then 0 else 1 }

  /** The compare-and-swap of this call would fail now. */
  function Doomed<V(==)>(a: Attempt<V>, cell: V): nat { if a.Loaded? && a.value != cell then 1 else 0 }

  function LiveIn<V>(calls: seq<Attempt<V>>): seq<nat> {
    seq(|calls|, i requires 0 <= i < |calls| => Live(calls[i]))
  }

  function DoomedIn<V(==)>(calls: seq<Attempt<V>>, cell: V): seq<nat> {
    seq(|calls|, i requires 0 <= i < |calls| => Doomed(calls[i], cell))
  }

  function Contenders<V>(r: Race<V>): nat { Sum(LiveIn(r.calls)) }

  function DoomedCount<V(==)>(r: Race<V>): nat { Sum(DoomedIn(r.calls, r.cell)) }

  function Triangle(n: nat): nat { n * (n + 1) / 2 }

  lemma TriangleStep(n: nat)
    ensures Triangle(n + 1) == Triangle(n) + n + 1
  {
  }

  predicate SameBut<V(==)>(r: Race<V>, r': Race<V>, i: nat) {
    i < |r.calls| == |r'.calls| && r'.calls == r.calls[i := r'.calls[i]]
  }

  predicate Loads<V(==)>(r: Race<V>, r': Race<V>, i: nat) {
    && SameBut(r, r', i) && r'.cell == r.cell && r'.attempts == r.attempts && r.calls[i].Loading?
    && (r'.calls[i].Loading? || r'.calls[i] == Loaded(r.cell))
  }

  predicate Loses<V(==)>(r: Race<V>, r': Race<V>, i: nat) {
    && SameBut(r, r', i) && r'.cell == r.cell && r'.attempts == r.attempts + 1
    && r.calls[i].Loaded? && r.calls[i].value != r.cell && r'.calls[i].Loading?
  }

  predicate Wins<V(==)>(r: Race<V>, r': Race<V>, i: nat) {
    && SameBut(r, r', i) && r'.attempts == r.attempts + 1
    && r.calls[i] == Loaded(r.cell) && r'.calls[i].Idle?
  }

  /** Nobody contends, and the cell is changed by other means. */
  predicate Uncontended<V(==)>(r: Race<V>, r': Race<V>) {
    r'.calls == r.calls && r'.attempts == r.attempts && forall j :: 0 <= j < |r.calls| ==> r.calls[j].Idle?
  }

  predicate Moves<V(==)>(r: Race<V>, r': Race<V>, i: nat) {
    r' == r || Loads(r, r', i) || Loses(r, r', i) || Wins(r, r', i) || Uncontended(r, r')
  }

  /** The attempts made and those still possible: one for each doomed call, and what the contenders
      can cause. Each failure is paid for by a success of another call since the load. */
  function Potential<V(==)>(r: Race<V>): nat {
    r.attempts + DoomedCount(r) + Triangle(Contenders(r))
  }

  lemma SameButSums<V>(r: Race<V>, r': Race<V>, i: nat)
    requires SameBut(r, r', i)
    ensures Contenders(r') + Live(r.calls[i]) == Contenders(r) + Live(r'.calls[i])
    ensures r'.cell == r.cell ==> DoomedCount(r') + Doomed(r.calls[i], r.cell) == DoomedCount(r) + Doomed(r'.calls[i], r.cell)
  {
    assert LiveIn(r'.calls) == LiveIn(r.calls)[i := Live(r'.calls[i])];
    SumUpdate(LiveIn(r.calls), i, Live(r'.calls[i]));
    if r'.cell == r.cell {
      assert DoomedIn(r'.calls, r.cell) == DoomedIn(r.calls, r.cell)[i := Doomed(r'.calls[i], r.cell)];
      SumUpdate(DoomedIn(r.calls, r.cell), i, Doomed(r'.calls[i], r.cell));
    }
  }

  lemma DoomedLive<V>(r: Race<V>)
    ensures DoomedCount(r) <= Contenders(r)
  {
    SumAtMost(DoomedIn(r.calls, r.cell), LiveIn(r.calls));
  }

  lemma NoneDoomed<V>(r: Race<V>)
    requires forall j :: 0 <= j < |r.calls| ==> !r.calls[j].Loaded?
    ensures DoomedCount(r) == 0
  {
    SumZeros(DoomedIn(r.calls, r.cell));
  }

  /** No move raises the potential. A move that loses or loads does not raise the number of doomed
      calls, and one that loses lowers it. */
  lemma MoveBound<V>(r: Race<V>, r': Race<V>, i: nat)
    requires Moves(r, r', i)
    ensures Potential(r') <= Potential(r)
    ensures Loses(r, r', i) ==> DoomedCount(r') < DoomedCount(r)
    ensures r' == r || Loads(r, r', i) || Uncontended(r, r') ==> DoomedCount(r') == DoomedCount(r)
  {
    hide Triangle, DoomedCount, Contenders;
    if SameBut(r, r', i) { SameButSums(r, r', i); }
    if Wins(r, r', i) {
      DoomedLive(r');
      TriangleStep(Contenders(r'));
    }
    if Uncontended(r, r') {
      NoneDoomed(r);
      NoneDoomed(r');
      SameContenders(r, r');
    }
  }

  lemma SameContenders<V>(r: Race<V>, r': Race<V>)
    requires r'.calls == r.calls
    ensures Contenders(r') == Contenders(r)
  {
  }
}
