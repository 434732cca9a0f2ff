/** The float accumulator, whose calls of Aggregate retry: the bound on their attempts is met. */
module FloatAccumulators {
  import opened Retries
  import opened Accumulators

  /** The sum after the first `k` additions. */
  function After<V>(kind: Kind<V>, cur: V, vs: seq<V>, k: nat): V
    requires k <= |vs|
  {
    Fold(kind.plus, cur, vs[..k])
  }

  /** Every addition changes the sum. */
  ghost predicate Moving<V>(kind: Kind<V>, cur: V, vs: seq<V>) {
    forall k: nat :: k < |vs| ==> After(kind, cur, vs, k + 1) != After(kind, cur, vs, k)
  }

  function Attempts(n: nat, k: nat): int { Triangle(n) - Triangle(if k <= n then n - k else 0) }

  function CallsOf<V>(vs: seq<V>): seq<Call<V>> {
    seq(|vs|, i requires 0 <= i < |vs| => Adding(vs[i]))
  }

  /** The first `k` calls are over, the next ones up to `j` have loaded the sum. */
  function AllLoading<V>(kind: Kind<V>, cur: V, vs: seq<V>, k: nat, j: nat): seq<Call<V>>
    requires k <= j <= |vs|
  {
    seq(|vs|, i requires 0 <= i < |vs| =>
      if i < k then Added(vs[i]) else if i < j then LoadedSum(vs[i], After(kind, cur, vs, k)) else Adding(vs[i]))
  }

  /** Call `k` has just succeeded, and those after it up to `j` have failed. */
  function AllFailing<V>(kind: Kind<V>, cur: V, vs: seq<V>, k: nat, j: nat): seq<Call<V>>
    requires k < j <= |vs|
  {
    seq(|vs|, i requires 0 <= i < |vs| =>
      if i <= k then Added(vs[i]) else if i < j then Adding(vs[i]) else LoadedSum(vs[i], After(kind, cur, vs, k)))
  }

  ghost predicate IsLoading<V>(kind: Kind<V>, cur: V, vs: seq<V>, k: nat, j: nat, s: State<V>)
    requires k <= j <= |vs|
  {
    && s.cur == After(kind, cur, vs, k) && s.calls == AllLoading(kind, cur, vs, k, j)
    && s.adds == Attempts(|vs|, k) && s.log == vs[..k]
  }

  ghost predicate IsFailing<V>(kind: Kind<V>, cur: V, vs: seq<V>, k: nat, j: nat, s: State<V>)
    requires k < j <= |vs|
  {
    && s.cur == After(kind, cur, vs, k + 1) && s.calls == AllFailing(kind, cur, vs, k, j)
    && s.adds == Attempts(|vs|, k) + j - k && s.log == vs[..k + 1]
  }

  lemma LoadStep<V>(kind: Kind<V>, cur: V, vs: seq<V>, k: nat, j: nat, s: State<V>)
    requires !kind.atomic && k <= j < |vs| && IsLoading(kind, cur, vs, k, j, s)
    ensures IsLoading(kind, cur, vs, k, j + 1, Step(kind, s, j))
  {
  }

  lemma WinStep<V>(kind: Kind<V>, cur: V, vs: seq<V>, k: nat, s: State<V>)
    requires !kind.atomic && k < |vs| && IsLoading(kind, cur, vs, k, |vs|, s)
    ensures IsFailing(kind, cur, vs, k, k + 1, Step(kind, s, k))
  {
    assert vs[..k + 1] == vs[..k] + [vs[k]] && vs[..k + 1][..k] == vs[..k];
  }

  lemma LoseStep<V>(kind: Kind<V>, cur: V, vs: seq<V>, k: nat, j: nat, s: State<V>)
    requires !kind.atomic && Moving(kind, cur, vs) && k < j < |vs| && IsFailing(kind, cur, vs, k, j, s)
    ensures IsFailing(kind, cur, vs, k, j + 1, Step(kind, s, j))
  {
  }

  /** When the last one has failed, the next round begins. */
  lemma NextRound<V>(kind: Kind<V>, cur: V, vs: seq<V>, k: nat, s: State<V>)
    requires k < |vs| && IsFailing(kind, cur, vs, k, |vs|, s)
    ensures IsLoading(kind, cur, vs, k + 1, k + 1, s)
  {
    TriangleStep(|vs| - k - 1);
  }

  lemma {:induction false} ReachLoading<V>(kind: Kind<V>, cur: V, prev: V, vs: seq<V>, k: nat, j: nat) returns (schedule: seq<nat>)
    requires !kind.atomic && Moving(kind, cur, vs) && k <= j <= |vs|
    ensures Schedule(schedule, |vs|) && IsLoading(kind, cur, vs, k, j, Run(kind, Begin(cur, prev, CallsOf(vs)), schedule))
    decreases k, 0, j
  {
    hide Step, IsFailing, Moving;
    var s := Begin(cur, prev, CallsOf(vs));
    if j > k {
      schedule := ReachLoading(kind, cur, prev, vs, k, j - 1);
      LoadStep(kind, cur, vs, k, j - 1, Run(kind, s, schedule));
      RunNext(kind, s, schedule, j - 1);
      schedule := schedule + [j - 1];
    } else if k > 0 {
      schedule := ReachFailing(kind, cur, prev, vs, k - 1, |vs|);
      NextRound(kind, cur, vs, k - 1, Run(kind, s, schedule));
    } else {
      schedule := [];
      assert CallsOf(vs) == AllLoading(kind, cur, vs, 0, 0);
    }
  }

  lemma {:induction false} ReachFailing<V>(kind: Kind<V>, cur: V, prev: V, vs: seq<V>, k: nat, j: nat) returns (schedule: seq<nat>)
    requires !kind.atomic && Moving(kind, cur, vs) && k < j <= |vs|
    ensures Schedule(schedule, |vs|) && IsFailing(kind, cur, vs, k, j, Run(kind, Begin(cur, prev, CallsOf(vs)), schedule))
    decreases k, 1, j
  {
    hide Step, IsLoading, Moving;
    var s := Begin(cur, prev, CallsOf(vs));
    var i := if j > k + 1 then j - 1 else k;
    if j > k + 1 {
      schedule := ReachFailing(kind, cur, prev, vs, k, j - 1);
      LoseStep(kind, cur, vs, k, i, Run(kind, s, schedule));
    } else {
      schedule := ReachLoading(kind, cur, prev, vs, k, |vs|);
      WinStep(kind, cur, vs, k, Run(kind, s, schedule));
    }
    RunNext(kind, s, schedule, i);
    schedule := schedule + [i];
  }

  /** The bound is met: for any number of arguments each of which changes the sum, some schedule ends
      all n calls with exactly n(n+1)/2 compare-and-swaps. */
  lemma WorstCase<V>(kind: Kind<V>, cur: V, prev: V, vs: seq<V>) returns (schedule: seq<nat>)
    requires !kind.atomic && Moving(kind, cur, vs)
    ensures Schedule(schedule, |vs|)
    ensures var t := Run(kind, Begin(cur, prev, CallsOf(vs)), schedule);
            && t.adds == Triangle(|vs|) && t.log == vs
            && forall i :: 0 <= i < |vs| ==> t.calls[i] == Added(vs[i])
  {
    schedule := ReachLoading(kind, cur, prev, vs, |vs|, |vs|);
    assert vs[..|vs|] == vs && Triangle(0) == 0;
  }
}
