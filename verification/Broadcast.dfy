/** The broadcast stage: every input goes to each of its processors, as clones and, last, as the
    original. Only its safety is modelled; see `EndsIffCancelled` for when it can return. */
module Broadcast {

  /** A payload as a processor receives it: the k-th input itself, or the clone of it made for `j`. */
  datatype Copy = Original(k: nat) | Clone(k: nat, j: nat)

  /** `Giving(i)` is about to hand the newest input to processor `i`; it counts down to 0. `Left` has
      broken out of the loop and closes the processors' channels. */
  datatype Main = Looping | Giving(i: nat) | Left(closed: nat)

  /** `received` counts the inputs taken, `got[j]` is what processor `j` took from its channel,
      `ready[j]` whether it is receiving, and `cloned` lists the calls of Clone. */
  datatype State = State(main: Main, received: nat, inputClosed: bool, cancelled: bool,
                         got: seq<seq<Copy>>, ready: seq<bool>, cloned: seq<Copy>)

  datatype Action =
    | Receive | CloseInput | Spin | MakeClone | HandOff | Ready(j: nat) | Unready(j: nat) | Cancel | Leave | CloseNext

  /** `procs` processors; a broadcast has at least one. */
  function Initial(procs: nat): State {
    State(Looping, 0, false, false, seq(procs, _ => []), seq(procs, _ => true), [])
  }

  function CopyFor(k: nat, i: nat): Copy {
    if i == 0 then Original(k) else Clone(k, i)
  }

  predicate NeedsClone(s: State) {
    s.main.Giving? && s.main.i != 0 && s.received > 0 && Clone(s.received - 1, s.main.i) !in s.cloned
  }

  predicate Enabled(s: State, a: Action) {
    match a
    case Receive => s.main.Looping? && !s.inputClosed && |s.got| > 0
    case CloseInput => !s.inputClosed
    case Spin => s.main.Looping? && s.inputClosed
    case MakeClone => NeedsClone(s)
    case HandOff => s.main.Giving? && !NeedsClone(s) && s.main.i < |s.got| == |s.ready| && s.ready[s.main.i] && s.received > 0
    case Ready(j) => j < |s.ready| && !s.ready[j]
    case Unready(j) => j < |s.ready| && s.ready[j]
    case Cancel => !s.cancelled
    case Leave => (s.main.Looping? || s.main.Giving?) && s.cancelled
    case CloseNext => s.main.Left? && s.main.closed < |s.got|
  }

  /** The input being closed does not end the loop: the `break` there only leaves the select. */
  function Apply(s: State, a: Action): State
    requires Enabled(s, a)
  {
    match a
    case Receive => s.(main := Giving(|s.got| - 1), received := s.received + 1)
    case CloseInput => s.(inputClosed := true)
    case Spin => s
    case MakeClone => s.(cloned := s.cloned + [Clone(s.received - 1, s.main.i)])
    case HandOff =>
      var i := s.main.i;
      s.(main := if i == 0 then Looping else Giving(i - 1),
         got := s.got[i := s.got[i] + [CopyFor(s.received - 1, i)]],
         ready := s.ready[i := false])
    case Ready(j) => s.(ready := s.ready[j := true])
    case Unready(j) => s.(ready := s.ready[j := false])
    case Cancel => s.(cancelled := true)
    case Leave => s.(main := Left(0))
    case CloseNext => s.(main := Left(s.main.closed + 1))
  }

  ghost predicate Execution(s: State, acts: seq<Action>, t: State)
    decreases |acts|
  {
    if acts == [] then s == t
    else Enabled(s, acts[0]) && Execution(Apply(s, acts[0]), acts[1..], t)
  }

  /** Processors from `cut` on have received every input, those below it all but the newest. */
  ghost predicate Levels(s: State, cut: nat) {
    && cut <= |s.got|
    && (cut > 0 ==> s.received > 0)
    && (forall j :: 0 <= j < |s.got| ==> |s.got[j]| == if j < cut then s.received - 1 else s.received)
    && forall j, k :: 0 <= j < |s.got| && 0 <= k < |s.got[j]| ==> s.got[j][k] == CopyFor(k, j)
  }

  ghost predicate Inv(s: State) {
    && |s.ready| == |s.got| > 0
    && (s.main.Looping? ==> Levels(s, 0))
    && (s.main.Giving? ==> s.main.i < |s.got| && Levels(s, s.main.i + 1))
    && (s.main.Left? ==> s.cancelled && exists cut :: Levels(s, cut))
    && ClonesMade(s)
  }

  /** No clone is made twice, none is handed over before it is made, and none is of an input to come. */
  ghost predicate ClonesMade(s: State) {
    && (forall i, j :: 0 <= i < j < |s.cloned| ==> s.cloned[i] != s.cloned[j])
    && (forall j, k :: 0 < j < |s.got| && 0 <= k < |s.got[j]| ==> Clone(k, j) in s.cloned)
    && forall i :: 0 <= i < |s.cloned| ==> s.cloned[i].Clone? && s.cloned[i].k < s.received
  }

  lemma InvKept(s: State, a: Action)
    requires Inv(s) && Enabled(s, a)
    ensures Inv(Apply(s, a)) && |Apply(s, a).got| == |s.got|
  {
    ClonesKept(s, a);
    hide ClonesMade;
    var t := Apply(s, a);
    if a.Receive? {
      assert Levels(t, |s.got|);
    } else if a.HandOff? {
      assert Levels(t, s.main.i);
    } else {
      SameLevels(s, t);
      if a.Leave? { assert Levels(t, if s.main.Looping? then 0 else s.main.i + 1); }
    }
  }

  lemma ClonesKept(s: State, a: Action)
    requires Inv(s) && Enabled(s, a)
    ensures ClonesMade(Apply(s, a))
  {
    var t := Apply(s, a);
    if a.MakeClone? {
      assert Clone(s.received - 1, s.main.i) !in s.cloned;
      assert forall x :: x in s.cloned ==> x in t.cloned;
    } else if a.HandOff? && s.main.i != 0 {
      var i := s.main.i;
      assert Clone(s.received - 1, i) in s.cloned;
      assert |s.got[i]| == s.received - 1;
    }
  }

  lemma SameLevels(s: State, t: State)
    requires t.got == s.got && t.received == s.received
    ensures forall cut: nat :: Levels(s, cut) ==> Levels(t, cut)
  {
  }

  lemma {:induction false} ExecutionInv(s: State, acts: seq<Action>, t: State)
    requires Inv(s) && Execution(s, acts, t)
    ensures Inv(t) && |t.got| == |s.got|
    decreases |acts|
  {
    hide Inv;
    if acts != [] {
      InvKept(s, acts[0]);
      ExecutionInv(Apply(s, acts[0]), acts[1..], t);
    }
  }

  /** In every reachable state processor 0 has received the inputs themselves and every other one its
      clones of them, in order without gaps; each clone that was received was made, once; the hand-off
      counts differ by at most one; and whoever has the original of an input is last. */
  lemma BroadcastSafety(procs: nat, acts: seq<Action>, s: State)
    requires procs > 0 && Execution(Initial(procs), acts, s)
    ensures |s.got| == procs
    ensures forall k :: 0 <= k < |s.got[0]| ==> s.got[0][k] == Original(k)
    ensures forall j, k :: 0 < j < procs && 0 <= k < |s.got[j]| ==> s.got[j][k] == Clone(k, j)
    ensures forall j, k :: 0 < j < procs && 0 <= k < |s.got[j]| ==> multiset(s.cloned)[Clone(k, j)] == 1
    ensures forall j :: 0 <= j < procs ==> s.received - 1 <= |s.got[j]| <= s.received
    ensures forall i, j :: 0 <= i < procs && 0 <= j < procs ==> |s.got[i]| <= |s.got[j]| + 1
    ensures forall k, j :: 0 <= k < |s.got[0]| && 0 < j < procs ==> k < |s.got[j]| && s.got[j][k] == Clone(k, j)
  {
    assert Levels(Initial(procs), 0);
    ExecutionInv(Initial(procs), acts, s);
    var cut :| Levels(s, cut);
    forall j, k | 0 < j < procs && 0 <= k < |s.got[j]| ensures multiset(s.cloned)[Clone(k, j)] == 1 {
      Once(s.cloned, Clone(k, j));
    }
  }

  lemma {:induction false} Once<T>(xs: seq<T>, x: T)
    requires (forall i, j :: 0 <= i < j < |xs| ==> xs[i] != xs[j]) && x in xs
    ensures multiset(xs)[x] == 1
  {
    assert xs == [xs[0]] + xs[1..];
    if x in xs[1..] { Once(xs[1..], x); }
  }

  /** Clone is never called on an input whose original has been handed off. */
  lemma CloneBeforeOriginal(procs: nat, acts: seq<Action>, s: State)
    requires procs > 0 && Execution(Initial(procs), acts, s) && Enabled(s, MakeClone)
    ensures |s.got| == procs && Original(s.received - 1) !in s.got[0]
  {
    assert Levels(Initial(procs), 0);
    ExecutionInv(Initial(procs), acts, s);
    assert Levels(s, s.main.i + 1);
  }

  // ----- how the stage ends

  /** It has left the loop and closed the channels of all its processors. */
  ghost predicate Ended(s: State) {
    s.main == Left(|s.got|)
  }

  lemma {:induction false} ExecutionAppend(s: State, acts: seq<Action>, t: State, more: seq<Action>, u: State)
    requires Execution(s, acts, t) && Execution(t, more, u)
    ensures Execution(s, acts + more, u)
    decreases |acts|
  {
    if acts == [] {
      assert acts + more == more;
    } else {
      assert (acts + more)[1..] == acts[1..] + more;
      ExecutionAppend(Apply(s, acts[0]), acts[1..], t, more, u);
    }
  }

  /** Without a cancellation nobody leaves the loop; once the input is closed an idle stage spins. */
  lemma {:induction false} NeverCancelled(s: State, acts: seq<Action>, t: State)
    requires !s.cancelled && !s.main.Left? && Cancel !in acts && Execution(s, acts, t)
    ensures !t.cancelled && !t.main.Left?
    ensures s.main.Looping? && s.inputClosed ==> t.main.Looping? && t.received == s.received && t.got == s.got
    decreases |acts|
  {
    if acts != [] { NeverCancelled(Apply(s, acts[0]), acts[1..], t); }
  }

  lemma {:induction false} Cancelled(s: State, acts: seq<Action>, t: State)
    requires Execution(s, acts, t)
    ensures s.cancelled || Cancel in acts ==> t.cancelled
    decreases |acts|
  {
    if acts != [] { Cancelled(Apply(s, acts[0]), acts[1..], t); }
  }

  /** After a cancellation the stage can leave the loop wherever it is, and close its channels. */
  lemma {:induction false} CanEnd(s: State) returns (rest: seq<Action>, t: State)
    requires Inv(s) && s.cancelled && (s.main.Left? ==> s.main.closed <= |s.got|)
    ensures Cancel !in rest && Execution(s, rest, t) && Ended(t)
    decreases if s.main.Left? then |s.got| - s.main.closed else |s.got| + 1
  {
    if Ended(s) {
      rest, t := [], s;
    } else {
      var a := if s.main.Left? then CloseNext else Leave;
      InvKept(s, a);
      rest, t := CanEnd(Apply(s, a));
      rest := [a] + rest;
    }
  }

  lemma {:induction false} ClosedBound(s: State, acts: seq<Action>, t: State)
    requires Execution(s, acts, t) && (s.main.Left? ==> s.main.closed <= |s.got|)
    ensures t.main.Left? ==> t.main.closed <= |t.got|
    decreases |acts|
  {
    if acts != [] { ClosedBound(Apply(s, acts[0]), acts[1..], t); }
  }

  /** From a reachable state, and in particular from one in which the input is closed, a schedule can
      be continued to the end of the stage without a further cancellation if and only if the state is
      cancelled already or the schedule cancels. */
  lemma EndsIffCancelled(procs: nat, acts: seq<Action>, s: State, more: seq<Action>, t: State)
    requires procs > 0 && Execution(Initial(procs), acts, s) && Execution(s, more, t)
    ensures (exists rest, u :: EndsBy(t, rest, u)) <==> s.cancelled || Cancel in more
  {
    assert Levels(Initial(procs), 0);
    ExecutionInv(Initial(procs), acts, s);
    ExecutionAppend(Initial(procs), acts, s, more, t);
    ExecutionInv(Initial(procs), acts + more, t);
    ClosedBound(Initial(procs), acts + more, t);
    if s.cancelled || Cancel in more {
      Cancelled(s, more, t);
      var rest, u := CanEnd(t);
      assert EndsBy(t, rest, u);
    } else {
      NeverCancelled(s, more, t);
      forall rest, u ensures !EndsBy(t, rest, u) {
        if Cancel !in rest && Execution(t, rest, u) { NeverCancelled(t, rest, u); }
      }
    }
  }

  /** `rest` brings the stage to its end without cancelling. */
  ghost predicate EndsBy(s: State, rest: seq<Action>, t: State) {
    Cancel !in rest && Execution(s, rest, t) && Ended(t)
  }

  /** The end of the input does not end the stage: with any number of processors, and at whatever
      point the loop looks for input, the input can close with nothing cancelled, and from
      there no schedule without a cancellation ends it or moves it on. */
  lemma LeavesOnlyOnCancel(procs: nat, acts: seq<Action>, s: State)
    requires procs > 0 && Execution(Initial(procs), acts, s)
    requires s.main.Looping? && !s.inputClosed && !s.cancelled
    ensures Enabled(s, CloseInput) && Execution(Initial(procs), acts + [CloseInput], Apply(s, CloseInput))
    ensures forall rest, t :: Cancel !in rest && Execution(Apply(s, CloseInput), rest, t) ==>
              t.main.Looping? && t.received == s.received && t.got == s.got
  {
    var closed := Apply(s, CloseInput);
    assert Execution(s, [CloseInput], closed) by { assert Execution(closed, [], closed); }
    ExecutionAppend(Initial(procs), acts, s, [CloseInput], closed);
    forall rest, t | Cancel !in rest && Execution(closed, rest, t)
      ensures t.main.Looping? && t.received == s.received && t.got == s.got
    {
      NeverCancelled(closed, rest, t);
    }
  }
}
