/** When a call of the pipeline returns an error: exactly if some payload gives cause for one. */
module PipelineErrors {
  import opened Pipeline
  import opened PipelineFlow
  import opened Sums

  /** Whether a payload that enters stage `i` makes a processor fail, or is refused by the sink. */
  function Trouble(c: Config, i: nat, p: Payload): nat
    decreases c.stages - i
  {
    if i >= c.stages then (if c.accepts(p) then 0 else 1)
    else match c.proc(i, p) case Failed => 1 case Dropped => 0 case Emitted(q) => Trouble(c, i + 1, q)
  }

  function Report(item: Item): nat { if item.reports then 1 else 0 }

  /** The causes for errors among the payloads of the source. */
  function Causes(c: Config, items: seq<Item>): nat {
    if items == [] then 0 else Trouble(c, 0, items[0].payload) + Report(items[0]) + Causes(c, items[1..])
  }

  function WorkerCause(c: Config, i: nat, w: Worker): nat {
    match w
    case Processing(p) => Trouble(c, i, p)
    case Sending(p) => Trouble(c, i + 1, p)
    case _ => 0
  }

  function SourceCause(c: Config, s: Source): nat {
    match s
    case Offering(item) => Trouble(c, 0, item.payload) + Report(item)
    case Checking(item) => Report(item)
    case _ => 0
  }

  function SinkCause(c: Config, s: Sink): nat {
    match s case Consuming(p) => Trouble(c, c.stages, p) case _ => 0
  }

  function WorkerCauses(c: Config, ws: seq<Worker>): seq<nat>
    requires |ws| == |c.stageOf|
  {
    seq(|ws|, w requires 0 <= w < |ws| => WorkerCause(c, c.stageOf[w], ws[w]))
  }

  /** The causes that are still on their way. */
  function Pending(c: Config, s: State): nat
    requires |s.workers| == |c.stageOf|
  {
    Causes(c, s.rest) + SourceCause(c, s.source) + Sum(WorkerCauses(c, s.workers)) + SinkCause(c, s.sink)
  }

  /** No cause is invented, and one that is gone was reported or was abandoned. */
  ghost predicate Accounted(c: Config, s: State, t: State)
    requires |s.workers| == |t.workers| == |c.stageOf|
  {
    && s.attempts <= t.attempts && |s.abandoned| <= |t.abandoned|
    && Pending(c, t) <= Pending(c, s)
    && Pending(c, s) + s.attempts + 2 * |s.abandoned| <= Pending(c, t) + t.attempts + 2 * |t.abandoned|
  }

  /** An error without a cause comes of a cancellation. */
  ghost predicate Caused(c: Config, s: State, a: Action, t: State)
    requires |s.workers| == |c.stageOf|
  {
    Pending(c, s) == 0 && t.attempts > s.attempts ==> a.Abort? || a.AbortSink?
  }

  lemma {:induction false} TroubleBound(c: Config, i: nat, p: Payload)
    ensures Trouble(c, i, p) <= 1
    decreases c.stages - i
  {
    if i < c.stages {
      match c.proc(i, p) case Emitted(q) => TroubleBound(c, i + 1, q); case _ =>
    }
  }

  lemma WorkerCausesUpdate(c: Config, ws: seq<Worker>, w: nat, x: Worker)
    requires |ws| == |c.stageOf| && w < |ws|
    ensures Sum(WorkerCauses(c, ws[w := x])) + WorkerCause(c, c.stageOf[w], ws[w])
         == Sum(WorkerCauses(c, ws)) + WorkerCause(c, c.stageOf[w], x)
  {
    hide WorkerCause, Sum;
    assert WorkerCauses(c, ws[w := x]) == WorkerCauses(c, ws)[w := WorkerCause(c, c.stageOf[w], x)];
    SumUpdate(WorkerCauses(c, ws), w, WorkerCause(c, c.stageOf[w], x));
  }

  /** The cause of one worker is part of the sum. */
  lemma {:induction false} SumHas(xs: seq<nat>, i: nat)
    requires i < |xs|
    ensures xs[i] <= Sum(xs)
  {
    if i > 0 { SumHas(xs[1..], i - 1); }
  }

  lemma PassCauses(c: Config, s: State, a: Action)
    requires Shape(c, s) && a.Pass? && WorkerEnabled(c, s, a)
    ensures Shape(c, ApplyWorker(c, s, a)) && Accounted(c, s, ApplyWorker(c, s, a)) && Caused(c, s, a, ApplyWorker(c, s, a))
  {
    hide WorkerCauses, Sum, Trouble, Causes;
    var m := Ship(c, s, a.from);
    var t := Hand(m, a.to, Cargo(s, a.from));
    assert t == ApplyWorker(c, s, a);
    if a.from.FromWorker? { WorkerCausesUpdate(c, s.workers, a.from.w, Receiving); }
    if a.to.ToWorker? { WorkerCausesUpdate(c, m.workers, a.to.x, Processing(Cargo(s, a.from))); }
  }

  lemma WorkerCausesStep(c: Config, s: State, a: Action)
    requires Shape(c, s) && WorkerAction(a) && !a.Pass? && WorkerEnabled(c, s, a)
    ensures var t := ApplyWorker(c, s, a); Shape(c, t) && Accounted(c, s, t) && Caused(c, s, a, t)
  {
    hide WorkerCauses, Sum, Causes, Hand, Ship, SourceCause, SinkCause;
    var t := ApplyWorker(c, s, a);
    WorkerFrame(c, s, a);
    WorkerFollows(c, s, a);
    WorkerCausesUpdate(c, s.workers, a.w, t.workers[a.w]);
    WorkerSettles(c, s, a);
    SumHasWorker(c, s.workers, a.w);
    hide ApplyWorker, WorkerCause;
  }

  lemma SumHasWorker(c: Config, ws: seq<Worker>, w: nat)
    requires |ws| == |c.stageOf| && w < |ws|
    ensures WorkerCause(c, c.stageOf[w], ws[w]) <= Sum(WorkerCauses(c, ws))
  {
    hide WorkerCause;
    SumHas(WorkerCauses(c, ws), w);
  }

  /** What one worker does with the cause it carries. */
  lemma WorkerSettles(c: Config, s: State, a: Action)
    requires Shape(c, s) && WorkerAction(a) && !a.Pass? && WorkerEnabled(c, s, a)
    requires a.w < |s.workers| && a.w < |ApplyWorker(c, s, a).workers|
    ensures var t, i := ApplyWorker(c, s, a), c.stageOf[a.w];
            var before, after := WorkerCause(c, i, s.workers[a.w]), WorkerCause(c, i, t.workers[a.w]);
            && s.attempts <= t.attempts && |s.abandoned| <= |t.abandoned| && after <= before
            && before + s.attempts + 2 * |s.abandoned| <= after + t.attempts + 2 * |t.abandoned|
            && (before == 0 && t.attempts > s.attempts ==> a.Abort?)
  {
    hide Through, WorkerOutput, Hand, Ship;
    match s.workers[a.w]
    case Processing(p) => TroubleBound(c, c.stageOf[a.w], p);
    case Sending(p) => TroubleBound(c, c.stageOf[a.w] + 1, p);
    case _ =>
  }

  lemma EndCauses(c: Config, s: State, a: Action)
    requires Shape(c, s) && EndAction(a) && EndEnabled(c, s, a)
    ensures var t := ApplyEnd(c, s, a); Shape(c, t) && Accounted(c, s, t) && Caused(c, s, a, t)
  {
    if SourceAction(a) { SourceCauses(c, s, a); } else { SinkCauses(c, s, a); }
    hide ApplyEnd, Accounted, Caused;
  }

  lemma SourceCauses(c: Config, s: State, a: Action)
    requires Shape(c, s) && EndAction(a) && SourceAction(a) && EndEnabled(c, s, a)
    ensures var t := ApplyEnd(c, s, a); Shape(c, t) && Accounted(c, s, t) && Caused(c, s, a, t)
  {
    hide WorkerCauses, Sum, Through, Trouble, SinkCause, RejectAtSink, Accept;
    if s.source.Offering? { TroubleBound(c, 0, s.source.item.payload); }
  }

  lemma SinkCauses(c: Config, s: State, a: Action)
    requires Shape(c, s) && EndAction(a) && !SourceAction(a) && EndEnabled(c, s, a)
    ensures var t := ApplyEnd(c, s, a); Shape(c, t) && Accounted(c, s, t) && Caused(c, s, a, t)
  {
    hide WorkerCauses, Sum, Through, SourceCause, Causes;
    if s.sink.Consuming? { TroubleBound(c, c.stages, s.sink.p); }
  }

  lemma ControlCauses(c: Config, s: State, a: Action)
    requires Shape(c, s) && !WorkerAction(a) && !EndAction(a) && ControlEnabled(c, s, a)
    ensures var t := ApplyControl(c, s, a); Shape(c, t) && Accounted(c, s, t) && Caused(c, s, a, t)
  {
    hide WorkerCauses, Sum, Causes, SourceCause, SinkCause, StageReturned;
  }

  lemma ActionCauses(c: Config, s: State, a: Action)
    requires Enabled(c, s, a)
    ensures Shape(c, Apply(c, s, a)) && Accounted(c, s, Apply(c, s, a)) && Caused(c, s, a, Apply(c, s, a))
  {
    hide ApplyWorker, ApplyEnd, ApplyControl, Accounted, Caused;
    if a.Pass? {
      PassCauses(c, s, a);
    } else if WorkerAction(a) {
      WorkerCausesStep(c, s, a);
    } else if EndAction(a) {
      EndCauses(c, s, a);
    } else {
      ControlCauses(c, s, a);
    }
  }

  /** Without outside cancellation a goroutine is only aborted after an error. */
  lemma AbortAfterError(c: Config, s: State, a: Action)
    requires Inv(c, s) && Enabled(c, s, a) && (a.Abort? || a.AbortSink?)
    ensures s.outside || s.attempts > 0
  {
    if s.waiter.WaiterDone? { AllReturned(c, s); }
  }

  lemma {:induction false} ExecutionCauses(c: Config, s: State, acts: seq<Action>, t: State)
    requires Inv(c, s) && Execution(c, s, acts, t)
    ensures Inv(c, t) && Accounted(c, s, t)
    ensures !t.outside && Pending(c, s) == 0 && s.attempts == 0 ==> t.attempts == 0
    ensures s.outside ==> t.outside
    decreases |acts|
  {
    if acts != [] {
      hide Inv, Pending, Apply, Enabled;
      var a := acts[0];
      assert Shape(c, s) by { InvShape(c, s); }
      InvKept(c, s, a);
      ActionCauses(c, s, a);
      OutsideStays(c, s, a);
      if a.Abort? || a.AbortSink? { AbortAfterError(c, s, a); }
      ExecutionCauses(c, Apply(c, s, a), acts[1..], t);
    }
  }

  lemma InvShape(c: Config, s: State)
    requires Inv(c, s)
    ensures Shape(c, s)
  {
  }

  lemma OutsideStays(c: Config, s: State, a: Action)
    requires Enabled(c, s, a)
    ensures s.outside ==> Apply(c, s, a).outside
  {
    hide Through, WorkerOutput, Held;
  }

  // ----- the condition, said of the processors and the sink alone

  /** `qs` follows a payload to where it stumbles: each processor emits what the next one gets, and
      then one fails, or the sink refuses what the last one emits. */
  ghost predicate Stumbles(c: Config, p: Payload, qs: seq<Payload>) {
    && 0 < |qs| <= c.stages + 1 && qs[0] == p
    && (forall i :: 0 <= i < |qs| - 1 ==> c.proc(i, qs[i]) == Emitted(qs[i + 1]))
    && if |qs| == c.stages + 1 then !c.accepts(qs[c.stages]) else c.proc(|qs| - 1, qs[|qs| - 1]).Failed?
  }

  /** The same from stage `i` on. */
  ghost predicate StumblesFrom(c: Config, i: nat, p: Payload, qs: seq<Payload>)
    requires i <= c.stages
  {
    && 0 < |qs| <= c.stages - i + 1 && qs[0] == p
    && (forall k :: 0 <= k < |qs| - 1 ==> c.proc(i + k, qs[k]) == Emitted(qs[k + 1]))
    && if |qs| == c.stages - i + 1 then !c.accepts(qs[c.stages - i]) else c.proc(i + |qs| - 1, qs[|qs| - 1]).Failed?
  }

  lemma {:induction false} TroubleStumbles(c: Config, i: nat, p: Payload) returns (qs: seq<Payload>)
    requires i <= c.stages && Trouble(c, i, p) > 0
    ensures StumblesFrom(c, i, p, qs)
    decreases c.stages - i
  {
    qs := [p];
    if i < c.stages && c.proc(i, p).Emitted? {
      var rest := TroubleStumbles(c, i + 1, c.proc(i, p).p);
      qs := [p] + rest;
      forall k | 0 <= k < |qs| - 1 ensures c.proc(i + k, qs[k]) == Emitted(qs[k + 1]) {
        if k > 0 { assert c.proc(i + 1 + (k - 1), rest[k - 1]) == Emitted(rest[k]); }
      }
    }
  }

  lemma {:induction false} StumblesTrouble(c: Config, i: nat, p: Payload, qs: seq<Payload>)
    requires i <= c.stages && StumblesFrom(c, i, p, qs)
    ensures Trouble(c, i, p) > 0
    decreases |qs|
  {
    if i < c.stages && |qs| > 1 {
      var rest := qs[1..];
      assert c.proc(i + 0, qs[0]) == Emitted(qs[1]);
      forall k | 0 <= k < |rest| - 1 ensures c.proc(i + 1 + k, rest[k]) == Emitted(rest[k + 1]) {
        assert c.proc(i + (k + 1), qs[k + 1]) == Emitted(qs[k + 2]);
      }
      StumblesTrouble(c, i + 1, qs[1], rest);
    }
  }

  lemma TroubleSpelled(c: Config, p: Payload)
    ensures Trouble(c, 0, p) > 0 <==> exists qs :: Stumbles(c, p, qs)
  {
    if Trouble(c, 0, p) > 0 {
      var qs := TroubleStumbles(c, 0, p);
      forall i | 0 <= i < |qs| - 1 ensures c.proc(i, qs[i]) == Emitted(qs[i + 1]) {
        assert c.proc(0 + i, qs[i]) == Emitted(qs[i + 1]);
      }
      assert Stumbles(c, p, qs);
    }
    if qs :| Stumbles(c, p, qs) {
      forall i | 0 <= i < |qs| - 1 ensures c.proc(0 + i, qs[i]) == Emitted(qs[i + 1]) {
        assert c.proc(i, qs[i]) == Emitted(qs[i + 1]);
      }
      StumblesTrouble(c, 0, p, qs);
    }
  }

  /** The source reports an error behind an item, or its payload stumbles. */
  ghost predicate GivesCause(c: Config, item: Item) {
    item.reports || exists qs :: Stumbles(c, item.payload, qs)
  }

  lemma {:induction false} CausesSpelled(c: Config, items: seq<Item>)
    ensures Causes(c, items) > 0 <==> exists item :: item in items && GivesCause(c, item)
    decreases |items|
  {
    hide Trouble, Stumbles;
    if items != [] {
      TroubleSpelled(c, items[0].payload);
      CausesSpelled(c, items[1..]);
      assert GivesCause(c, items[0]) <==> Trouble(c, 0, items[0].payload) + Report(items[0]) > 0;
      hide GivesCause;
      if item :| item in items[1..] && GivesCause(c, item) { assert item in items; }
      if item :| item in items && GivesCause(c, item) { assert item == items[0] || item in items[1..]; }
    }
  }

  /** Once everybody has returned from an undisturbed run, no cause is left and nothing was abandoned. */
  lemma NothingPending(c: Config, s: State)
    requires Inv(c, s) && s.main.MainReturned? && Undisturbed(s)
    ensures Pending(c, s) == 0 && s.abandoned == []
  {
    AllReturned(c, s);
    SumZeros(WorkerCauses(c, s.workers));
  }

  lemma InitialPending(c: Config)
    requires ValidConfig(c)
    ensures Inv(c, Initial(c)) && Pending(c, Initial(c)) == Causes(c, c.source)
  {
    InitialInv(c);
    SumZeros(WorkerCauses(c, Initial(c).workers));
  }

  /** Without outside cancellation the call returns an error if and only if the source reports one,
      or some payload of it makes a processor fail or is refused by the sink. */
  lemma ErrorIffCause(c: Config, acts: seq<Action>, s: State)
    requires ValidConfig(c) && Reached(c, acts, s) && s.main.MainReturned? && !s.outside
    ensures s.collected > 0 <==> exists item :: item in c.source && GivesCause(c, item)
  {
    InitialPending(c);
    ExecutionCauses(c, Initial(c), acts, s);
    CausesSpelled(c, c.source);
    if s.attempts == 0 { NothingPending(c, s); }
    hide Causes, GivesCause, WorkerCauses;
  }
}
