/** FIFO stages keep the order: what the sink has consumed is always a prefix of the composed
    pipeline applied to the source, and all of it if nothing disturbed the run. */
module PipelineOrder {
  import opened Pipeline

  /** One worker per stage, stage after stage. */
  ghost predicate Fifo(c: Config) {
    |c.stageOf| == c.stages && forall i :: 0 <= i < c.stages ==> c.stageOf[i] == i
  }

  /** What the source still sends. Once it has returned nothing can follow. */
  function SourceTail(c: Config, source: Source, rest: seq<Item>): seq<Payload> {
    match source
    case Offering(item) => Through(c, 0, item.payload) + All(c, rest)
    case Polling => All(c, rest)
    case Checking(_) => All(c, rest)
    case _ => []
  }

  /** The output of everything upstream of channel `k`, nearest first. Nothing passes a stage whose
      worker has returned. */
  function Upstream(c: Config, ws: seq<Worker>, tail: seq<Payload>, k: nat): seq<Payload>
    requires k <= |ws|
    decreases k
  {
    if k == 0 then tail
    else if ws[k - 1].Returned? then []
    else WorkerOutput(c, k - 1, ws[k - 1]) + Upstream(c, ws, tail, k - 1)
  }

  /** Consumed so far, then what can still reach the sink, in order. */
  function Line(c: Config, s: State): seq<Payload>
    requires |s.workers| == c.stages
  {
    s.consumed +
    if s.sink.SinkReturned? then []
    else (if s.sink.Consuming? then [s.sink.p] else []) + Upstream(c, s.workers, SourceTail(c, s.source, s.rest), c.stages)
  }

  /** The line of `t` is that of `s`, or, where a goroutine has given up, a prefix of it. */
  ghost predicate Shortens(c: Config, s: State, t: State, exact: bool)
    requires |s.workers| == |t.workers| == c.stages
  {
    Line(c, t) <= Line(c, s) && (exact ==> Line(c, t) == Line(c, s))
  }

  /** A change below stage `k` is seen above it. */
  lemma {:induction false} UpstreamLift(c: Config, ws: seq<Worker>, ws': seq<Worker>, tail: seq<Payload>, tail': seq<Payload>, m: nat, k: nat)
    requires m <= k <= |ws| == |ws'|
    requires forall i :: m <= i < k ==> ws[i] == ws'[i]
    requires Upstream(c, ws', tail', m) <= Upstream(c, ws, tail, m)
    ensures Upstream(c, ws', tail', k) <= Upstream(c, ws, tail, k)
    ensures Upstream(c, ws', tail', m) == Upstream(c, ws, tail, m) ==> Upstream(c, ws', tail', k) == Upstream(c, ws, tail, k)
    decreases k
  {
    hide WorkerOutput;
    if k > m {
      UpstreamLift(c, ws, ws', tail, tail', m, k - 1);
    }
  }

  lemma {:induction false} UpstreamFrame(c: Config, ws: seq<Worker>, ws': seq<Worker>, tail: seq<Payload>, k: nat)
    requires k <= |ws| == |ws'| && forall i :: 0 <= i < k ==> ws[i] == ws'[i]
    ensures Upstream(c, ws', tail, k) == Upstream(c, ws, tail, k)
  {
    UpstreamLift(c, ws, ws', tail, tail, 0, k);
  }

  /** A worker goes from one state to another without receiving or sending. */
  lemma WorkerLine(c: Config, s: State, t: State, w: nat)
    requires |s.workers| == |t.workers| == c.stages && w < c.stages
    requires t.workers == s.workers[w := t.workers[w]] && !s.workers[w].Returned?
    requires t.consumed == s.consumed && t.sink == s.sink && t.source == s.source && t.rest == s.rest
    requires t.workers[w].Returned? || WorkerOutput(c, w, t.workers[w]) == WorkerOutput(c, w, s.workers[w])
    ensures Shortens(c, s, t, !t.workers[w].Returned?)
    ensures t.workers[w].Returned? && WorkerOutput(c, w, s.workers[w]) == [] ==>
              Upstream(c, s.workers, SourceTail(c, s.source, s.rest), w) == [] ==> Shortens(c, s, t, true)
  {
    hide WorkerOutput, SourceTail;
    var tail := SourceTail(c, s.source, s.rest);
    UpstreamFrame(c, s.workers, t.workers, tail, w);
    UpstreamLift(c, s.workers, t.workers, tail, tail, w + 1, c.stages);
  }

  /** The source passes its item to the first stage, or a stage to the next one. */
  lemma HandoverLine(c: Config, s: State, t: State, x: nat, p: Payload)
    requires |s.workers| == |t.workers| == c.stages && x < c.stages
    requires s.workers[x].Receiving? && t.workers[x] == Processing(p)
    requires t.consumed == s.consumed && t.sink == s.sink && t.rest == s.rest
    requires forall i :: x < i < c.stages ==> t.workers[i] == s.workers[i]
    requires if x == 0 then s.source.Offering? && s.source.item.payload == p && t.source.Checking?
             else t.source == s.source && s.workers[x - 1] == Sending(p) && t.workers[x - 1].Receiving?
                  && forall i :: 0 <= i < x - 1 ==> t.workers[i] == s.workers[i]
    ensures Shortens(c, s, t, true)
  {
    hide Through, All;
    var tail, tail' := SourceTail(c, s.source, s.rest), SourceTail(c, t.source, t.rest);
    if x > 0 { UpstreamFrame(c, s.workers, t.workers, tail, x - 1); }
    assert Upstream(c, t.workers, tail', x + 1) == Upstream(c, s.workers, tail, x + 1);
    UpstreamLift(c, s.workers, t.workers, tail, tail', x + 1, c.stages);
  }

  /** The last stage, or the source if there is none, passes a payload to the sink. */
  lemma DeliveryLine(c: Config, s: State, t: State, p: Payload)
    requires |s.workers| == |t.workers| == c.stages
    requires s.sink.SinkReceiving? && t.sink == Consuming(p) && t.consumed == s.consumed && t.rest == s.rest
    requires if c.stages == 0 then s.source.Offering? && s.source.item.payload == p && t.source.Checking?
             else t.source == s.source && s.workers[c.stages - 1] == Sending(p) && t.workers[c.stages - 1].Receiving?
                  && forall i :: 0 <= i < c.stages - 1 ==> t.workers[i] == s.workers[i]
    ensures Shortens(c, s, t, true)
  {
    hide All;
    var tail, tail' := SourceTail(c, s.source, s.rest), SourceTail(c, t.source, t.rest);
    if c.stages > 0 { UpstreamFrame(c, s.workers, t.workers, tail, c.stages - 1); }
    assert Upstream(c, s.workers, tail, c.stages) == [p] + Upstream(c, t.workers, tail', c.stages);
  }

  lemma SourceLine(c: Config, s: State, t: State)
    requires |s.workers| == c.stages && t.workers == s.workers && t.consumed == s.consumed && t.sink == s.sink
    requires SourceTail(c, t.source, t.rest) <= SourceTail(c, s.source, s.rest)
    ensures Shortens(c, s, t, SourceTail(c, t.source, t.rest) == SourceTail(c, s.source, s.rest))
  {
    UpstreamLift(c, s.workers, t.workers, SourceTail(c, s.source, s.rest), SourceTail(c, t.source, t.rest), 0, c.stages);
  }

  // ----- the actions

  lemma PassOrder(c: Config, s: State, a: Action)
    requires Fifo(c) && Shape(c, s) && a.Pass? && WorkerEnabled(c, s, a)
    ensures Shape(c, ApplyWorker(c, s, a)) && Shortens(c, s, ApplyWorker(c, s, a), true)
  {
    hide Shortens, Through;
    var t, p := ApplyWorker(c, s, a), Cargo(s, a.from);
    match a.to {
      case ToWorker(x) => HandoverLine(c, s, t, x, p);
      case ToSink => DeliveryLine(c, s, t, p);
    }
  }

  /** Whether an action makes a goroutine give up: an error or a cancellation. */
  predicate GivesUp(c: Config, s: State, a: Action)
    requires Enabled(c, s, a)
  {
    match a
    case Process(w) => c.proc(c.stageOf[w], s.workers[w].p).Failed?
    case Consume => !c.accepts(s.sink.p)
    case _ => a.Abort? || a.CancelReceive? || a.CancelSend? || a.CancelSource? || a.AbortSink? || a.CancelSink?
  }

  lemma WorkerOrder(c: Config, s: State, a: Action)
    requires Fifo(c) && Shape(c, s) && Closing(c, s) && WorkerAction(a) && !a.Pass? && WorkerEnabled(c, s, a)
    ensures Shape(c, ApplyWorker(c, s, a)) && Shortens(c, s, ApplyWorker(c, s, a), !GivesUp(c, s, a))
  {
    hide Shortens, Upstream, SourceTail, Hand, Ship, Sends, Receives;
    WorkerStep(c, s, a);
    var t := ApplyWorker(c, s, a);
    WorkerLine(c, s, t, a.w);
    if a.EndOfInput? { NothingUpstream(c, s, a.w); }
    if t.workers[a.w].Returned? && !a.EndOfInput? { assert GivesUp(c, s, a); Weaken(c, s, t); }
  }

  lemma Weaken(c: Config, s: State, t: State)
    requires |s.workers| == |t.workers| == c.stages && (Shortens(c, s, t, true) || Shortens(c, s, t, false))
    ensures Shortens(c, s, t, false)
  {
  }

  lemma WorkerStep(c: Config, s: State, a: Action)
    requires Fifo(c) && Shape(c, s) && WorkerAction(a) && !a.Pass? && WorkerEnabled(c, s, a)
    ensures var t, w := ApplyWorker(c, s, a), a.w;
            && Shape(c, t) && w < c.stages && !s.workers[w].Returned? && t.workers == s.workers[w := t.workers[w]]
            && t.consumed == s.consumed && t.sink == s.sink && t.source == s.source && t.rest == s.rest
            && (t.workers[w].Returned? || WorkerOutput(c, w, t.workers[w]) == WorkerOutput(c, w, s.workers[w]))
  {
    hide Held, Hand, Ship;
  }

  /** Behind a closed channel there is nothing left. */
  lemma NothingUpstream(c: Config, s: State, w: nat)
    requires Fifo(c) && Shape(c, s) && Closing(c, s) && w <= c.stages && s.closes[w] > 0
    ensures Upstream(c, s.workers, SourceTail(c, s.source, s.rest), w) == []
  {
    if w > 0 { assert StageReturned(c, s, w - 1) && c.stageOf[w - 1] == w - 1; }
  }

  lemma EndOrder(c: Config, s: State, a: Action)
    requires Fifo(c) && Shape(c, s) && Closing(c, s) && EndAction(a) && EndEnabled(c, s, a)
    requires s.source.Polling? && s.rest == [] ==> All(c, s.rest) == []
    ensures Shape(c, ApplyEnd(c, s, a)) && Shortens(c, s, ApplyEnd(c, s, a), !GivesUp(c, s, a))
  {
    var t := ApplyEnd(c, s, a);
    if SourceAction(a) {
      hide Shortens, Accept, RejectAtSink, Through, Closing;
      SourceLine(c, s, t);
      if a.CancelSource? { Weaken(c, s, t); }
    } else {
      SinkOrder(c, s, a);
    }
  }

  lemma SinkOrder(c: Config, s: State, a: Action)
    requires Fifo(c) && Shape(c, s) && Closing(c, s) && EndAction(a) && !SourceAction(a) && EndEnabled(c, s, a)
    ensures Shape(c, ApplyEnd(c, s, a)) && Shortens(c, s, ApplyEnd(c, s, a), !GivesUp(c, s, a))
  {
    hide Upstream, SourceTail;
    var t := ApplyEnd(c, s, a);
    if a.EndOfSink? { NothingUpstream(c, s, c.stages); }
    var up := Upstream(c, s.workers, SourceTail(c, s.source, s.rest), c.stages);
    if s.sink.Consuming? { assert s.consumed + ([s.sink.p] + up) == s.consumed + [s.sink.p] + up; }
  }

  lemma ControlOrder(c: Config, s: State, a: Action)
    requires Fifo(c) && Shape(c, s) && !WorkerAction(a) && !EndAction(a) && ControlEnabled(c, s, a)
    ensures Shape(c, ApplyControl(c, s, a)) && Shortens(c, s, ApplyControl(c, s, a), true)
  {
    hide StageReturned;
  }

  lemma OrderKept(c: Config, s: State, a: Action)
    requires Fifo(c) && Shape(c, s) && Closing(c, s) && Enabled(c, s, a)
    ensures Shape(c, Apply(c, s, a)) && Shortens(c, s, Apply(c, s, a), !GivesUp(c, s, a))
  {
    hide ApplyWorker, ApplyEnd, ApplyControl, Shortens;
    if a.Pass? {
      PassOrder(c, s, a);
    } else if WorkerAction(a) {
      WorkerOrder(c, s, a);
    } else if EndAction(a) {
      EndOrder(c, s, a);
    } else {
      ControlOrder(c, s, a);
    }
  }

  ghost predicate Ordered(c: Config, s: State)
    requires |s.workers| == c.stages
  {
    && Line(c, s) <= All(c, c.source)
    && (Undisturbed(s) ==> Line(c, s) == All(c, c.source))
  }

  lemma {:induction false} IdleUpstream(c: Config, ws: seq<Worker>, tail: seq<Payload>, k: nat)
    requires k <= |ws| && forall i :: 0 <= i < |ws| ==> ws[i].Receiving?
    ensures Upstream(c, ws, tail, k) == tail
    decreases k
  {
    if k > 0 { IdleUpstream(c, ws, tail, k - 1); }
  }

  lemma InitialOrdered(c: Config)
    requires Fifo(c)
    ensures |Initial(c).workers| == c.stages && Ordered(c, Initial(c))
  {
    hide Upstream;
    IdleUpstream(c, Initial(c).workers, All(c, c.source), c.stages);
  }

  /** Giving up disturbs: an error has been attempted or the context had been cancelled. */
  lemma GivingUpDisturbs(c: Config, s: State, a: Action)
    requires Inv(c, s) && Enabled(c, s, a) && GivesUp(c, s, a)
    ensures !Undisturbed(Apply(c, s, a))
  {
    hide Through, WorkerOutput, Held;
    var t := Apply(c, s, a);
    ActionFollows(c, s, a);
    if Undisturbed(t) && s.cancelled { CancelledAtEnd(c, s); }
  }

  lemma OrderedKept(c: Config, s: State, a: Action)
    requires Fifo(c) && Inv(c, s) && Ordered(c, s) && Enabled(c, s, a)
    ensures Shape(c, Apply(c, s, a)) && Ordered(c, Apply(c, s, a))
  {
    ActionFollows(c, s, a);
    if GivesUp(c, s, a) { GivingUpDisturbs(c, s, a); }
    OrderKept(c, s, a);
    hide Line, All, Enabled, Apply, Closing, ErrorFlow, Orderly, GivesUp;
  }

  lemma {:induction false} ExecutionOrdered(c: Config, s: State, acts: seq<Action>, t: State)
    requires Fifo(c) && Inv(c, s) && Ordered(c, s) && Execution(c, s, acts, t)
    ensures |t.workers| == c.stages && Ordered(c, t)
    decreases |acts|
  {
    hide Apply, Enabled, Ordered, Closing, ErrorFlow, Orderly;
    if acts != [] {
      InvKept(c, s, acts[0]);
      OrderedKept(c, s, acts[0]);
      ExecutionOrdered(c, Apply(c, s, acts[0]), acts[1..], t);
    }
  }
}
