/** Conservation in the pipeline: nothing that enters is duplicated, and only errors and cancellation
    lose anything. */
module PipelineFlow {
  import opened Pipeline
  import opened Sums

  // ----- outputs

  function Outs(c: Config, ws: seq<Worker>): seq<seq<Payload>>
    requires |ws| == |c.stageOf|
  {
    seq(|ws|, w requires 0 <= w < |ws| => WorkerOutput(c, c.stageOf[w], ws[w]))
  }

  /** The outputs of what the source has not passed on. */
  function SourceOut(c: Config, s: State): seq<Payload> {
    (if s.source.Offering? then Through(c, 0, s.source.item.payload) else []) + All(c, s.rest)
  }

  function SinkHolds(s: State): seq<Payload> {
    if s.sink.Consuming? then [s.sink.p] else []
  }

  /** How often `m` has been consumed, is still to be consumed, or has been lost. */
  function OutputCount(c: Config, s: State, m: Payload): nat
    requires Shape(c, s)
  {
    Count(s.consumed, m) + Count(SinkHolds(s), m) + Count(Flatten(Outs(c, s.workers)), m)
    + Count(SourceOut(c, s), m) + Count(s.lost, m)
  }

  ghost predicate OutputsConserved(c: Config, s: State)
    requires Shape(c, s)
  {
    forall m :: OutputCount(c, s, m) == Count(All(c, c.source), m)
  }

  lemma OutsUpdate(c: Config, ws: seq<Worker>, w: nat, x: Worker, m: Payload)
    requires |ws| == |c.stageOf| && w < |ws|
    ensures Count(Flatten(Outs(c, ws[w := x])), m) + Count(WorkerOutput(c, c.stageOf[w], ws[w]), m)
         == Count(Flatten(Outs(c, ws)), m) + Count(WorkerOutput(c, c.stageOf[w], x), m)
  {
    hide WorkerOutput, Flatten, Count;
    FlattenUpdate(Outs(c, ws), w, WorkerOutput(c, c.stageOf[w], x), m);
    assert Outs(c, ws[w := x]) == Outs(c, ws)[w := WorkerOutput(c, c.stageOf[w], x)];
  }

  lemma ShipOutput(c: Config, s: State, from: Sender, m: Payload)
    requires Shape(c, s)
    requires match from case FromSource => s.source.Offering? case FromWorker(w) => w < |s.workers| && s.workers[w].Sending?
    ensures var t := Ship(c, s, from);
            var next := match from case FromSource => 0 case FromWorker(w) => c.stageOf[w] + 1;
            Shape(c, t) && OutputCount(c, t, m) + Count(Through(c, next, Cargo(s, from)), m) == OutputCount(c, s, m)
  {
    hide Flatten, Outs, All, Through, Count;
    CountNone(m);
    match from {
      case FromWorker(w) => OutsUpdate(c, s.workers, w, Receiving, m);
      case FromSource =>
        CountConcat(Through(c, 0, s.source.item.payload), All(c, s.rest), m);
        CountConcat([], All(c, s.rest), m);
    }
  }

  lemma HandOutput(c: Config, s: State, to: Receiver, p: Payload, m: Payload)
    requires Shape(c, s)
    requires match to case ToSink => s.sink.SinkReceiving? case ToWorker(x) => x < |s.workers| && s.workers[x].Receiving?
    ensures var t := Hand(s, to, p);
            Shape(c, t) && OutputCount(c, t, m) == OutputCount(c, s, m) + Count(Through(c, ChannelOf(c, to), p), m)
  {
    hide Flatten, Outs, All, Count;
    CountNone(m);
    if to.ToWorker? { OutsUpdate(c, s.workers, to.x, Processing(p), m); }
  }

  lemma PassOutput(c: Config, s: State, a: Action, m: Payload)
    requires Shape(c, s) && a.Pass? && WorkerEnabled(c, s, a)
    ensures Shape(c, ApplyWorker(c, s, a)) && OutputCount(c, ApplyWorker(c, s, a), m) == OutputCount(c, s, m)
  {
    hide OutputCount, Through;
    ShipOutput(c, s, a.from, m);
    HandOutput(c, Ship(c, s, a.from), a.to, Cargo(s, a.from), m);
  }

  /** A worker's own action changes its place, the marks, the losses and the error channel only. */
  lemma WorkerFrame(c: Config, s: State, a: Action)
    requires Shape(c, s) && WorkerAction(a) && !a.Pass? && WorkerEnabled(c, s, a)
    ensures var t := ApplyWorker(c, s, a);
            && t.source == s.source && t.rest == s.rest && t.sink == s.sink && t.consumed == s.consumed
            && |t.workers| == |s.workers| && a.w < |s.workers| && t.workers == s.workers[a.w := t.workers[a.w]]
  {
    hide Through, WorkerOutput, Held, Hand, Ship;
  }

  /** What a worker's action loses is what leaves its hands. */
  lemma WorkerLoss(c: Config, s: State, a: Action, m: Payload)
    requires Shape(c, s) && WorkerAction(a) && !a.Pass? && WorkerEnabled(c, s, a)
    requires a.w < |s.workers| && a.w < |ApplyWorker(c, s, a).workers|
    ensures var t, i := ApplyWorker(c, s, a), c.stageOf[a.w];
            Count(WorkerOutput(c, i, t.workers[a.w]), m) + Count(t.lost, m)
            == Count(WorkerOutput(c, i, s.workers[a.w]), m) + Count(s.lost, m)
  {
    hide Held, Hand, Ship, Count;
    CountNone(m);
    CountConcat(s.lost, WorkerOutput(c, c.stageOf[a.w], s.workers[a.w]), m);
  }

  lemma WorkerOutputKept(c: Config, s: State, a: Action, m: Payload)
    requires Shape(c, s) && WorkerAction(a) && !a.Pass? && WorkerEnabled(c, s, a)
    ensures Shape(c, ApplyWorker(c, s, a)) && OutputCount(c, ApplyWorker(c, s, a), m) == OutputCount(c, s, m)
  {
    WorkerFollows(c, s, a);
    WorkerFrame(c, s, a);
    WorkerLoss(c, s, a, m);
    hide ApplyWorker, WorkerEnabled, Flatten, Outs, All, Through, WorkerOutput, Count;
    OutsUpdate(c, s.workers, a.w, ApplyWorker(c, s, a).workers[a.w], m);
  }

  lemma SourceOutput(c: Config, s: State, a: Action, m: Payload)
    requires Shape(c, s) && SourceAction(a) && EndEnabled(c, s, a)
    ensures Shape(c, ApplyEnd(c, s, a)) && OutputCount(c, ApplyEnd(c, s, a), m) == OutputCount(c, s, m)
  {
    hide Flatten, Outs, Through, Accept, RejectAtSink, Count;
    CountNone(m);
    CountConcat([], All(c, s.rest), m);
    match a {
      case Poll => if s.rest != [] { CountConcat(Through(c, 0, s.rest[0].payload), All(c, s.rest[1..]), m); }
      case CancelSource =>
        CountConcat(Through(c, 0, s.source.item.payload), All(c, s.rest), m);
        CountConcat(s.lost, Through(c, 0, s.source.item.payload), m);
      case Check =>
      case CloseSource =>
    }
  }

  lemma SinkOutput(c: Config, s: State, a: Action, m: Payload)
    requires Shape(c, s) && EndAction(a) && !SourceAction(a) && EndEnabled(c, s, a)
    ensures Shape(c, ApplyEnd(c, s, a)) && OutputCount(c, ApplyEnd(c, s, a), m) == OutputCount(c, s, m)
  {
    hide Flatten, Outs, All, Through, Count;
    CountNone(m);
    if s.sink.Consuming? {
      CountConcat(s.consumed, [s.sink.p], m);
      CountConcat(s.lost, [s.sink.p], m);
    }
  }

  lemma ControlOutputKept(c: Config, s: State, a: Action, m: Payload)
    requires Shape(c, s) && !WorkerAction(a) && !EndAction(a) && ControlEnabled(c, s, a)
    ensures Shape(c, ApplyControl(c, s, a)) && OutputCount(c, ApplyControl(c, s, a), m) == OutputCount(c, s, m)
  {
    hide Flatten, Outs, Through, All, StageReturned, Count;
  }

  lemma OutputsKept(c: Config, s: State, a: Action)
    requires Shape(c, s) && OutputsConserved(c, s) && Enabled(c, s, a)
    ensures Shape(c, Apply(c, s, a)) && OutputsConserved(c, Apply(c, s, a))
  {
    hide ApplyWorker, ApplyEnd, ApplyControl, OutputCount, Count;
    ShapeKept(c, s, a);
    forall m ensures OutputCount(c, Apply(c, s, a), m) == OutputCount(c, s, m) {
      if a.Pass? {
        PassOutput(c, s, a, m);
      } else if WorkerAction(a) {
        WorkerOutputKept(c, s, a, m);
      } else if SourceAction(a) {
        SourceOutput(c, s, a, m);
      } else if EndAction(a) {
        SinkOutput(c, s, a, m);
      } else {
        ControlOutputKept(c, s, a, m);
      }
    }
  }

  lemma InitialOutputs(c: Config)
    requires ValidConfig(c)
    ensures OutputsConserved(c, Initial(c))
  {
    hide Through, All;
    FlattenEmpty(Outs(c, Initial(c).workers));
  }

  // ----- payloads

  function Payloads(items: seq<Item>): seq<Payload> {
    if items == [] then [] else [items[0].payload] + Payloads(items[1..])
  }

  /** Processors that return their input or nil. */
  ghost predicate PassThrough(c: Config) {
    forall i: nat, p :: c.proc(i, p).Emitted? ==> c.proc(i, p).p == p
  }

  function Helds(ws: seq<Worker>): seq<seq<Payload>> {
    seq(|ws|, w requires 0 <= w < |ws| => Held(ws[w]))
  }

  function SourceHolds(s: State): seq<Payload> {
    (if s.source.Offering? then [s.source.item.payload] else []) + Payloads(s.rest)
  }

  /** How often `m` occurs in the source, in the hands of a goroutine, among the payloads marked as
      processed, and among those abandoned. */
  function PayloadCount(s: State, m: Payload): nat {
    Count(SourceHolds(s), m) + Count(Flatten(Helds(s.workers)), m) + Count(SinkHolds(s), m)
    + Count(s.marked, m) + Count(s.abandoned, m)
  }

  ghost predicate PayloadsConserved(c: Config, s: State) {
    forall m :: PayloadCount(s, m) == Count(Payloads(c.source), m)
  }

  lemma HeldsUpdate(ws: seq<Worker>, w: nat, x: Worker, m: Payload)
    requires w < |ws|
    ensures Count(Flatten(Helds(ws[w := x])), m) + Count(Held(ws[w]), m)
         == Count(Flatten(Helds(ws)), m) + Count(Held(x), m)
  {
    hide Held, Flatten, Count;
    FlattenUpdate(Helds(ws), w, Held(x), m);
    assert Helds(ws[w := x]) == Helds(ws)[w := Held(x)];
  }

  lemma ShipPayload(c: Config, s: State, from: Sender, m: Payload)
    requires match from case FromSource => s.source.Offering? case FromWorker(w) => w < |s.workers| && s.workers[w].Sending?
    ensures PayloadCount(Ship(c, s, from), m) + Count([Cargo(s, from)], m) == PayloadCount(s, m)
  {
    hide Flatten, Helds, Payloads, Count;
    CountNone(m);
    match from {
      case FromWorker(w) => HeldsUpdate(s.workers, w, Receiving, m);
      case FromSource =>
        CountConcat([s.source.item.payload], Payloads(s.rest), m);
        CountConcat([], Payloads(s.rest), m);
    }
  }

  lemma HandPayload(s: State, to: Receiver, p: Payload, m: Payload)
    requires match to case ToSink => s.sink.SinkReceiving? case ToWorker(x) => x < |s.workers| && s.workers[x].Receiving?
    ensures PayloadCount(Hand(s, to, p), m) == PayloadCount(s, m) + Count([p], m)
  {
    hide Flatten, Helds, Payloads, Count;
    CountNone(m);
    if to.ToWorker? { HeldsUpdate(s.workers, to.x, Processing(p), m); }
  }

  lemma PassPayload(c: Config, s: State, a: Action, m: Payload)
    requires Shape(c, s) && a.Pass? && WorkerEnabled(c, s, a)
    ensures PayloadCount(ApplyWorker(c, s, a), m) == PayloadCount(s, m)
  {
    hide PayloadCount;
    ShipPayload(c, s, a.from, m);
    HandPayload(Ship(c, s, a.from), a.to, Cargo(s, a.from), m);
  }

  /** A worker that lets go of its payload has passed it on, marked it, or abandoned it. */
  lemma WorkerDisposal(c: Config, s: State, a: Action, m: Payload)
    requires PassThrough(c) && Shape(c, s) && WorkerAction(a) && !a.Pass? && WorkerEnabled(c, s, a)
    requires a.w < |s.workers| && a.w < |ApplyWorker(c, s, a).workers|
    ensures var t := ApplyWorker(c, s, a);
            Count(Held(t.workers[a.w]), m) + Count(t.marked, m) + Count(t.abandoned, m)
            == Count(Held(s.workers[a.w]), m) + Count(s.marked, m) + Count(s.abandoned, m)
  {
    hide WorkerOutput, Hand, Ship, Through, Count;
    CountNone(m);
    CountConcat(s.abandoned, Held(s.workers[a.w]), m);
    CountConcat(s.marked, Held(s.workers[a.w]), m);
    assert s.abandoned + [] == s.abandoned;
  }

  lemma WorkerPayloadKept(c: Config, s: State, a: Action, m: Payload)
    requires PassThrough(c) && Shape(c, s) && WorkerAction(a) && !a.Pass? && WorkerEnabled(c, s, a)
    ensures PayloadCount(ApplyWorker(c, s, a), m) == PayloadCount(s, m)
  {
    WorkerFrame(c, s, a);
    WorkerDisposal(c, s, a, m);
    hide ApplyWorker, WorkerEnabled, Flatten, Helds, Held, Payloads, PassThrough, Count;
    HeldsUpdate(s.workers, a.w, ApplyWorker(c, s, a).workers[a.w], m);
  }

  lemma SourcePayload(c: Config, s: State, a: Action, m: Payload)
    requires Shape(c, s) && SourceAction(a) && EndEnabled(c, s, a)
    ensures PayloadCount(ApplyEnd(c, s, a), m) == PayloadCount(s, m)
  {
    hide Flatten, Helds, Through, Accept, RejectAtSink, Count;
    CountNone(m);
    CountConcat([], Payloads(s.rest), m);
    match a {
      case Poll => if s.rest != [] { CountConcat([s.rest[0].payload], Payloads(s.rest[1..]), m); }
      case CancelSource =>
        CountConcat([s.source.item.payload], Payloads(s.rest), m);
        CountConcat(s.abandoned, [s.source.item.payload], m);
      case Check =>
      case CloseSource =>
    }
  }

  lemma SinkPayload(c: Config, s: State, a: Action, m: Payload)
    requires Shape(c, s) && EndAction(a) && !SourceAction(a) && EndEnabled(c, s, a)
    ensures PayloadCount(ApplyEnd(c, s, a), m) == PayloadCount(s, m)
  {
    hide Flatten, Helds, Through, Payloads, Count;
    CountNone(m);
    if s.sink.Consuming? {
      CountConcat(s.marked, [s.sink.p], m);
      CountConcat(s.abandoned, [s.sink.p], m);
    }
  }

  lemma ControlPayloadKept(c: Config, s: State, a: Action, m: Payload)
    requires Shape(c, s) && !WorkerAction(a) && !EndAction(a) && ControlEnabled(c, s, a)
    ensures PayloadCount(ApplyControl(c, s, a), m) == PayloadCount(s, m)
  {
    hide Flatten, Helds, Payloads, StageReturned, Count;
  }

  lemma PayloadsKept(c: Config, s: State, a: Action)
    requires PassThrough(c) && Shape(c, s) && PayloadsConserved(c, s) && Enabled(c, s, a)
    ensures PayloadsConserved(c, Apply(c, s, a))
  {
    hide ApplyWorker, ApplyEnd, ApplyControl, PayloadCount, PassThrough;
    forall m ensures PayloadCount(Apply(c, s, a), m) == PayloadCount(s, m) {
      if a.Pass? {
        PassPayload(c, s, a, m);
      } else if WorkerAction(a) {
        WorkerPayloadKept(c, s, a, m);
      } else if SourceAction(a) {
        SourcePayload(c, s, a, m);
      } else if EndAction(a) {
        SinkPayload(c, s, a, m);
      } else {
        ControlPayloadKept(c, s, a, m);
      }
    }
  }

  lemma InitialPayloads(c: Config)
    ensures PayloadsConserved(c, Initial(c))
  {
    hide Payloads;
    FlattenEmpty(Helds(Initial(c).workers));
  }

  lemma {:induction false} ExecutionFlow(c: Config, s: State, acts: seq<Action>, t: State)
    requires Shape(c, s) && Execution(c, s, acts, t)
    ensures Shape(c, t)
    ensures OutputsConserved(c, s) ==> OutputsConserved(c, t)
    ensures PassThrough(c) && PayloadsConserved(c, s) ==> PayloadsConserved(c, t)
    decreases |acts|
  {
    hide Apply, Shape, Enabled, OutputsConserved, PayloadsConserved, PassThrough;
    if acts != [] {
      ShapeKept(c, s, acts[0]);
      if OutputsConserved(c, s) { OutputsKept(c, s, acts[0]); }
      if PassThrough(c) && PayloadsConserved(c, s) { PayloadsKept(c, s, acts[0]); }
      ExecutionFlow(c, Apply(c, s, acts[0]), acts[1..], t);
    }
  }
}
