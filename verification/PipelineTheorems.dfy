/** What every run of the pipeline guarantees, with FIFO stages and with fixed worker pools. */
module PipelineTheorems {
  import opened Pipeline
  import opened PipelineFlow
  import opened PipelineOrder
  import opened PipelineMeaning
  import opened PipelineErrors
  import opened Sums

  lemma ReachedInv(c: Config, acts: seq<Action>, s: State)
    requires ValidConfig(c) && Reached(c, acts, s)
    ensures Inv(c, s)
  {
    hide Inv, Initial;
    InitialInv(c);
    ExecutionInv(c, Initial(c), acts, s);
  }

  // ----- channels

  /** The channel an action sends on or closes. */
  function Touches(c: Config, a: Action): set<nat>
    requires a.CloseStage? ==> a.i < c.stages
  {
    match a
    case Pass(_, to) => {ChannelOf(c, to)}
    case CloseSource => {0}
    case CloseStage(i) => {i + 1}
    case _ => {}
  }

  predicate SentBy(c: Config, s: State, channel: nat)
    requires Shape(c, s)
  {
    if channel == 0 then s.source.SourceReturned? || s.source.SourceDone?
    else StageReturned(c, s, channel - 1)
  }

  /** In every reachable state a closed channel has been closed once, by which time all its senders
      had returned, and no enabled action sends on it or closes it again. The error channel is closed
      once, after every stage, source and sink goroutine has returned, and nobody emits to it then. */
  lemma ChannelLifecycle(c: Config, acts: seq<Action>, s: State, a: Action)
    requires ValidConfig(c) && Reached(c, acts, s) && Enabled(c, s, a)
    ensures forall k :: 0 <= k < |s.closes| ==> s.closes[k] <= 1 && (s.closes[k] == 1 ==> SentBy(c, s, k))
    ensures s.errCloses <= 1
    ensures s.errCloses == 1 ==> s.source.SourceDone? && s.sink.SinkReturned?
                                 && forall w :: 0 <= w < |s.workers| ==> s.workers[w].Returned?
    ensures forall k :: k in Touches(c, a) ==> k < |s.closes| && s.closes[k] == 0
    ensures a.CloseErrors? || Apply(c, s, a).attempts != s.attempts ==> s.errCloses == 0
  {
    ReachedInv(c, acts, s);
    ClosedOnce(c, s);
    if s.errCloses > 0 { AllReturned(c, s); }
    ChannelsOpen(c, s, a);
    if Apply(c, s, a).attempts != s.attempts { ActionFollows(c, s, a); EmitsToOpen(c, s, a); }
    hide Apply, Enabled, ErrorFlow, Orderly;
  }

  lemma ClosedOnce(c: Config, s: State)
    requires Shape(c, s) && Closing(c, s)
    ensures forall k :: 0 <= k < |s.closes| ==> s.closes[k] <= 1 && (s.closes[k] == 1 ==> SentBy(c, s, k))
  {
    forall k | 0 <= k < |s.closes| ensures s.closes[k] <= 1 && (s.closes[k] == 1 ==> SentBy(c, s, k)) {
      if k > 0 { assert s.closes[k - 1 + 1] == if s.gone[k - 1] then 1 else 0; }
    }
  }

  lemma ChannelsOpen(c: Config, s: State, a: Action)
    requires Shape(c, s) && Closing(c, s) && Enabled(c, s, a)
    ensures forall k :: k in Touches(c, a) ==> k < |s.closes| && s.closes[k] == 0
  {
    match a {
      case Pass(FromWorker(w), to) => assert !StageReturned(c, s, c.stageOf[w]);
      case _ =>
    }
  }

  // ----- progress

  ghost predicate Terminal(s: State) {
    s.main.MainReturned? && s.waiter.WaiterDone?
  }

  /** A worker ready to send always finds a way on. */
  lemma {:induction false} SenderProgress(c: Config, s: State, w: nat) returns (a: Action)
    requires ValidConfig(c) && Inv(c, s) && !s.cancelled && s.attempts == 0
    requires w < |s.workers| && s.workers[w].Sending?
    ensures Enabled(c, s, a) && !a.CancelOutside?
    decreases c.stages - c.stageOf[w], 1
  {
    var i := c.stageOf[w] + 1;
    assert !StageReturned(c, s, c.stageOf[w]);
    a := ReceiverProgress(c, s, FromWorker(w), i);
  }

  /** A payload offered on an open channel is taken, or someone downstream can move. */
  lemma {:induction false} ReceiverProgress(c: Config, s: State, from: Sender, i: nat) returns (a: Action)
    requires ValidConfig(c) && Inv(c, s) && !s.cancelled && s.attempts == 0
    requires i <= c.stages && Sends(c, s, from, i) && s.closes[i] == 0
    ensures Enabled(c, s, a) && !a.CancelOutside?
    decreases c.stages - i + 1, 0
  {
    if i == c.stages {
      a := match s.sink
           case SinkReceiving => Pass(from, ToSink)
           case Consuming(_) => Consume
           case SinkReturned => (assert false; Consume);
    } else {
      assert Staffed(c, i);
      var x: nat :| x < |c.stageOf| && c.stageOf[x] == i;
      match s.workers[x] {
        case Receiving => a := Pass(from, ToWorker(x));
        case Processing(_) => a := Action.Process(x);
        case Sending(_) => a := SenderProgress(c, s, x);
        case Returned => assert false;
      }
    }
  }

  /** When nobody sends and the source is done, the end of input moves downstream. */
  lemma {:induction false} DrainProgress(c: Config, s: State, i: nat) returns (a: Action)
    requires ValidConfig(c) && Inv(c, s) && i <= c.stages && s.closes[i] > 0
    requires s.waiter.Waiting? && forall w :: 0 <= w < |s.workers| ==> s.workers[w].Receiving? || s.workers[w].Returned?
    requires s.source.SourceDone? && !s.sink.Consuming?
    requires forall k :: 0 <= k < i ==> s.gone[k]
    ensures Enabled(c, s, a) && !a.CancelOutside?
    decreases c.stages - i
  {
    if i == c.stages {
      a := if s.sink.SinkReceiving? then EndOfSink else CloseErrors;
    } else if w: nat :| w < |s.workers| && c.stageOf[w] == i && s.workers[w].Receiving? {
      a := EndOfInput(w);
    } else {
      assert StageReturned(c, s, i);
      if s.gone[i] { a := DrainProgress(c, s, i + 1); } else { a := CloseStage(i); }
    }
  }

  /** After a cancellation everybody can leave. */
  lemma CancelProgress(c: Config, s: State) returns (a: Action)
    requires ValidConfig(c) && Inv(c, s) && s.cancelled && s.waiter.Waiting?
    ensures Enabled(c, s, a) && !a.CancelOutside?
  {
    if w: nat :| w < |s.workers| && !s.workers[w].Returned? {
      a := match s.workers[w]
           case Receiving => CancelReceive(w)
           case Processing(_) => Action.Process(w)
           case Sending(_) => CancelSend(w)
           case Returned => (assert false; Consume);
    } else if i: nat :| i < c.stages && !s.gone[i] {
      assert StageReturned(c, s, i);
      a := CloseStage(i);
    } else {
      a := match s.source
           case Polling => Poll
           case Offering(_) => CancelSource
           case Checking(_) => Check
           case SourceReturned => CloseSource
           case SourceDone =>
             match s.sink case SinkReceiving => CancelSink case Consuming(_) => Consume case SinkReturned => CloseErrors;
    }
  }

  /** No reachable state before the end is stuck, not even after errors or cancellation, and the way
      on does not depend on the outside. */
  lemma PipelineProgress(c: Config, s: State) returns (a: Action)
    requires ValidConfig(c) && Inv(c, s) && !Terminal(s)
    ensures Enabled(c, s, a) && !a.CancelOutside?
  {
    if s.waiter.ErrorsClosed? {
      a := CancelAtEnd;
    } else if s.main.Cancelling? {
      a := CancelOnError;
    } else if s.main.Collecting? && s.errBuf > 0 {
      a := Collect;
    } else if s.waiter.WaiterDone? {
      a := Finish;
    } else if s.cancelled {
      a := CancelProgress(c, s);
    } else {
      a := CalmProgress(c, s);
    }
  }

  lemma CalmProgress(c: Config, s: State) returns (a: Action)
    requires ValidConfig(c) && Inv(c, s) && s.waiter.Waiting? && !s.cancelled && s.attempts == 0
    ensures Enabled(c, s, a) && !a.CancelOutside?
  {
    if s.sink.Consuming? {
      a := Consume;
    } else if w: nat :| w < |s.workers| && s.workers[w].Processing? {
      a := Action.Process(w);
    } else if w: nat :| w < |s.workers| && s.workers[w].Sending? {
      a := SenderProgress(c, s, w);
    } else {
      match s.source {
        case Polling => a := Poll;
        case Checking(_) => a := Check;
        case SourceReturned => a := CloseSource;
        case Offering(_) => a := ReceiverProgress(c, s, FromSource, 0);
        case SourceDone => a := DrainProgress(c, s, 0);
      }
    }
  }

  // ----- termination

  function WorkerWork(c: Config, i: nat, w: Worker): nat
    requires i <= c.stages
  {
    match w
    case Receiving => 1
    case Processing(_) => 6 + 5 * (c.stages - i)
    case Sending(_) => 4 + 5 * (c.stages - i)
    case Returned => 0
  }

  function Works(c: Config, s: State): seq<nat>
    requires Shape(c, s)
  {
    seq(|s.workers|, w requires 0 <= w < |s.workers| => WorkerWork(c, c.stageOf[w], s.workers[w]))
  }

  function Remaining(gone: seq<bool>): seq<nat> {
    seq(|gone|, i requires 0 <= i < |gone| => if gone[i] then 0 else 1)
  }

  function SourceWork(c: Config, s: Source): nat {
    match s
    case Polling => 2
    case Offering(_) => 17 + 5 * c.stages
    case Checking(_) => 6
    case SourceReturned => 1
    case SourceDone => 0
  }

  /** Hops still to be made, goroutines still alive, and errors still to be collected. */
  function Measure(c: Config, s: State): nat
    requires Shape(c, s)
  {
    Sum(Works(c, s)) + Sum(Remaining(s.gone)) + SourceWork(c, s.source)
    + (match s.sink case SinkReceiving => 1 case Consuming(_) => 6 case SinkReturned => 0)
    + (match s.waiter case Waiting => 2 case ErrorsClosed => 1 case WaiterDone => 0)
    + (match s.main case Collecting => 1 case Cancelling => 2 case MainReturned => 0)
    + 2 * s.errBuf + (if s.outside then 0 else 1)
  }

  ghost predicate Smaller(c: Config, t: State, s: State)
    requires Shape(c, s) && Shape(c, t)
  {
    |t.rest| < |s.rest| || (t.rest == s.rest && Measure(c, t) < Measure(c, s))
  }

  lemma WorksUpdate(c: Config, s: State, t: State, w: nat)
    requires Shape(c, s) && Shape(c, t) && w < |s.workers| && t.workers == s.workers[w := t.workers[w]]
    ensures Sum(Works(c, t)) + WorkerWork(c, c.stageOf[w], s.workers[w])
         == Sum(Works(c, s)) + WorkerWork(c, c.stageOf[w], t.workers[w])
  {
    hide WorkerWork, Sum;
    assert Works(c, t) == Works(c, s)[w := WorkerWork(c, c.stageOf[w], t.workers[w])];
    SumUpdate(Works(c, s), w, WorkerWork(c, c.stageOf[w], t.workers[w]));
  }

  lemma PassMeasure(c: Config, s: State, a: Action)
    requires Shape(c, s) && a.Pass? && WorkerEnabled(c, s, a)
    ensures Shape(c, ApplyWorker(c, s, a)) && Smaller(c, ApplyWorker(c, s, a), s)
  {
    hide Works, Sum, Remaining;
    var m := Ship(c, s, a.from);
    var t := Hand(m, a.to, Cargo(s, a.from));
    assert t == ApplyWorker(c, s, a);
    if a.from.FromWorker? { WorksUpdate(c, s, m, a.from.w); }
    if a.to.ToWorker? { WorksUpdate(c, m, t, a.to.x); }
    assert a.from.FromSource? ==> Works(c, m) == Works(c, s) by { SameWorks(c, s, m); }
    assert a.to.ToSink? ==> Works(c, t) == Works(c, m) by { SameWorks(c, m, t); }
  }

  lemma SameWorks(c: Config, s: State, t: State)
    requires Shape(c, s) && Shape(c, t)
    ensures s.workers == t.workers ==> Works(c, s) == Works(c, t)
  {
  }

  lemma WorkerMeasure(c: Config, s: State, a: Action)
    requires Shape(c, s) && WorkerAction(a) && !a.Pass? && WorkerEnabled(c, s, a)
    ensures Shape(c, ApplyWorker(c, s, a)) && Smaller(c, ApplyWorker(c, s, a), s)
  {
    hide Works, Sum, Remaining, Through, WorkerOutput, Held, Hand, Ship;
    WorkerFrame(c, s, a);
    WorkerFollows(c, s, a);
    var t := ApplyWorker(c, s, a);
    WorksUpdate(c, s, t, a.w);
    WorkerSpends(c, s, a);
    hide ApplyWorker, WorkerWork;
  }

  /** An action of a worker costs it more than an error adds to the error channel. */
  lemma WorkerSpends(c: Config, s: State, a: Action)
    requires Shape(c, s) && WorkerAction(a) && !a.Pass? && WorkerEnabled(c, s, a)
    requires a.w < |s.workers| && a.w < |ApplyWorker(c, s, a).workers|
    ensures var t, i := ApplyWorker(c, s, a), c.stageOf[a.w];
            WorkerWork(c, i, t.workers[a.w]) + (if t.attempts == s.attempts then 0 else 2) < WorkerWork(c, i, s.workers[a.w])
  {
    hide Through, WorkerOutput, Held, Hand, Ship;
  }

  lemma EndMeasure(c: Config, s: State, a: Action)
    requires Shape(c, s) && EndAction(a) && EndEnabled(c, s, a)
    ensures Shape(c, ApplyEnd(c, s, a)) && Smaller(c, ApplyEnd(c, s, a), s)
  {
    hide Works, Sum, Remaining, Through;
    SameWorks(c, s, ApplyEnd(c, s, a));
  }

  lemma ControlMeasure(c: Config, s: State, a: Action)
    requires Shape(c, s) && !WorkerAction(a) && !EndAction(a) && ControlEnabled(c, s, a)
    ensures Shape(c, ApplyControl(c, s, a)) && Smaller(c, ApplyControl(c, s, a), s)
  {
    hide Works, Sum, StageReturned;
    var t := ApplyControl(c, s, a);
    SameWorks(c, s, t);
    if a.CloseStage? {
      assert Remaining(t.gone) == Remaining(s.gone)[a.i := 0];
      SumUpdate(Remaining(s.gone), a.i, 0);
    }
  }

  /** Every action of every goroutine, and even a cancellation from outside, decreases the measure:
      no run is infinite. */
  lemma PipelineDecreases(c: Config, s: State, a: Action)
    requires Enabled(c, s, a)
    ensures Shape(c, Apply(c, s, a)) && Smaller(c, Apply(c, s, a), s)
  {
    hide Smaller, ApplyWorker, ApplyEnd, ApplyControl;
    ShapeKept(c, s, a);
    if a.Pass? {
      PassMeasure(c, s, a);
    } else if WorkerAction(a) {
      WorkerMeasure(c, s, a);
    } else if EndAction(a) {
      EndMeasure(c, s, a);
    } else {
      ControlMeasure(c, s, a);
    }
  }

  // ----- results

  /** When the caller has returned, it returns an error exactly when an error was ever attempted. */
  lemma ErrorFaithfulness(c: Config, acts: seq<Action>, s: State)
    requires ValidConfig(c) && Reached(c, acts, s) && s.main.MainReturned?
    ensures s.collected > 0 <==> s.attempts > 0
  {
    ReachedInv(c, acts, s);
  }

  /** With FIFO stages the sink has at every moment consumed a prefix of the composed stages applied
      to the source. If the caller returns nil without outside cancellation, it has consumed all. */
  lemma FifoDeterminism(c: Config, acts: seq<Action>, s: State)
    requires ValidConfig(c) && Fifo(c) && Reached(c, acts, s)
    ensures Ends(c, c.source, All(c, c.source)) && s.consumed <= All(c, c.source)
    ensures |s.workers| == c.stages
    ensures Undisturbed(s) ==> Line(c, s) == All(c, c.source)
    ensures s.main.MainReturned? && s.collected == 0 && !s.outside ==> s.consumed == All(c, c.source)
  {
    EndsAreAll(c, c.source, All(c, c.source));
    ReachedInv(c, acts, s);
    InitialInv(c);
    InitialOrdered(c);
    ExecutionOrdered(c, Initial(c), acts, s);
    ConsumedPrefix(c, s);
    if s.main.MainReturned? { AllReturned(c, s); }
    hide Through, All, Upstream, Execution, Ends;
  }

  lemma ConsumedPrefix(c: Config, s: State)
    requires |s.workers| == c.stages
    ensures s.consumed <= Line(c, s)
  {
    hide Upstream, SourceTail;
  }

  /** With worker pools of any sizes, what has been consumed, what is still on its way and what was
      lost always add up to the composed stages applied to the source, as a multiset. If the caller
      returns nil without outside cancellation, the sink has consumed exactly that. */
  lemma PoolDeterminism(c: Config, acts: seq<Action>, s: State)
    requires ValidConfig(c) && Reached(c, acts, s)
    ensures Shape(c, s) && OutputsConserved(c, s)
    ensures Ends(c, c.source, All(c, c.source)) && multiset(s.consumed) <= multiset(All(c, c.source))
    ensures s.main.MainReturned? && s.collected == 0 && !s.outside ==> multiset(s.consumed) == multiset(All(c, c.source))
  {
    EndsAreAll(c, c.source, All(c, c.source));
    ReachedInv(c, acts, s);
    InitialOutputs(c);
    ExecutionFlow(c, Initial(c), acts, s);
    hide Through, All, Execution, Outs, Flatten, SourceOut, Closing, Ends;
    forall m ensures multiset(s.consumed)[m] <= multiset(All(c, c.source))[m] {
      assert OutputCount(c, s, m) == Count(All(c, c.source), m);
    }
    if s.main.MainReturned? && s.collected == 0 && !s.outside {
      Emptied(c, s);
      forall m ensures multiset(s.consumed)[m] == multiset(All(c, c.source))[m] {
        assert OutputCount(c, s, m) == Count(All(c, c.source), m);
      }
    }
  }

  /** After an undisturbed run nothing is left anywhere. */
  lemma Emptied(c: Config, s: State)
    requires Inv(c, s) && s.main.MainReturned? && Undisturbed(s)
    ensures Flatten(Outs(c, s.workers)) == [] && Flatten(Helds(s.workers)) == []
    ensures SourceOut(c, s) == [] && SourceHolds(s) == [] && SinkHolds(s) == [] && s.lost == [] && s.abandoned == []
  {
    AllReturned(c, s);
    FlattenEmpty(Outs(c, s.workers));
    FlattenEmpty(Helds(s.workers));
  }

  /** With processors that return their input or nil, a payload that occurs once in the source is at
      every moment in at most one place: the source, one goroutine, marked as processed once, or
      abandoned. If the caller returns nil without outside cancellation, each source payload has been
      marked as often as it occurred. */
  lemma PayloadOwnership(c: Config, acts: seq<Action>, s: State)
    requires ValidConfig(c) && PassThrough(c) && Reached(c, acts, s)
    ensures forall m :: PayloadCount(s, m) == Count(Payloads(c.source), m)
    ensures s.main.MainReturned? && s.collected == 0 && !s.outside ==>
              multiset(s.marked) == multiset(Payloads(c.source))
  {
    ReachedInv(c, acts, s);
    InitialPayloads(c);
    ExecutionFlow(c, Initial(c), acts, s);
    if s.main.MainReturned? && s.collected == 0 && !s.outside {
      Emptied(c, s);
      AllMarked(c, s);
    }
    hide Execution, PayloadCount, Payloads, Inv;
  }

  lemma AllMarked(c: Config, s: State)
    requires PayloadsConserved(c, s)
    requires Flatten(Helds(s.workers)) == [] && SourceHolds(s) == [] && SinkHolds(s) == [] && s.abandoned == []
    ensures multiset(s.marked) == multiset(Payloads(c.source))
  {
    hide Helds, Flatten, SourceHolds, SinkHolds, Payloads;
    forall m ensures multiset(s.marked)[m] == multiset(Payloads(c.source))[m] {
      assert PayloadCount(s, m) == Count(Payloads(c.source), m);
    }
  }

  /** No two goroutines hold the same payload, and none holds a payload already marked. */
  lemma SingleHolder(c: Config, acts: seq<Action>, s: State, w: nat, p: Payload)
    requires ValidConfig(c) && PassThrough(c) && Reached(c, acts, s) && Count(Payloads(c.source), p) <= 1
    requires w < |s.workers| && Held(s.workers[w]) == [p]
    ensures p !in s.marked && SinkHolds(s) != [p] && (s.source.Offering? ==> s.source.item.payload != p)
    ensures forall x :: 0 <= x < |s.workers| && x != w ==> Held(s.workers[x]) != [p]
  {
    PayloadOwnership(c, acts, s);
    assert PayloadCount(s, p) == Count(Payloads(c.source), p);
    forall x | 0 <= x < |s.workers| && x != w ensures Held(s.workers[x]) != [p] {
      if Held(s.workers[x]) == [p] { TwoHolders(s.workers, w, x, p); }
    }
    OneHolder(s.workers, w, p);
    hide Helds, Flatten, Payloads, PassThrough, Execution, ValidConfig;
    CountConcat(if s.source.Offering? then [s.source.item.payload] else [], Payloads(s.rest), p);
  }

  lemma OneHolder(ws: seq<Worker>, w: nat, p: Payload)
    requires w < |ws| && Held(ws[w]) == [p]
    ensures Count(Flatten(Helds(ws)), p) >= 1
  {
    hide Flatten;
    HeldsUpdate(ws, w, Receiving, p);
  }

  lemma TwoHolders(ws: seq<Worker>, w: nat, x: nat, p: Payload)
    requires w < |ws| && x < |ws| && w != x && Held(ws[w]) == [p] && Held(ws[x]) == [p]
    ensures Count(Flatten(Helds(ws)), p) >= 2
  {
    hide Flatten;
    HeldsUpdate(ws, w, Receiving, p);
    OneHolder(ws[w := Receiving], x, p);
  }

  // ----- the pipeline as a call

  /** Process under any schedule, and with cancellation from outside at any moment or never: it
      returns, all goroutines end, and every channel has been closed once. `ends` lists, in source order,
      what the last processor makes of each payload that every processor passes on. The sink consumes
      nothing else, nothing twice, with FIFO stages in that order, and all of it if the call returns
      nil and was not cancelled from outside. Without outside cancellation the call returns an error
      exactly if the source reports one or some payload makes a processor or the sink fail. */
  method Process(c: Config) returns (consumed: seq<Payload>, failed: bool, cancelledOutside: bool, ghost s: State, ghost ends: seq<Payload>)
    requires ValidConfig(c)
    ensures Inv(c, s) && Terminal(s) && consumed == s.consumed && cancelledOutside == s.outside
    ensures failed <==> s.attempts > 0
    ensures !cancelledOutside ==> (failed <==> exists item :: item in c.source && GivesCause(c, item))
    ensures forall k :: 0 <= k < |s.closes| ==> s.closes[k] == 1
    ensures s.errCloses == 1
    ensures Ends(c, c.source, ends) && multiset(consumed) <= multiset(ends)
    ensures !failed && !cancelledOutside ==> multiset(consumed) == multiset(ends)
    ensures Fifo(c) ==> consumed <= ends
    ensures Fifo(c) && !failed && !cancelledOutside ==> consumed == ends
  {
    hide Ends, All, Through, GivesCause;
    var now := Initial(c);
    ghost var acts: seq<Action> := [];
    InitialInv(c);
    while !(now.main.MainReturned? && now.waiter.WaiterDone?)
      invariant Inv(c, now) && Reached(c, acts, now)
      decreases |now.rest|, Measure(c, now)
    {
      ghost var possible := PipelineProgress(c, now);
      ActionsComplete(c, now, possible);
      var a: Action :| a in Actions(c, now) && Enabled(c, now, a);
      InvKept(c, now, a);
      PipelineDecreases(c, now, a);
      ExecutionAppend(c, Initial(c), acts, now, a);
      acts := acts + [a];
      now := Apply(c, now, a);
    }
    s := now;
    PoolDeterminism(c, acts, s);
    if Fifo(c) { FifoDeterminism(c, acts, s); }
    EndsClosed(c, s);
    if !s.outside { ErrorIffCause(c, acts, s); }
    return now.consumed, now.collected > 0, now.outside, s, All(c, c.source);
  }

  lemma EndsClosed(c: Config, s: State)
    requires Inv(c, s) && Terminal(s)
    ensures forall k :: 0 <= k < |s.closes| ==> s.closes[k] == 1
    ensures s.errCloses == 1 && (s.collected > 0 <==> s.attempts > 0)
  {
    forall k | 0 <= k < |s.closes| ensures s.closes[k] == 1 {
      if k > 0 { assert s.closes[k - 1 + 1] == if s.gone[k - 1] then 1 else 0; }
    }
  }

  lemma {:induction false} ExecutionAppend(c: Config, s: State, acts: seq<Action>, t: State, a: Action)
    requires Execution(c, s, acts, t) && Enabled(c, t, a)
    ensures Execution(c, s, acts + [a], Apply(c, t, a))
    decreases |acts|
  {
    hide Apply, Enabled;
    if acts == [] {
    } else {
      assert (acts + [a])[1..] == acts[1..] + [a];
      ExecutionAppend(c, Apply(c, s, acts[0]), acts[1..], t, a);
    }
  }
}
