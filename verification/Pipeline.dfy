/** The channel pipeline as its goroutines execute it: a source, stages of one or more workers, a
    sink, the goroutine that waits for all of them, and the caller that collects the errors. */
module Pipeline {

  type Payload(==, 0, !new)

  /** What a processor does with one payload. */
  datatype Processed = Failed | Dropped | Emitted(p: Payload)

  /** A payload of the source; `reports` says that Error() is not nil after it was sent. */
  datatype Item = Item(payload: Payload, reports: bool)

  /** `stageOf[w]` is the stage of worker `w`. A FIFO stage has one worker, a fixed pool several. */
  datatype Config = Config(stages: nat, stageOf: seq<nat>, proc: (nat, Payload) -> Processed,
                           accepts: Payload -> bool, source: seq<Item>)

  ghost predicate ValidConfig(c: Config) {
    && (forall w :: 0 <= w < |c.stageOf| ==> c.stageOf[w] < c.stages)
    && forall i: nat :: i < c.stages ==> Staffed(c, i)
  }

  ghost predicate Staffed(c: Config, i: nat) {
    exists w :: 0 <= w < |c.stageOf| && c.stageOf[w] == i
  }

  datatype Worker = Receiving | Processing(p: Payload) | Sending(p: Payload) | Returned

  /** `Checking` has sent the item and is about to look at Error(); `SourceDone` has closed its channel. */
  datatype Source = Polling | Offering(item: Item) | Checking(item: Item) | SourceReturned | SourceDone

  datatype Sink = SinkReceiving | Consuming(p: Payload) | SinkReturned

  /** The goroutine behind the wait group: waiting, having closed errCh, having cancelled. */
  datatype Waiter = Waiting | ErrorsClosed | WaiterDone

  /** The caller, draining errCh. */
  datatype Main = Collecting | Cancelling | MainReturned

  /** `closes[i]` and `errCloses` count how often a channel has been closed. `attempts` counts the
      calls of maybeEmitError, `marked` lists the calls of MarkAsProcessed; `lost` and `abandoned`
      are what cancelled or failed goroutines took with them: final outputs and payloads. */
  datatype State = State(
    rest: seq<Item>, source: Source, workers: seq<Worker>, gone: seq<bool>, sink: Sink, waiter: Waiter, main: Main,
    cancelled: bool, outside: bool, closes: seq<nat>, errCloses: nat, errBuf: nat, collected: nat,
    attempts: nat, consumed: seq<Payload>, marked: seq<Payload>,
    lost: seq<Payload>, abandoned: seq<Payload>)

  datatype Sender = FromSource | FromWorker(w: nat)
  datatype Receiver = ToWorker(x: nat) | ToSink

  datatype Action =
    | Poll | Check | CloseSource | CancelSource
    | Pass(from: Sender, to: Receiver)
    | Process(w: nat) | Abort(w: nat) | CancelReceive(w: nat) | CancelSend(w: nat) | EndOfInput(w: nat)
    | CloseStage(i: nat)
    | Consume | AbortSink | CancelSink | EndOfSink
    | CloseErrors | CancelAtEnd
    | Collect | CancelOnError | Finish
    | CancelOutside

  function Initial(c: Config): State {
    State(c.source, Polling, seq(|c.stageOf|, _ => Receiving), seq(c.stages, _ => false), SinkReceiving, Waiting, Collecting,
          false, false, seq(c.stages + 1, _ => 0), 0, 0, 0, 0, [], [], [], [])
  }

  /** The channel a sender sends on, if it is ready to send. */
  predicate Sends(c: Config, s: State, from: Sender, channel: nat) {
    match from
    case FromSource => s.source.Offering? && channel == 0
    case FromWorker(w) => w < |s.workers| && w < |c.stageOf| && s.workers[w].Sending? && channel == c.stageOf[w] + 1
  }

  predicate Receives(c: Config, s: State, to: Receiver, channel: nat) {
    match to
    case ToWorker(x) => x < |s.workers| && x < |c.stageOf| && s.workers[x].Receiving? && channel == c.stageOf[x]
    case ToSink => s.sink.SinkReceiving? && channel == c.stages
  }

  function ChannelOf(c: Config, to: Receiver): nat {
    match to case ToWorker(x) => if x < |c.stageOf| then c.stageOf[x] else 0 case ToSink => c.stages
  }

  predicate StageReturned(c: Config, s: State, i: nat)
    requires |s.workers| == |c.stageOf|
  {
    forall w :: 0 <= w < |c.stageOf| && c.stageOf[w] == i ==> s.workers[w].Returned?
  }

  predicate Shape(c: Config, s: State) {
    |s.workers| == |c.stageOf| && |s.gone| == c.stages && |s.closes| == c.stages + 1
    && forall w :: 0 <= w < |c.stageOf| ==> c.stageOf[w] < c.stages
  }

  /** Actions of stage workers, and passing a payload on. */
  predicate WorkerAction(a: Action) {
    a.Pass? || a.Process? || a.Abort? || a.CancelReceive? || a.CancelSend? || a.EndOfInput?
  }

  /** Actions of the two ends of the pipeline. */
  predicate EndAction(a: Action) {
    a.Poll? || a.Check? || a.CloseSource? || a.CancelSource? || a.Consume? || a.AbortSink? || a.CancelSink? || a.EndOfSink?
  }

  predicate Enabled(c: Config, s: State, a: Action) {
    && Shape(c, s)
    && if WorkerAction(a) then WorkerEnabled(c, s, a) else if EndAction(a) then EndEnabled(c, s, a) else ControlEnabled(c, s, a)
  }

  predicate WorkerEnabled(c: Config, s: State, a: Action)
    requires Shape(c, s) && WorkerAction(a)
  {
    match a
    case Pass(from, to) => Sends(c, s, from, ChannelOf(c, to)) && Receives(c, s, to, ChannelOf(c, to))
    case Process(w) => w < |s.workers| && s.workers[w].Processing?
    case Abort(w) => w < |s.workers| && s.workers[w].Processing? && s.cancelled
    case CancelReceive(w) => w < |s.workers| && s.workers[w].Receiving? && s.cancelled
    case CancelSend(w) => w < |s.workers| && s.workers[w].Sending? && s.cancelled
    case EndOfInput(w) => w < |s.workers| && s.workers[w].Receiving? && s.closes[c.stageOf[w]] > 0
  }

  predicate EndEnabled(c: Config, s: State, a: Action)
    requires Shape(c, s) && EndAction(a)
  {
    match a
    case Poll => s.source.Polling?
    case Check => s.source.Checking?
    case CloseSource => s.source.SourceReturned?
    case CancelSource => s.source.Offering? && s.cancelled
    case Consume => s.sink.Consuming?
    case AbortSink => s.sink.Consuming? && s.cancelled
    case CancelSink => s.sink.SinkReceiving? && s.cancelled
    case EndOfSink => s.sink.SinkReceiving? && s.closes[c.stages] > 0
  }

  predicate ControlEnabled(c: Config, s: State, a: Action)
    requires Shape(c, s) && !WorkerAction(a) && !EndAction(a)
  {
    match a
    case CloseStage(i) => i < c.stages && StageReturned(c, s, i) && !s.gone[i]
    case CloseErrors =>
      s.waiter.Waiting? && s.source.SourceDone? && s.sink.SinkReturned? && forall i :: 0 <= i < c.stages ==> s.gone[i]
    case CancelAtEnd => s.waiter.ErrorsClosed?
    case Collect => s.main.Collecting? && s.errBuf > 0
    case CancelOnError => s.main.Cancelling?
    case Finish => s.main.Collecting? && s.errBuf == 0 && s.errCloses > 0
    case CancelOutside => !s.outside
  }

  /** A non-blocking send on errCh, which has room for one error per stage and two more. */
  function Emit(c: Config, s: State): State {
    s.(attempts := s.attempts + 1, errBuf := if s.errBuf < c.stages + 2 then s.errBuf + 1 else s.errBuf)
  }

  /** What the pipeline makes of a payload that enters stage `i`. */
  function Through(c: Config, i: nat, p: Payload): seq<Payload>
    decreases c.stages - i
  {
    if i >= c.stages then [p]
    else match c.proc(i, p) case Emitted(q) => Through(c, i + 1, q) case _ => []
  }

  function All(c: Config, items: seq<Item>): seq<Payload> {
    if items == [] then [] else Through(c, 0, items[0].payload) + All(c, items[1..])
  }

  function Ship(c: Config, s: State, from: Sender): State
    requires match from case FromSource => s.source.Offering? case FromWorker(w) => w < |s.workers|
  {
    match from
    case FromSource => s.(source := Checking(s.source.item))
    case FromWorker(w) => s.(workers := s.workers[w := Receiving])
  }

  function Cargo(s: State, from: Sender): Payload
    requires match from case FromSource => s.source.Offering? case FromWorker(w) => w < |s.workers| && s.workers[w].Sending?
  {
    match from case FromSource => s.source.item.payload case FromWorker(w) => s.workers[w].p
  }

  function Hand(s: State, to: Receiver, p: Payload): State
    requires to.ToWorker? ==> to.x < |s.workers|
  {
    match to
    case ToWorker(x) => s.(workers := s.workers[x := Processing(p)])
    case ToSink => s.(sink := Consuming(p))
  }

  function Leave(s: State, w: nat): State
    requires w < |s.workers|
  {
    s.(workers := s.workers[w := Returned])
  }

  function DoProcess(c: Config, s: State, w: nat): State
    requires w < |s.workers| && w < |c.stageOf| && s.workers[w].Processing?
  {
    var p := s.workers[w].p;
    match c.proc(c.stageOf[w], p)
    case Failed => Emit(c, s.(workers := s.workers[w := Returned], abandoned := s.abandoned + [p]))
    case Dropped => s.(workers := s.workers[w := Receiving], marked := s.marked + [p])
    case Emitted(q) => s.(workers := s.workers[w := Sending(q)])
  }

  /** What a worker of stage `i` still contributes to the output. */
  function WorkerOutput(c: Config, i: nat, w: Worker): seq<Payload> {
    match w
    case Processing(p) => Through(c, i, p)
    case Sending(p) => Through(c, i + 1, p)
    case _ => []
  }

  function Held(w: Worker): seq<Payload> {
    match w case Processing(p) => [p] case Sending(p) => [p] case _ => []
  }

  /** The worker returns because of cancellation and takes what it holds with it. */
  function Lose(c: Config, s: State, w: nat): State
    requires w < |s.workers| && w < |c.stageOf|
  {
    Leave(s, w).(lost := s.lost + WorkerOutput(c, c.stageOf[w], s.workers[w]),
                 abandoned := s.abandoned + Held(s.workers[w]))
  }

  function Accept(s: State): State
    requires s.sink.Consuming?
  {
    s.(sink := SinkReceiving, consumed := s.consumed + [s.sink.p], marked := s.marked + [s.sink.p])
  }

  function RejectAtSink(c: Config, s: State): State
    requires s.sink.Consuming?
  {
    Emit(c, s.(sink := SinkReturned, lost := s.lost + [s.sink.p], abandoned := s.abandoned + [s.sink.p]))
  }

  function Apply(c: Config, s: State, a: Action): State
    requires Enabled(c, s, a)
  {
    if WorkerAction(a) then ApplyWorker(c, s, a) else if EndAction(a) then ApplyEnd(c, s, a) else ApplyControl(c, s, a)
  }

  function ApplyWorker(c: Config, s: State, a: Action): State
    requires Shape(c, s) && WorkerAction(a) && WorkerEnabled(c, s, a)
  {
    match a
    case Pass(from, to) => Hand(Ship(c, s, from), to, Cargo(s, from))
    case Process(w) => DoProcess(c, s, w)
    case Abort(w) => Emit(c, Lose(c, s, w))
    case CancelReceive(w) => Leave(s, w)
    case CancelSend(w) => Lose(c, s, w)
    case EndOfInput(w) => Leave(s, w)
  }

  function ApplyEnd(c: Config, s: State, a: Action): State
    requires Shape(c, s) && EndAction(a) && EndEnabled(c, s, a)
  {
    match a
    case Poll => if s.rest == [] then s.(source := SourceReturned) else s.(source := Offering(s.rest[0]), rest := s.rest[1..])
    case Check => var t := s.(source := Polling); if s.source.item.reports then Emit(c, t) else t
    case CloseSource => s.(source := SourceDone, closes := s.closes[0 := s.closes[0] + 1])
    case CancelSource =>
      var p := s.source.item.payload;
      s.(source := SourceReturned, lost := s.lost + Through(c, 0, p), abandoned := s.abandoned + [p])
    case Consume => if c.accepts(s.sink.p) then Accept(s) else RejectAtSink(c, s)
    case AbortSink => RejectAtSink(c, s)
    case CancelSink => s.(sink := SinkReturned)
    case EndOfSink => s.(sink := SinkReturned)
  }

  function ApplyControl(c: Config, s: State, a: Action): State
    requires Shape(c, s) && !WorkerAction(a) && !EndAction(a) && ControlEnabled(c, s, a)
  {
    match a
    case CloseStage(i) => s.(gone := s.gone[i := true], closes := s.closes[i + 1 := s.closes[i + 1] + 1])
    case CloseErrors => s.(waiter := ErrorsClosed, errCloses := s.errCloses + 1)
    case CancelAtEnd => s.(waiter := WaiterDone, cancelled := true)
    case Collect => s.(main := Cancelling, errBuf := s.errBuf - 1, collected := s.collected + 1)
    case CancelOnError => s.(main := Collecting, cancelled := true)
    case Finish => s.(main := MainReturned)
    case CancelOutside => s.(outside := true, cancelled := true)
  }

  /** Whatever some goroutine may do next is among these actions. */
  function Actions(c: Config, s: State): set<Action> {
    ControlActions(c) + WorkerActions(s)
    + {Pass(FromSource, ToSink)}
    + (set w: nat | w < |s.workers| :: Pass(FromSource, ToWorker(w)))
    + (set w: nat | w < |s.workers| :: Pass(FromWorker(w), ToSink))
    + (set w: nat, x: nat | w < |s.workers| && x < |s.workers| :: Pass(FromWorker(w), ToWorker(x)))
  }

  function ControlActions(c: Config): set<Action> {
    {Poll, Check, CloseSource, CancelSource, Consume, AbortSink, CancelSink, EndOfSink,
     CloseErrors, CancelAtEnd, Collect, CancelOnError, Finish, CancelOutside}
    + (set i: nat | i < c.stages :: CloseStage(i))
  }

  function WorkerActions(s: State): set<Action> {
    (set w: nat | w < |s.workers| :: Process(w)) + (set w: nat | w < |s.workers| :: Abort(w))
    + (set w: nat | w < |s.workers| :: CancelReceive(w)) + (set w: nat | w < |s.workers| :: CancelSend(w))
    + (set w: nat | w < |s.workers| :: EndOfInput(w))
  }

  lemma ActionsComplete(c: Config, s: State, a: Action)
    requires Enabled(c, s, a)
    ensures a in Actions(c, s)
  {
    if a.Pass? {
      hide ControlActions, WorkerActions;
      var Pass(from, to) := a;
      match from case FromSource => match to { case ToSink => case ToWorker(x) => }
                 case FromWorker(w) => match to { case ToSink => case ToWorker(x) => }
    } else {
      assert a in ControlActions(c) || a in WorkerActions(s);
    }
  }

  ghost predicate Execution(c: Config, s: State, acts: seq<Action>, t: State)
    decreases |acts|
  {
    if acts == [] then s == t
    else Enabled(c, s, acts[0]) && Execution(c, Apply(c, s, acts[0]), acts[1..], t)
  }

  ghost predicate Reached(c: Config, acts: seq<Action>, s: State) {
    Execution(c, Initial(c), acts, s)
  }

  // ----- control invariant

  /** A channel is closed once its sender has said so, and then all its senders have returned. */
  ghost predicate Closing(c: Config, s: State)
    requires Shape(c, s)
  {
    && s.closes[0] == (if s.source.SourceDone? then 1 else 0)
    && (forall i :: 0 <= i < c.stages ==> s.closes[i + 1] == if s.gone[i] then 1 else 0)
    && (forall i :: 0 <= i < c.stages && s.gone[i] ==> StageReturned(c, s, i))
    && s.errCloses == (if s.waiter.Waiting? then 0 else 1)
    && (!s.waiter.Waiting? ==>
          s.source.SourceDone? && s.sink.SinkReturned? && forall i :: 0 <= i < c.stages ==> s.gone[i])
  }

  /** Errors are neither lost entirely nor invented, and each one collected leads to cancellation. */
  ghost predicate ErrorFlow(c: Config, s: State) {
    && s.errBuf <= c.stages + 2
    && (s.attempts > 0 <==> s.errBuf + s.collected > 0)
    && (s.collected > 0 ==> s.cancelled || s.main.Cancelling?)
    && (s.main.Cancelling? ==> s.collected > 0)
    && (s.main.MainReturned? ==> s.errCloses > 0 && s.errBuf == 0)
    && (s.cancelled ==> s.outside || s.collected > 0 || s.waiter.WaiterDone?)
    && (s.outside ==> s.cancelled)
  }

  ghost predicate Undisturbed(s: State) {
    s.attempts == 0 && !s.outside
  }

  /** Without errors and outside cancellation, goroutines return only at the end of their input. */
  ghost predicate Orderly(c: Config, s: State)
    requires Shape(c, s)
  {
    Undisturbed(s) ==>
      && (s.source.SourceReturned? || s.source.SourceDone? ==> s.rest == [])
      && (forall w :: 0 <= w < |s.workers| && s.workers[w].Returned? ==> s.closes[c.stageOf[w]] > 0)
      && (s.sink.SinkReturned? ==> s.closes[c.stages] > 0)
      && s.lost == [] && s.abandoned == []
  }

  ghost predicate Inv(c: Config, s: State) {
    Shape(c, s) && Closing(c, s) && ErrorFlow(c, s) && Orderly(c, s)
  }

  lemma InitialInv(c: Config)
    requires ValidConfig(c)
    ensures Inv(c, Initial(c))
  {
  }

  /** What an action cannot undo or touch, and how far it can move the channels and the errors. */
  ghost predicate Follows(c: Config, s: State, a: Action, t: State) {
    && |t.workers| == |s.workers| && |t.gone| == |s.gone| && |t.closes| == |s.closes|
    && (forall w :: 0 <= w < |s.workers| && s.workers[w].Returned? ==> t.workers[w].Returned?)
    && (!a.CloseStage? ==> t.gone == s.gone)
    && (!a.CloseStage? && !a.CloseSource? ==> t.closes == s.closes)
    && (!a.CloseErrors? ==> t.errCloses == s.errCloses && (t.waiter.Waiting? <==> s.waiter.Waiting?))
    && (!a.CancelAtEnd? && !a.CloseErrors? ==> t.waiter == s.waiter)
    && (!a.CloseSource? ==> (t.source.SourceDone? <==> s.source.SourceDone?))
    && (s.sink.SinkReturned? ==> t.sink.SinkReturned?)
    && (!a.Poll? ==> t.rest == s.rest)
    && (t.attempts == s.attempts || t.attempts == s.attempts + 1)
    && (t.attempts != s.attempts ==> a.Check? || a.Process? || a.Abort? || a.Consume? || a.AbortSink?)
    && (a.Collect? || t.errBuf == s.errBuf + (if t.attempts == s.attempts || s.errBuf >= c.stages + 2 then 0 else 1))
    && (!a.Collect? ==> t.collected == s.collected)
    && (!a.Collect? && !a.CancelOnError? && !a.Finish? ==> t.main == s.main)
    && (!a.CancelOnError? && !a.CancelAtEnd? && !a.CancelOutside? ==> t.cancelled == s.cancelled)
    && (!a.CancelOutside? ==> t.outside == s.outside)
  }

  lemma ProcessFollows(c: Config, s: State, w: nat)
    requires Shape(c, s) && WorkerEnabled(c, s, Process(w))
    ensures Follows(c, s, Process(w), DoProcess(c, s, w))
  {
    hide Shape;
  }

  lemma WorkerFollows(c: Config, s: State, a: Action)
    requires Shape(c, s) && WorkerAction(a) && WorkerEnabled(c, s, a) && !a.Pass?
    ensures Follows(c, s, a, ApplyWorker(c, s, a))
  {
    hide Through, WorkerOutput, Held, StageReturned, Sends, Receives, Hand, Ship, DoProcess;
    if a.Process? { ProcessFollows(c, s, a.w); }
  }

  lemma PassFollows(c: Config, s: State, a: Action)
    requires Shape(c, s) && a.Pass? && WorkerEnabled(c, s, a)
    ensures Follows(c, s, a, ApplyWorker(c, s, a))
  {
    hide Through, WorkerOutput, Held, StageReturned, DoProcess, Accept, Lose, Emit;
  }

  predicate SourceAction(a: Action) { a.Poll? || a.Check? || a.CloseSource? || a.CancelSource? }

  lemma SourceFollows(c: Config, s: State, a: Action)
    requires Shape(c, s) && SourceAction(a) && EndEnabled(c, s, a)
    ensures Follows(c, s, a, ApplyEnd(c, s, a))
  {
    hide Through, Accept, RejectAtSink;
  }

  lemma SinkFollows(c: Config, s: State, a: Action)
    requires Shape(c, s) && EndAction(a) && !SourceAction(a) && EndEnabled(c, s, a)
    ensures Follows(c, s, a, ApplyEnd(c, s, a))
  {
  }

  lemma ControlFollows(c: Config, s: State, a: Action)
    requires Shape(c, s) && !WorkerAction(a) && !EndAction(a) && ControlEnabled(c, s, a)
    ensures Follows(c, s, a, ApplyControl(c, s, a))
  {
    hide StageReturned;
  }

  lemma ActionFollows(c: Config, s: State, a: Action)
    requires Enabled(c, s, a)
    ensures Follows(c, s, a, Apply(c, s, a))
  {
    hide Follows, ApplyWorker, ApplyEnd, ApplyControl, WorkerEnabled, EndEnabled, ControlEnabled;
    if a.Pass? {
      PassFollows(c, s, a);
    } else if WorkerAction(a) {
      WorkerFollows(c, s, a);
    } else if SourceAction(a) {
      SourceFollows(c, s, a);
    } else if EndAction(a) {
      SinkFollows(c, s, a);
    } else {
      ControlFollows(c, s, a);
    }
  }

  lemma ShapeKept(c: Config, s: State, a: Action)
    requires Enabled(c, s, a)
    ensures Shape(c, Apply(c, s, a))
  {
    hide Apply, StageReturned, Sends, Receives;
    ActionFollows(c, s, a);
  }

  lemma ClosingKept(c: Config, s: State, a: Action)
    requires Shape(c, s) && Closing(c, s) && Enabled(c, s, a)
    ensures Shape(c, Apply(c, s, a)) && Closing(c, Apply(c, s, a))
  {
    ShapeKept(c, s, a);
    ActionFollows(c, s, a);
    if a.CloseStage? || a.CloseSource? || a.CloseErrors? {
      hide Accept, RejectAtSink, Emit, ApplyWorker, WorkerEnabled;
    } else {
      hide Apply, Enabled;
    }
  }

  /** Once errCh is closed every stage, source and sink goroutine has returned. */
  lemma AllReturned(c: Config, s: State)
    requires Shape(c, s) && Closing(c, s) && s.errCloses > 0
    ensures s.source.SourceDone? && s.sink.SinkReturned?
    ensures forall w :: 0 <= w < |s.workers| ==> s.workers[w].Returned?
  {
    forall w | 0 <= w < |s.workers| ensures s.workers[w].Returned? {
      assert StageReturned(c, s, c.stageOf[w]);
    }
  }

  /** Whoever emits an error finds errCh open. */
  lemma EmitsToOpen(c: Config, s: State, a: Action)
    requires Shape(c, s) && Closing(c, s) && Enabled(c, s, a)
    requires a.Check? || a.Process? || a.Abort? || a.Consume? || a.AbortSink?
    ensures s.errCloses == 0
  {
    if s.errCloses > 0 { AllReturned(c, s); }
  }

  lemma ErrorFlowKept(c: Config, s: State, a: Action)
    requires Shape(c, s) && Closing(c, s) && ErrorFlow(c, s) && Enabled(c, s, a)
    ensures ErrorFlow(c, Apply(c, s, a))
  {
    ActionFollows(c, s, a);
    if WorkerAction(a) || EndAction(a) {
      if Apply(c, s, a).attempts != s.attempts { EmitsToOpen(c, s, a); }
      hide Closing, Shape, Apply, Enabled;
    } else {
      hide Closing, Shape, StageReturned;
    }
  }

  /** Why a goroutine returns: end of its input, an error, or cancellation. */
  ghost predicate Leaves(c: Config, s: State, t: State)
    requires Shape(c, s)
  {
    && |t.workers| == |s.workers|
    && ((t.source.SourceReturned? || t.source.SourceDone?) ==>
          t.rest == [] || s.cancelled || s.source.SourceReturned? || s.source.SourceDone?)
    && (forall w :: 0 <= w < |s.workers| && t.workers[w].Returned? ==>
          s.workers[w].Returned? || s.closes[c.stageOf[w]] > 0 || s.cancelled || t.attempts > 0)
    && (t.sink.SinkReturned? ==> s.sink.SinkReturned? || s.closes[c.stages] > 0 || s.cancelled || t.attempts > 0)
  }

  lemma ActionLeaves(c: Config, s: State, a: Action)
    requires Enabled(c, s, a)
    ensures Leaves(c, s, Apply(c, s, a))
  {
    hide Leaves, ApplyWorker, ApplyEnd, ApplyControl;
    if a.Pass? {
      PassLeaves(c, s, a);
    } else if WorkerAction(a) {
      WorkerLeaves(c, s, a);
    } else if EndAction(a) {
      EndLeaves(c, s, a);
    } else {
      ControlLeaves(c, s, a);
    }
  }

  lemma PassLeaves(c: Config, s: State, a: Action)
    requires Shape(c, s) && a.Pass? && WorkerEnabled(c, s, a)
    ensures Leaves(c, s, ApplyWorker(c, s, a))
  {
    hide DoProcess, Lose, Emit;
  }

  lemma WorkerLeaves(c: Config, s: State, a: Action)
    requires Shape(c, s) && WorkerAction(a) && !a.Pass? && WorkerEnabled(c, s, a)
    ensures Leaves(c, s, ApplyWorker(c, s, a))
  {
    hide Through, WorkerOutput, Held, Hand, Ship;
  }

  lemma EndLeaves(c: Config, s: State, a: Action)
    requires Shape(c, s) && EndAction(a) && EndEnabled(c, s, a)
    ensures Leaves(c, s, ApplyEnd(c, s, a))
  {
    hide Through;
  }

  lemma ControlLeaves(c: Config, s: State, a: Action)
    requires Shape(c, s) && !WorkerAction(a) && !EndAction(a) && ControlEnabled(c, s, a)
    ensures Leaves(c, s, ApplyControl(c, s, a))
  {
    hide StageReturned;
  }

  lemma OrderlyKept(c: Config, s: State, a: Action)
    requires Inv(c, s) && Enabled(c, s, a)
    ensures Shape(c, Apply(c, s, a)) && Orderly(c, Apply(c, s, a))
  {
    ShapeKept(c, s, a);
    ActionFollows(c, s, a);
    ActionLeaves(c, s, a);
    var t := Apply(c, s, a);
    if Undisturbed(t) {
      if s.cancelled { CancelledAtEnd(c, s); }
      ClosesKept(c, s, a);
      NoLoss(c, s, a);
      if s.source.SourceReturned? || s.source.SourceDone? { RestKept(c, s, a); }
      hide Closing, ErrorFlow, Enabled, Apply;
    }
  }

  lemma RestKept(c: Config, s: State, a: Action)
    requires Enabled(c, s, a) && (s.source.SourceReturned? || s.source.SourceDone?)
    ensures Apply(c, s, a).rest == s.rest
  {
    hide Apply;
    ActionFollows(c, s, a);
  }

  lemma CancelledAtEnd(c: Config, s: State)
    requires Inv(c, s) && Undisturbed(s) && s.cancelled
    ensures s.source.SourceDone? && s.sink.SinkReturned?
    ensures forall w :: 0 <= w < |s.workers| ==> s.workers[w].Returned?
  {
    AllReturned(c, s);
  }

  lemma ClosesKept(c: Config, s: State, a: Action)
    requires Enabled(c, s, a)
    ensures |Apply(c, s, a).closes| == |s.closes|
    ensures forall i :: 0 <= i < |s.closes| ==> Apply(c, s, a).closes[i] >= s.closes[i]
  {
    hide Through, WorkerOutput, Held, DoProcess, Accept, Lose, Hand, Ship;
    ActionFollows(c, s, a);
  }

  /** Payloads and outputs are lost only to errors and cancellation. */
  lemma NoLoss(c: Config, s: State, a: Action)
    requires Enabled(c, s, a) && s.lost == [] && s.abandoned == []
    requires s.cancelled ==> s.source.SourceDone? && s.sink.SinkReturned?
                             && forall w :: 0 <= w < |s.workers| ==> s.workers[w].Returned?
    requires Apply(c, s, a).attempts == 0
    ensures Apply(c, s, a).lost == [] && Apply(c, s, a).abandoned == []
  {
    hide Through, WorkerOutput, Held;
    if WorkerAction(a) {
      hide ApplyEnd, ApplyControl, EndEnabled, ControlEnabled;
    } else {
      hide ApplyWorker, WorkerEnabled;
    }
  }

  lemma InvKept(c: Config, s: State, a: Action)
    requires Inv(c, s) && Enabled(c, s, a)
    ensures Inv(c, Apply(c, s, a))
  {
    ClosingKept(c, s, a);
    ErrorFlowKept(c, s, a);
    OrderlyKept(c, s, a);
  }

  lemma {:induction false} ExecutionInv(c: Config, s: State, acts: seq<Action>, t: State)
    requires Inv(c, s) && Execution(c, s, acts, t)
    ensures Inv(c, t)
    decreases |acts|
  {
    if acts != [] {
      InvKept(c, s, acts[0]);
      ExecutionInv(c, Apply(c, s, acts[0]), acts[1..], t);
    }
  }
}
