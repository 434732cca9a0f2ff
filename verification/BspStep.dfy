/** One superstep of the graph engine as its goroutines execute it: the main goroutine feeds the
    vertices to a pool of workers over a rendezvous channel and waits for the countdown. */
module BspStep {
  import opened BspModel
  import opened Wrappers
  import Queue

  /** A step worker, by program point. */
  datatype Worker =
    | Idle                                                // receiving from vertexCh
    | Holding(v: VertexId)                                // received v, not started
    | Computing(v: VertexId, outcome: Outcome, sent: nat) // inside computeFn, `sent` sends done
    | Finished(v: VertexId)                               // about to decrement pendingInStep
    | Signalling                                          // sending on stepCompletedCh

  /** The goroutine that called step. `Feeding({})` is blocked on stepCompletedCh. */
  datatype Main = Feeding(todo: set<VertexId>) | Dequeuing | Returned(err: Option<VertexId>)

  /** `started`, `done` and `progress` are history: the vertices whose computation began, those
      whose computation ended, and how many sends each has performed. */
  datatype State = State(
    verts: Vertices, workers: seq<Worker>, main: Main,
    activeInStep: int, pendingInStep: int, errCh: Option<VertexId>,
    started: set<VertexId>, done: set<VertexId>, progress: map<VertexId, nat>)

  datatype Action =
    | Feed(w: nat, v: VertexId) | Start(w: nat) | Pop(w: nat) | Deliver(w: nat)
    | Return(w: nat) | Decrement(w: nat) | Signal(w: nat) | Dequeue

  /** A step of `superstep` with compute function `f`, starting from `verts`. */
  datatype Job = Job(f: ComputeFn, superstep: int, verts: Vertices)

  function Initial(job: Job, workers: nat): State {
    State(job.verts, seq(workers, _ => Idle),
          if |job.verts| == 0 then Returned(None) else Feeding(job.verts.Keys),
          0, |job.verts|, None, {}, {}, map v | v in job.verts :: 0)
  }

  /** Enqueue one send; a destination unknown to the graph leaves the local queues alone. */
  function Enqueue(verts: Vertices, superstep: int, s: Send): (r: Vertices)
    ensures r.Keys == verts.Keys
  {
    if s.dst in verts then
      verts[s.dst := verts[s.dst].WithQueue(superstep + 1,
                       verts[s.dst].Queue(superstep + 1) + [Envelope(s.msg, superstep)])]
    else verts
  }

  predicate Enabled(job: Job, s: State, a: Action) {
    match a
    case Feed(w, v) => w < |s.workers| && s.workers[w].Idle? && s.main.Feeding? && v in s.main.todo
    case Start(w) => w < |s.workers| && s.workers[w].Holding? && s.workers[w].v in s.verts && s.workers[w].v in s.progress
    case Pop(w) =>
      && w < |s.workers| && s.workers[w].Computing? && s.workers[w].v in s.verts
      && |s.verts[s.workers[w].v].Queue(job.superstep)| > 0
    case Deliver(w) => w < |s.workers| && s.workers[w].Computing? && s.workers[w].sent < |s.workers[w].outcome.sends|
    case Return(w) =>
      w < |s.workers| && s.workers[w].Computing? && s.workers[w].v in s.verts
      && s.workers[w].sent == |s.workers[w].outcome.sends|
    case Decrement(w) => w < |s.workers| && s.workers[w].Finished?
    case Signal(w) => w < |s.workers| && s.workers[w].Signalling? && s.main == Feeding({})
    case Dequeue => s.main.Dequeuing?
  }

  /** A non-blocking send on the error channel, whose capacity is one. */
  function TryEmit(errCh: Option<VertexId>, v: VertexId): Option<VertexId> {
    if errCh.None? then Some(v) else errCh
  }

  function DoStart(job: Job, s: State, w: nat): State
    requires Enabled(job, s, Start(w))
  {
    var v := s.workers[w].v;
    if Runs(s.verts[v], job.superstep) then
      s.(activeInStep := s.activeInStep + 1,
         verts := s.verts[v := s.verts[v].(active := true)],
         started := s.started + {v},
         workers := s.workers[w := Computing(v, OutcomeOf(job.f, job.superstep, s.verts, v), 0)])
    else
      s.(started := s.started + {v}, done := s.done + {v}, workers := s.workers[w := Finished(v)])
  }

  function DoReturn(job: Job, s: State, w: nat): State
    requires Enabled(job, s, Return(w))
  {
    var Computing(v, out, _) := s.workers[w];
    var vert := s.verts[v].(body := out.body, active := out.active);
    var t := s.(done := s.done + {v}, workers := s.workers[w := Finished(v)]);
    if out.failure.NoFailure? then t.(verts := s.verts[v := vert.WithQueue(job.superstep, [])])
    else t.(verts := s.verts[v := vert], errCh := TryEmit(s.errCh, v))
  }

  function Apply(job: Job, s: State, a: Action): State
    requires Enabled(job, s, a)
  {
    match a
    case Feed(w, v) => s.(main := Feeding(s.main.todo - {v}), workers := s.workers[w := Holding(v)])
    case Start(w) => DoStart(job, s, w)
    case Pop(w) =>
      var v := s.workers[w].v;
      var q := s.verts[v].Queue(job.superstep);
      s.(verts := s.verts[v := s.verts[v].WithQueue(job.superstep, Queue.Rest(q))])
    case Deliver(w) =>
      var Computing(v, out, k) := s.workers[w];
      s.(verts := Enqueue(s.verts, job.superstep, out.sends[k]),
         progress := s.progress[v := k + 1],
         workers := s.workers[w := Computing(v, out, k + 1)])
    case Return(w) => DoReturn(job, s, w)
    case Decrement(w) =>
      s.(pendingInStep := s.pendingInStep - 1,
         workers := s.workers[w := if s.pendingInStep - 1 == 0 then Signalling else Idle])
    case Signal(w) => s.(main := Dequeuing, workers := s.workers[w := Idle])
    case Dequeue => s.(main := Returned(s.errCh), errCh := None)
  }

  /** Whatever some goroutine may do next is among these actions. */
  function Actions(s: State): set<Action> {
    {Dequeue}
    + (set w: nat, v | w < |s.workers| && v in Todo(s.main) :: Feed(w, v))
    + (set w: nat | w < |s.workers| :: Start(w)) + (set w: nat | w < |s.workers| :: Pop(w))
    + (set w: nat | w < |s.workers| :: Deliver(w)) + (set w: nat | w < |s.workers| :: Return(w))
    + (set w: nat | w < |s.workers| :: Decrement(w)) + (set w: nat | w < |s.workers| :: Signal(w))
  }

  lemma ActionsComplete(job: Job, s: State, a: Action)
    requires Enabled(job, s, a)
    ensures a in Actions(s)
  {
  }

  /** `acts` is a schedule that leads from `s` to `t`. */
  ghost predicate Execution(job: Job, s: State, acts: seq<Action>, t: State)
    decreases |acts|
  {
    if acts == [] then s == t
    else Enabled(job, s, acts[0]) && Execution(job, Apply(job, s, acts[0]), acts[1..], t)
  }

  // ----- the invariant

  predicate Busy(w: Worker) { w.Holding? || w.Computing? || w.Finished? }

  ghost function BusyWorkers(ws: seq<Worker>): set<nat> { set i: nat | i < |ws| && Busy(ws[i]) }

  ghost function Signallers(ws: seq<Worker>): set<nat> { set i: nat | i < |ws| && ws[i].Signalling? }

  /** The vertices inside a worker that has not finished computing them. */
  ghost function Carried(ws: seq<Worker>): set<VertexId> {
    set i: nat | i < |ws| && (ws[i].Holding? || ws[i].Computing?) :: ws[i].v
  }

  function Todo(m: Main): set<VertexId> { if m.Feeding? then m.todo else {} }

  ghost function RunningIds(job: Job): set<VertexId> {
    set v | v in job.verts && Runs(job.verts[v], job.superstep)
  }

  /** Sends of `v` to `u` that have not been performed after `k` of them have. */
  ghost function Unsent(job: Job, v: VertexId, k: nat, u: VertexId): multiset<Envelope>
    requires v in job.verts
  {
    var sends := OutcomeOf(job.f, job.superstep, job.verts, v).sends;
    if Runs(job.verts[v], job.superstep) && k <= |sends| then MessagesTo(sends, k, u, job.superstep)
    else multiset{}
  }

  /** All messages to `u` that the vertices in `from` have still to send. */
  ghost function Outstanding(job: Job, from: set<VertexId>, progress: map<VertexId, nat>, u: VertexId): multiset<Envelope>
    requires from <= job.verts.Keys && from <= progress.Keys
    decreases |from|
  {
    if from == {} then multiset{}
    else
      var v :| v in from;
      Unsent(job, v, progress[v], u) + Outstanding(job, from - {v}, progress, u)
  }

  /** Control: the countdown and the barrier. */
  ghost predicate Barrier(s: State) {
    && s.pendingInStep == |Todo(s.main)| + |BusyWorkers(s.workers)|
    && |Signallers(s.workers)| == (if s.main.Feeding? && s.pendingInStep == 0 then 1 else 0)
    && (!s.main.Feeding? ==> s.pendingInStep == 0)
  }

  /** Each vertex is in exactly one place: to be fed, inside one worker, or done. */
  ghost predicate Placement(job: Job, s: State) {
    && s.verts.Keys == job.verts.Keys == s.progress.Keys
    && Todo(s.main) <= job.verts.Keys
    && s.done <= s.started <= job.verts.Keys
    && Todo(s.main) !! s.started
    && job.verts.Keys - Todo(s.main) - s.done == Carried(s.workers)
    && (forall i, j :: 0 <= i < j < |s.workers| && Busy(s.workers[i]) && Busy(s.workers[j])
                       ==> s.workers[i].v != s.workers[j].v)
    && forall i :: 0 <= i < |s.workers| ==> WorkerOk(job, s, s.workers[i])
  }

  ghost predicate WorkerOk(job: Job, s: State, w: Worker)
    requires s.progress.Keys == job.verts.Keys
  {
    match w
    case Holding(v) => v in job.verts && v !in s.started && v !in Todo(s.main)
    case Computing(v, out, k) =>
      && v in job.verts && v in s.started && v !in s.done
      && Runs(job.verts[v], job.superstep)
      && out == OutcomeOf(job.f, job.superstep, job.verts, v)
      && k <= |out.sends| && s.progress[v] == k
    case Finished(v) => v in s.done
    case _ => true
  }

  /** The current part of a vertex record, by the stage its computation has reached. */
  ghost predicate VertexOk(job: Job, s: State, v: VertexId)
    requires v in job.verts && v in s.verts && v in s.progress
  {
    var old_, now := job.verts[v], s.verts[v];
    var out := OutcomeOf(job.f, job.superstep, job.verts, v);
    if v !in s.started then
      && now.body == old_.body && now.active == old_.active && now.Queue(job.superstep) == old_.Queue(job.superstep)
      && s.progress[v] == 0
    else if v !in s.done then
      && now.Queue(job.superstep) <= old_.Queue(job.superstep)
      && Runs(old_, job.superstep)
    else if Runs(old_, job.superstep) then
      && now.body == out.body && now.active == out.active && s.progress[v] == |out.sends|
      && (out.failure.NoFailure? ==> now.Queue(job.superstep) == [])
      && now.Queue(job.superstep) <= old_.Queue(job.superstep)
    else
      now.body == old_.body && now.active == old_.active && now.Queue(job.superstep) == []
  }

  ghost predicate VerticesOk(job: Job, s: State)
    requires s.verts.Keys == job.verts.Keys == s.progress.Keys
  {
    forall v :: v in job.verts ==> VertexOk(job, s, v)
  }

  /** What has been delivered to `u` and what is outstanding make up the final queue. */
  ghost predicate Conserved(job: Job, s: State, u: VertexId)
    requires s.verts.Keys == job.verts.Keys == s.progress.Keys && u in job.verts
  {
    multiset(s.verts[u].Queue(job.superstep + 1)) + Outstanding(job, job.verts.Keys, s.progress, u)
    == multiset(job.verts[u].Queue(job.superstep + 1)) + Outstanding(job, job.verts.Keys, Zero(job), u)
  }

  ghost function Zero(job: Job): map<VertexId, nat> { map v | v in job.verts :: 0 }

  ghost predicate Mailed(job: Job, s: State)
    requires s.verts.Keys == job.verts.Keys == s.progress.Keys
  {
    forall u :: u in job.verts ==> Conserved(job, s, u)
  }

  /** The error channel holds (or step has returned) an error exactly when a computation failed. */
  ghost predicate Errors(job: Job, s: State)
    requires s.done <= job.verts.Keys
  {
    var e := if s.main.Returned? then s.main.err else s.errCh;
    && (s.main.Returned? ==> s.errCh.None?)
    && (e.Some? ==> e.value in s.done && Fails(job.f, job.superstep, job.verts, e.value))
    && (e.None? ==> forall v :: v in s.done ==> !Fails(job.f, job.superstep, job.verts, v))
  }

  ghost predicate Inv(job: Job, s: State) {
    && Placement(job, s) && Barrier(s) && VerticesOk(job, s) && Mailed(job, s) && Errors(job, s)
    && s.activeInStep == |s.started * RunningIds(job)|
  }

  // ----- the initial state

  lemma InitialInv(job: Job, workers: nat)
    ensures Inv(job, Initial(job, workers))
  {
    var s := Initial(job, workers);
    assert s.started * RunningIds(job) == {};
    assert BusyWorkers(s.workers) == {} && Signallers(s.workers) == {} && Carried(s.workers) == {};
    assert s.progress == Zero(job);
    if |job.verts| == 0 { assert job.verts.Keys == {}; }
    assert |job.verts.Keys| == |job.verts|;
  }

  // ----- preservation

  lemma CountUpdate(ws: seq<Worker>, w: nat, x: Worker)
    requires w < |ws|
    ensures |BusyWorkers(ws[w := x])| + (if Busy(ws[w]) then 1 else 0)
         == |BusyWorkers(ws)| + (if Busy(x) then 1 else 0)
    ensures |Signallers(ws[w := x])| + (if ws[w].Signalling? then 1 else 0)
         == |Signallers(ws)| + (if x.Signalling? then 1 else 0)
  {
    BusyUpdate(ws, w, x);
    SignalUpdate(ws, w, x);
  }

  lemma BusyUpdate(ws: seq<Worker>, w: nat, x: Worker)
    requires w < |ws|
    ensures |BusyWorkers(ws[w := x])| + (if Busy(ws[w]) then 1 else 0)
         == |BusyWorkers(ws)| + (if Busy(x) then 1 else 0)
  {
    hide Busy;
    var b, b' := BusyWorkers(ws), BusyWorkers(ws[w := x]);
    assert b' == if Busy(x) then b + {w} else b - {w};
  }

  lemma SignalUpdate(ws: seq<Worker>, w: nat, x: Worker)
    requires w < |ws|
    ensures |Signallers(ws[w := x])| + (if ws[w].Signalling? then 1 else 0)
         == |Signallers(ws)| + (if x.Signalling? then 1 else 0)
  {
    var g, g' := Signallers(ws), Signallers(ws[w := x]);
    assert g' == if x.Signalling? then g + {w} else g - {w};
  }

  ghost predicate Carries(w: Worker, v: VertexId) { (w.Holding? || w.Computing?) && w.v == v }

  lemma CarriedUpdate(ws: seq<Worker>, w: nat, x: Worker)
    requires w < |ws|
    requires forall i, j :: 0 <= i < j < |ws| && Busy(ws[i]) && Busy(ws[j]) ==> ws[i].v != ws[j].v
    ensures Carried(ws[w := x]) ==
            Carried(ws) - (if ws[w].Holding? || ws[w].Computing? then {ws[w].v} else {})
            + (if x.Holding? || x.Computing? then {x.v} else {})
  {
    var ws' := ws[w := x];
    forall v
      ensures v in Carried(ws') <==> Carries(x, v) || (v in Carried(ws) && !Carries(ws[w], v))
    {
      if v in Carried(ws) && !Carries(ws[w], v) {
        var i :| 0 <= i < |ws| && Carries(ws[i], v);
        assert Carries(ws'[i], v);
      }
      if Carries(x, v) { assert Carries(ws'[w], v); }
      if v in Carried(ws') && !Carries(x, v) {
        var i :| 0 <= i < |ws'| && Carries(ws'[i], v);
        assert Carries(ws[i], v);
      }
    }
  }

  lemma BarrierKept(job: Job, s: State, a: Action)
    requires Barrier(s) && Enabled(job, s, a)
    ensures Barrier(Apply(job, s, a))
  {
    if !a.Dequeue? && !a.Pop? {
      var t := Apply(job, s, a);
      var x := t.workers[a.w];
      CountUpdate(s.workers, a.w, x);
      assert t.workers == s.workers[a.w := x];
      SomeCounted(s.workers, a.w);
      if a.Feed? {
        assert |s.main.todo - {a.v}| == |s.main.todo| - 1;
      }
    }
  }

  lemma SomeCounted(ws: seq<Worker>, w: nat)
    requires w < |ws|
    ensures Busy(ws[w]) ==> |BusyWorkers(ws)| > 0
    ensures ws[w].Signalling? ==> |Signallers(ws)| > 0
  {
    assert Busy(ws[w]) ==> w in BusyWorkers(ws);
    assert ws[w].Signalling? ==> w in Signallers(ws);
  }

  lemma PlacementKept(job: Job, s: State, a: Action)
    requires Placement(job, s) && Enabled(job, s, a)
    requires a.Start? ==> VertexOk(job, s, s.workers[a.w].v)
    ensures Placement(job, Apply(job, s, a))
  {
    hide Carried;
    if !a.Dequeue? && !a.Pop? {
      var t := Apply(job, s, a);
      var w := a.w;
      var x := t.workers[w];
      assert WorkerOk(job, s, s.workers[w]);
      assert t.workers == s.workers[w := x];
      CarriedUpdate(s.workers, w, x);
      OthersKept(job, s, a);
      OneVertexPerWorker(job, s, a);
      assert WorkerOk(job, t, x);
    }
  }

  lemma OneVertexPerWorker(job: Job, s: State, a: Action)
    requires Placement(job, s) && Enabled(job, s, a) && !a.Dequeue? && !a.Pop?
    ensures var ws := Apply(job, s, a).workers;
            forall i, j :: 0 <= i < j < |ws| && Busy(ws[i]) && Busy(ws[j]) ==> ws[i].v != ws[j].v
  {
    if a.Feed? {
      forall i | 0 <= i < |s.workers| && Busy(s.workers[i])
        ensures s.workers[i].v != a.v
      {
        assert WorkerOk(job, s, s.workers[i]);
      }
    }
  }

  lemma OthersKept(job: Job, s: State, a: Action)
    requires Placement(job, s) && Enabled(job, s, a) && !a.Dequeue? && !a.Pop?
    ensures var t := Apply(job, s, a);
            t.progress.Keys == job.verts.Keys
            && forall i :: 0 <= i < |s.workers| && i != a.w ==> WorkerOk(job, t, s.workers[i])
  {
    var t := Apply(job, s, a);
    assert WorkerOk(job, s, s.workers[a.w]);
    forall i | 0 <= i < |s.workers| && i != a.w
      ensures WorkerOk(job, t, s.workers[i])
    {
      assert WorkerOk(job, s, s.workers[i]);
    }
  }

  lemma VerticesKept(job: Job, s: State, a: Action)
    requires Placement(job, s) && VerticesOk(job, s) && Enabled(job, s, a)
    ensures var t := Apply(job, s, a);
            t.verts.Keys == job.verts.Keys == t.progress.Keys && VerticesOk(job, t)
  {
    forall v | v in job.verts
      ensures var t := Apply(job, s, a); v in t.verts && v in t.progress && VertexOk(job, t, v)
    {
      assert VertexOk(job, s, v);
      if !a.Dequeue? { assert WorkerOk(job, s, s.workers[a.w]); }
      VertexKept(job, s, a, v);
    }
    DomainKept(job, s, a);
  }

  lemma DomainKept(job: Job, s: State, a: Action)
    requires s.verts.Keys == job.verts.Keys == s.progress.Keys && Enabled(job, s, a)
    requires !a.Dequeue? ==> WorkerOk(job, s, s.workers[a.w])
    ensures Apply(job, s, a).verts.Keys == job.verts.Keys == Apply(job, s, a).progress.Keys
  {
  }

  lemma VertexKept(job: Job, s: State, a: Action, v: VertexId)
    requires s.verts.Keys == job.verts.Keys == s.progress.Keys && s.done <= s.started && Enabled(job, s, a)
    requires v in job.verts && VertexOk(job, s, v)
    requires !a.Dequeue? ==> WorkerOk(job, s, s.workers[a.w])
    ensures var t := Apply(job, s, a); v in t.verts && v in t.progress && VertexOk(job, t, v)
  {
    hide OutcomeOf;
    if a.Deliver? {
      DeliverFrame(job, s, a.w, v);
    } else if a.Return? {
      VertexReturned(job, s, a.w, v);
    }
  }

  lemma VertexReturned(job: Job, s: State, w: nat, v: VertexId)
    requires s.verts.Keys == job.verts.Keys == s.progress.Keys && s.done <= s.started && Enabled(job, s, Return(w))
    requires v in job.verts && VertexOk(job, s, v) && WorkerOk(job, s, s.workers[w])
    ensures var t := Apply(job, s, Return(w)); v in t.verts && v in t.progress && VertexOk(job, t, v)
  {
    hide OutcomeOf;
  }

  /** A delivery leaves the current part of every vertex record alone. */
  lemma DeliverFrame(job: Job, s: State, w: nat, v: VertexId)
    requires Enabled(job, s, Deliver(w)) && v in s.verts
    ensures var t := Apply(job, s, Deliver(w));
            && v in t.verts && t.verts[v].body == s.verts[v].body && t.verts[v].active == s.verts[v].active
            && t.verts[v].Queue(job.superstep) == s.verts[v].Queue(job.superstep)
  {
  }

  lemma {:induction false} OutstandingSplit(job: Job, from: set<VertexId>, progress: map<VertexId, nat>, v: VertexId, u: VertexId)
    requires from <= job.verts.Keys && from <= progress.Keys && v in from
    ensures Outstanding(job, from, progress, u)
         == Unsent(job, v, progress[v], u) + Outstanding(job, from - {v}, progress, u)
    decreases |from|
  {
    var p :| p in from && Outstanding(job, from, progress, u)
                       == Unsent(job, p, progress[p], u) + Outstanding(job, from - {p}, progress, u);
    if p != v {
      OutstandingSplit(job, from - {p}, progress, v, u);
      OutstandingSplit(job, from - {v}, progress, p, u);
      assert from - {p} - {v} == from - {v} - {p};
    }
  }

  lemma {:induction false} OutstandingFrame(job: Job, from: set<VertexId>, p: map<VertexId, nat>, q: map<VertexId, nat>, u: VertexId)
    requires from <= job.verts.Keys && from <= p.Keys && from <= q.Keys
    requires forall v :: v in from ==> Unsent(job, v, p[v], u) == Unsent(job, v, q[v], u)
    ensures Outstanding(job, from, p, u) == Outstanding(job, from, q, u)
    decreases |from|
  {
    if from != {} {
      var v :| v in from;
      OutstandingSplit(job, from, p, v, u);
      OutstandingSplit(job, from, q, v, u);
      OutstandingFrame(job, from - {v}, p, q, u);
    }
  }

  lemma MailedKept(job: Job, s: State, a: Action)
    requires Placement(job, s) && Mailed(job, s) && Enabled(job, s, a)
    ensures job.verts.Keys == Apply(job, s, a).verts.Keys == Apply(job, s, a).progress.Keys
    ensures Mailed(job, Apply(job, s, a))
  {
    if !a.Dequeue? { assert WorkerOk(job, s, s.workers[a.w]); }
    DomainKept(job, s, a);
    forall u | u in job.verts
      ensures Conserved(job, Apply(job, s, a), u)
    {
      assert Conserved(job, s, u);
      ConservedKept(job, s, a, u);
    }
  }

  lemma ConservedKept(job: Job, s: State, a: Action, u: VertexId)
    requires s.verts.Keys == job.verts.Keys == s.progress.Keys && Enabled(job, s, a)
    requires u in job.verts && Conserved(job, s, u)
    requires !a.Dequeue? ==> WorkerOk(job, s, s.workers[a.w])
    ensures var t := Apply(job, s, a);
            t.progress.Keys == t.verts.Keys == job.verts.Keys && Conserved(job, t, u)
  {
    DomainKept(job, s, a);
    if a.Deliver? {
      DeliverConserves(job, s, a.w, u);
    } else {
      OutboxFrame(job, s, a, u);
    }
  }

  /** Only a delivery touches the queues of the next superstep. */
  lemma OutboxFrame(job: Job, s: State, a: Action, u: VertexId)
    requires Enabled(job, s, a) && !a.Deliver? && u in s.verts
    ensures var t := Apply(job, s, a);
            t.progress == s.progress && u in t.verts
            && t.verts[u].Queue(job.superstep + 1) == s.verts[u].Queue(job.superstep + 1)
  {
  }

  lemma OutstandingStep(job: Job, progress: map<VertexId, nat>, v: VertexId, k: nat, u: VertexId)
    requires progress.Keys == job.verts.Keys && v in job.verts
    ensures Outstanding(job, job.verts.Keys, progress[v := k], u) + Unsent(job, v, progress[v], u)
         == Outstanding(job, job.verts.Keys, progress, u) + Unsent(job, v, k, u)
  {
    var all := job.verts.Keys;
    OutstandingSplit(job, all, progress, v, u);
    OutstandingSplit(job, all, progress[v := k], v, u);
    OutstandingFrame(job, all - {v}, progress, progress[v := k], u);
  }

  lemma Exchange<T>(q: multiset<T>, q': multiset<T>, o: multiset<T>, o': multiset<T>, u: multiset<T>, u': multiset<T>)
    requires q' + u' == q + u && o' + u == o + u'
    ensures q' + o' == q + o
  {
    forall m: T ensures (q' + o')[m] == (q + o)[m] {
      assert (q' + u')[m] == (q + u)[m] && (o' + u)[m] == (o + u')[m];
    }
  }

  lemma DeliverConserves(job: Job, s: State, w: nat, u: VertexId)
    requires s.verts.Keys == job.verts.Keys == s.progress.Keys
    requires Enabled(job, s, Deliver(w)) && u in job.verts
    requires WorkerOk(job, s, s.workers[w]) && Conserved(job, s, u)
    ensures var t := Apply(job, s, Deliver(w));
            t.progress.Keys == t.verts.Keys == job.verts.Keys && Conserved(job, t, u)
  {
    hide Unsent, Outstanding, Vertex.Queue, Enqueue, OutcomeOf, Runs;
    var t := Apply(job, s, Deliver(w));
    var Computing(v, out, k) := s.workers[w];
    OutstandingStep(job, s.progress, v, k + 1, u);
    DeliverQueue(job, s, w, u);
    Exchange(multiset(s.verts[u].Queue(job.superstep + 1)), multiset(t.verts[u].Queue(job.superstep + 1)),
             Outstanding(job, job.verts.Keys, s.progress, u), Outstanding(job, job.verts.Keys, t.progress, u),
             Unsent(job, v, k, u), Unsent(job, v, k + 1, u));
  }

  lemma DeliverQueue(job: Job, s: State, w: nat, u: VertexId)
    requires s.verts.Keys == job.verts.Keys == s.progress.Keys
    requires Enabled(job, s, Deliver(w)) && u in job.verts
    requires WorkerOk(job, s, s.workers[w])
    ensures var Computing(v, out, k) := s.workers[w];
            var t := Apply(job, s, Deliver(w));
            t.verts.Keys == job.verts.Keys
            && multiset(t.verts[u].Queue(job.superstep + 1)) + Unsent(job, v, k + 1, u)
            == multiset(s.verts[u].Queue(job.superstep + 1)) + Unsent(job, v, k, u)
  {
    var t := Apply(job, s, Deliver(w));
    var snd := s.workers[w].outcome.sends[s.workers[w].sent];
    if snd.dst == u {
      assert t.verts[u].Queue(job.superstep + 1)
          == s.verts[u].Queue(job.superstep + 1) + [Envelope(snd.msg, job.superstep)];
    } else {
      assert t.verts[u].Queue(job.superstep + 1) == s.verts[u].Queue(job.superstep + 1);
    }
  }

  lemma ErrorsKept(job: Job, s: State, a: Action)
    requires Placement(job, s) && Barrier(s) && Errors(job, s) && Enabled(job, s, a)
    requires a.Start? ==> VertexOk(job, s, s.workers[a.w].v)
    requires Apply(job, s, a).done <= job.verts.Keys
    ensures Errors(job, Apply(job, s, a))
  {
    if !a.Dequeue? { assert WorkerOk(job, s, s.workers[a.w]); }
    if a.Return? || a.Start? { assert a.w in BusyWorkers(s.workers); }
  }

  lemma ActiveKept(job: Job, s: State, a: Action)
    requires Placement(job, s) && Enabled(job, s, a)
    requires a.Start? ==> VertexOk(job, s, s.workers[a.w].v)
    requires s.activeInStep == |s.started * RunningIds(job)|
    ensures var t := Apply(job, s, a); t.activeInStep == |t.started * RunningIds(job)|
  {
    hide Carried, OutcomeOf, Enqueue, Vertex.Queue, Busy, RunningIds;
    if a.Start? {
      var v := s.workers[a.w].v;
      assert WorkerOk(job, s, s.workers[a.w]);
      OneMore(s.started, RunningIds(job), v);
      RunningNow(job, s, v);
    }
  }

  lemma OneMore<T>(xs: set<T>, ys: set<T>, x: T)
    requires x !in xs
    ensures |(xs + {x}) * ys| == |xs * ys| + (if x in ys then 1 else 0)
  {
    assert (xs + {x}) * ys == if x in ys then xs * ys + {x} else xs * ys;
  }

  lemma RunningNow(job: Job, s: State, v: VertexId)
    requires v in job.verts && v in s.verts && v in s.progress && v !in s.started && VertexOk(job, s, v)
    ensures v in RunningIds(job) <==> Runs(s.verts[v], job.superstep)
  {
    hide OutcomeOf, Vertex.Queue;
  }

  /** Every atomic step of every goroutine keeps the invariant. */
  lemma InvKept(job: Job, s: State, a: Action)
    requires Inv(job, s) && Enabled(job, s, a)
    ensures Inv(job, Apply(job, s, a))
  {
    if a.Start? { assert WorkerOk(job, s, s.workers[a.w]); }
    BarrierKept(job, s, a);
    PlacementKept(job, s, a);
    VerticesKept(job, s, a);
    MailedKept(job, s, a);
    ErrorsKept(job, s, a);
    ActiveKept(job, s, a);
  }

  lemma {:induction false} ExecutionInv(job: Job, s: State, acts: seq<Action>, t: State)
    requires Inv(job, s) && Execution(job, s, acts, t)
    ensures Inv(job, t)
    decreases |acts|
  {
    if acts != [] {
      InvKept(job, s, acts[0]);
      ExecutionInv(job, Apply(job, s, acts[0]), acts[1..], t);
    }
  }
}
