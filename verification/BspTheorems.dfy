/** What every schedule of a superstep guarantees: the barrier, isolation of the two message
    generations, progress, and agreement with the synchronous superstep. */
module BspTheorems {
  import opened BspModel
  import opened BspStep
  import opened Wrappers
  import opened Sums

  /** `s` can be reached by some schedule of the step with `workers` step workers. */
  ghost predicate Reached(job: Job, workers: nat, acts: seq<Action>, s: State) {
    Execution(job, Initial(job, workers), acts, s)
  }

  lemma ReachedInv(job: Job, workers: nat, acts: seq<Action>, s: State)
    requires Reached(job, workers, acts, s)
    ensures Inv(job, s)
  {
    InitialInv(job, workers);
    ExecutionInv(job, Initial(job, workers), acts, s);
  }

  /** The countdown always equals the vertices not handed out plus those in workers' hands. While the
      caller waits with the countdown at zero some worker signals, and whoever signals is the only
      one, when nothing is left in either place. */
  lemma StepBarrier(job: Job, workers: nat, acts: seq<Action>, s: State)
    requires Reached(job, workers, acts, s)
    ensures s.pendingInStep == |Todo(s.main)| + |BusyWorkers(s.workers)|
    ensures s.main.Feeding? && s.pendingInStep == 0 ==> exists i :: 0 <= i < |s.workers| && s.workers[i].Signalling?
    ensures forall i :: 0 <= i < |s.workers| && s.workers[i].Signalling? ==>
              && s.main == Feeding({}) && s.done == job.verts.Keys
              && forall j :: 0 <= j < |s.workers| && j != i ==> s.workers[j].Idle?
    ensures !s.main.Feeding? ==>
              s.done == job.verts.Keys && forall j :: 0 <= j < |s.workers| ==> s.workers[j].Idle?
  {
    ReachedInv(job, workers, acts, s);
    forall i | 0 <= i < |s.workers| && s.workers[i].Signalling?
      ensures && s.main == Feeding({}) && s.done == job.verts.Keys
              && forall j :: 0 <= j < |s.workers| && j != i ==> s.workers[j].Idle?
    {
      OneSignaller(job, s, i);
    }
    if !s.main.Feeding? { NobodyBusy(job, s); NoSignaller(s); }
    if s.main.Feeding? && s.pendingInStep == 0 {
      var i :| i in Signallers(s.workers);
      assert s.workers[i].Signalling?;
    }
  }

  lemma NoSignaller(s: State)
    requires |Signallers(s.workers)| == 0
    ensures forall i :: 0 <= i < |s.workers| ==> !s.workers[i].Signalling?
  {
    forall i | 0 <= i < |s.workers| ensures !s.workers[i].Signalling? {
      assert i in Signallers(s.workers) <==> s.workers[i].Signalling?;
    }
  }

  lemma OneSignaller(job: Job, s: State, i: nat)
    requires Placement(job, s) && Barrier(s) && i < |s.workers| && s.workers[i].Signalling?
    ensures s.main == Feeding({}) && s.done == job.verts.Keys
    ensures forall j :: 0 <= j < |s.workers| && j != i ==> s.workers[j].Idle?
  {
    assert i in Signallers(s.workers);
    NobodyBusy(job, s);
    forall j | 0 <= j < |s.workers| && j != i
      ensures s.workers[j].Idle?
    {
      if s.workers[j].Signalling? { SubsetSize({i, j}, Signallers(s.workers)); }
    }
  }

  lemma {:induction false} SubsetSize<T>(a: set<T>, b: set<T>)
    requires a <= b
    ensures |a| <= |b|
  {
    if a != {} {
      var x :| x in a;
      SubsetSize(a - {x}, b - {x});
    }
  }

  lemma NobodyBusy(job: Job, s: State)
    requires Placement(job, s) && Barrier(s) && s.pendingInStep == 0
    ensures Todo(s.main) == {} && s.done == job.verts.Keys
    ensures forall i :: 0 <= i < |s.workers| ==> !Busy(s.workers[i])
  {
    assert Todo(s.main) == {} && BusyWorkers(s.workers) == {};
    forall i | 0 <= i < |s.workers| ensures !Busy(s.workers[i]) {
      assert i in BusyWorkers(s.workers) <==> Busy(s.workers[i]);
    }
    assert Carried(s.workers) == {};
  }

  // ----- progress

  /** A step that has not returned is never stuck, provided there is a worker. */
  lemma StepProgress(job: Job, s: State) returns (a: Action)
    requires Inv(job, s) && !s.main.Returned? && |s.workers| > 0
    ensures Enabled(job, s, a)
  {
    hide VerticesOk, Mailed, Errors, Barrier, RunningIds, Carried, Runs, OutcomeOf;
    if s.main.Dequeuing? {
      a := Dequeue;
    } else if w: nat :| w < |s.workers| && Busy(s.workers[w]) {
      a := BusyProgress(job, s, w);
    } else {
      a := MainProgress(job, s);
    }
  }

  lemma BusyProgress(job: Job, s: State, w: nat) returns (a: Action)
    requires Placement(job, s) && w < |s.workers| && Busy(s.workers[w])
    ensures Enabled(job, s, a)
  {
    hide Carried, Runs, OutcomeOf, Vertex.Queue;
    assert WorkerOk(job, s, s.workers[w]);
    a := match s.workers[w]
         case Holding(_) => Start(w)
         case Finished(_) => Decrement(w)
         case Computing(_, out, k) => if k < |out.sends| then Deliver(w) else Return(w);
  }

  /** With no worker busy the caller hands out a vertex, or a worker signals. */
  lemma MainProgress(job: Job, s: State) returns (a: Action)
    requires Barrier(s) && s.main.Feeding? && |s.workers| > 0
    requires forall w :: 0 <= w < |s.workers| ==> !Busy(s.workers[w])
    ensures Enabled(job, s, a)
  {
    assert BusyWorkers(s.workers) == {};
    if s.main.todo != {} {
      assert Signallers(s.workers) == {};
      var v :| v in s.main.todo;
      a := Feed(0, v);
      assert s.workers[0].Idle? by { assert s.workers[0].Signalling? ==> 0 in Signallers(s.workers); }
    } else {
      assert Signallers(s.workers) != {};
      var w: nat :| w in Signallers(s.workers);
      a := Signal(w);
    }
  }

  function WorkOf(job: Job, s: State, w: Worker): nat {
    match w
    case Idle => 0
    case Signalling => 1
    case Finished(_) => 2
    case Computing(v, out, k) =>
      3 + (if k <= |out.sends| then |out.sends| - k else 0)
      + (if v in s.verts then |s.verts[v].Queue(job.superstep)| else 0)
    case Holding(_) => 0
  }

  function Work(job: Job, s: State): seq<nat> {
    seq(|s.workers|, i requires 0 <= i < |s.workers| => WorkOf(job, s, s.workers[i]))
  }

  ghost function HoldingWorkers(ws: seq<Worker>): set<nat> { set i: nat | i < |ws| && ws[i].Holding? }

  function Phase(m: Main): nat { match m case Feeding(_) => 2 case Dequeuing => 1 case Returned(_) => 0 }

  /** Lexicographic: vertices to feed, vertices received but not started, work inside the workers,
      phase of the main goroutine. */
  ghost predicate Smaller(job: Job, t: State, s: State) {
    (|Todo(s.main)|, |HoldingWorkers(s.workers)|, Sum(Work(job, s)), Phase(s.main)
     decreases to
     |Todo(t.main)|, |HoldingWorkers(t.workers)|, Sum(Work(job, t)), Phase(t.main))
  }

  lemma HoldingCount(ws: seq<Worker>, w: nat, x: Worker)
    requires w < |ws|
    ensures |HoldingWorkers(ws[w := x])| + (if ws[w].Holding? then 1 else 0)
         == |HoldingWorkers(ws)| + (if x.Holding? then 1 else 0)
  {
    var h := HoldingWorkers(ws);
    assert HoldingWorkers(ws[w := x]) == if x.Holding? then h + {w} else h - {w};
  }

  /** No schedule is infinite: every step of every goroutine decreases the measure. */
  lemma StepDecreases(job: Job, s: State, a: Action)
    requires Placement(job, s) && Enabled(job, s, a)
    ensures Smaller(job, Apply(job, s, a), s)
  {
    var t := Apply(job, s, a);
    if a.Feed? {
      assert |s.main.todo - {a.v}| == |s.main.todo| - 1;
    } else if !a.Dequeue? {
      if !a.Pop? { HoldingCount(s.workers, a.w, t.workers[a.w]); assert t.workers == s.workers[a.w := t.workers[a.w]]; }
      if !a.Start? { WorkDecreases(job, s, a); }
    } else {
      assert Work(job, t) == Work(job, s);
    }
  }

  lemma WorkDecreases(job: Job, s: State, a: Action)
    requires Placement(job, s) && Enabled(job, s, a) && !a.Dequeue? && !a.Feed? && !a.Start?
    ensures Sum(Work(job, Apply(job, s, a))) < Sum(Work(job, s))
  {
    var t, w := Apply(job, s, a), a.w;
    var x := WorkOf(job, t, t.workers[w]);
    forall i | 0 <= i < |s.workers| && i != w
      ensures WorkOf(job, t, t.workers[i]) == WorkOf(job, s, s.workers[i])
    {
      assert WorkerOk(job, s, s.workers[i]) && WorkerOk(job, s, s.workers[w]);
      OtherWork(job, s, a, i);
    }
    OwnWork(job, s, a);
    assert Work(job, t) == Work(job, s)[w := x];
    SumUpdate(Work(job, s), w, x);
  }

  lemma OwnWork(job: Job, s: State, a: Action)
    requires Enabled(job, s, a) && !a.Dequeue? && !a.Feed? && !a.Start?
    ensures var t := Apply(job, s, a);
            WorkOf(job, t, t.workers[a.w]) < WorkOf(job, s, s.workers[a.w])
  {
    if a.Deliver? {
      var v := s.workers[a.w].v;
      if v in s.verts { DeliverFrame(job, s, a.w, v); }
    }
  }

  lemma OtherWork(job: Job, s: State, a: Action, i: nat)
    requires Enabled(job, s, a) && !a.Dequeue? && !a.Feed? && !a.Start?
    requires i < |s.workers| && i != a.w
    requires Busy(s.workers[a.w]) && Busy(s.workers[i]) ==> s.workers[a.w].v != s.workers[i].v
    ensures var t := Apply(job, s, a);
            WorkOf(job, t, t.workers[i]) == WorkOf(job, s, s.workers[i])
  {
    if a.Deliver? && s.workers[i].Computing? {
      var v := s.workers[i].v;
      if v in s.verts { DeliverFrame(job, s, a.w, v); }
    }
  }

  // ----- isolation

  lemma {:induction false} OutstandingTagged(job: Job, from: set<VertexId>, progress: map<VertexId, nat>, u: VertexId)
    requires from <= job.verts.Keys && from <= progress.Keys
    ensures forall m :: m in Outstanding(job, from, progress, u) ==> m.sentIn == job.superstep
    decreases |from|
  {
    if from != {} {
      var v :| v in from;
      OutstandingSplit(job, from, progress, v, u);
      OutstandingTagged(job, from - {v}, progress, u);
      var sends := OutcomeOf(job.f, job.superstep, job.verts, v).sends;
      if progress[v] <= |sends| { MessagesToTagged(sends, progress[v], u, job.superstep); }
    }
  }

  ghost predicate Tagged(q: seq<Envelope>, superstep: int) {
    forall i :: 0 <= i < |q| ==> q[i].sentIn == superstep
  }

  /** At the start of a superstep the queue it reads holds only the previous superstep's messages
      and the other queue only messages sent since then. */
  ghost predicate Generations(verts: Vertices, superstep: int) {
    forall u :: u in verts ==>
      Tagged(verts[u].Queue(superstep), superstep - 1) && Tagged(verts[u].Queue(superstep + 1), superstep)
  }

  /** While a superstep runs, under any schedule, no message reaches the queues being read, and a
      vertex that has not been started still has every message it had at the start. */
  lemma Isolation(job: Job, workers: nat, acts: seq<Action>, s: State, u: VertexId)
    requires Generations(job.verts, job.superstep)
    requires Reached(job, workers, acts, s) && u in job.verts
    ensures u in s.verts
    ensures Tagged(s.verts[u].Queue(job.superstep), job.superstep - 1)
    ensures Tagged(s.verts[u].Queue(job.superstep + 1), job.superstep)
    ensures s.verts[u].Queue(job.superstep) <= job.verts[u].Queue(job.superstep)
    ensures u !in s.started ==> s.verts[u].Queue(job.superstep) == job.verts[u].Queue(job.superstep)
  {
    hide Barrier, Errors, Reached, Outstanding, Carried, WorkerOk, OutcomeOf, Runs, RunningIds, Vertex.Queue;
    ReachedInv(job, workers, acts, s);
    assert VertexOk(job, s, u) && Conserved(job, s, u);
    OutboxTagged(job, s, u);
  }

  lemma OutboxTagged(job: Job, s: State, u: VertexId)
    requires s.verts.Keys == job.verts.Keys == s.progress.Keys && u in job.verts && Conserved(job, s, u)
    requires Tagged(job.verts[u].Queue(job.superstep + 1), job.superstep)
    ensures Tagged(s.verts[u].Queue(job.superstep + 1), job.superstep)
  {
    var q, q0 := s.verts[u].Queue(job.superstep + 1), job.verts[u].Queue(job.superstep + 1);
    OutstandingTagged(job, job.verts.Keys, Zero(job), u);
    forall i | 0 <= i < |q|
      ensures q[i].sentIn == job.superstep
    {
      assert q[i] in multiset(q);
      assert q[i] in multiset(q0) + Outstanding(job, job.verts.Keys, Zero(job), u);
    }
  }

  // ----- agreement with the synchronous superstep

  lemma {:induction false} MailSplit(f: ComputeFn, superstep: int, nodes: Nodes, from: set<VertexId>, id: VertexId, u: VertexId)
    requires from <= nodes.Keys && id in from
    ensures Mail(f, superstep, nodes, from, u)
         == Sent(f, superstep, nodes, id, u) + Mail(f, superstep, nodes, from - {id}, u)
    decreases |from|
  {
    var p :| p in from && Mail(f, superstep, nodes, from, u)
                       == Sent(f, superstep, nodes, p, u) + Mail(f, superstep, nodes, from - {p}, u);
    if p != id {
      MailSplit(f, superstep, nodes, from - {p}, id, u);
      MailSplit(f, superstep, nodes, from - {id}, p, u);
      assert from - {p} - {id} == from - {id} - {p};
    }
  }

  /** Before anything is sent, what is outstanding is the mail of the synchronous superstep. */
  lemma {:induction false} OutstandingIsMail(job: Job, from: set<VertexId>, u: VertexId)
    requires from <= job.verts.Keys
    ensures Outstanding(job, from, Zero(job), u) == Mail(job.f, job.superstep, View(job.verts, job.superstep), from, u)
    decreases |from|
  {
    hide Unsent, Sent, View;
    if from != {} {
      var v :| v in from;
      OutstandingSplit(job, from, Zero(job), v, u);
      MailSplit(job.f, job.superstep, View(job.verts, job.superstep), from, v, u);
      OutstandingIsMail(job, from - {v}, u);
      UnsentIsSent(job, v, u);
    }
  }

  lemma UnsentIsSent(job: Job, v: VertexId, u: VertexId)
    requires v in job.verts
    ensures Unsent(job, v, 0, u) == Sent(job.f, job.superstep, View(job.verts, job.superstep), v, u)
  {
  }

  lemma {:induction false} NothingOutstanding(job: Job, from: set<VertexId>, progress: map<VertexId, nat>, u: VertexId)
    requires from <= job.verts.Keys && from <= progress.Keys
    requires forall v :: v in from && Runs(job.verts[v], job.superstep)
               ==> progress[v] == |OutcomeOf(job.f, job.superstep, job.verts, v).sends|
    ensures Outstanding(job, from, progress, u) == multiset{}
    decreases |from|
  {
    if from != {} {
      var v :| v in from;
      OutstandingSplit(job, from, progress, v, u);
      NothingOutstanding(job, from - {v}, progress, u);
    }
  }

  /** Vertex `u` ends as in the synchronous superstep; only a failed computation can leave messages
      behind in the queue it was reading. */
  ghost predicate NodeAgrees(job: Job, verts: Vertices, u: VertexId)
    requires u in job.verts && u in verts
  {
    var next := See(verts[u], job.superstep + 1);
    && next.(outbox := multiset{}) == PregelNode(job.f, job.superstep, View(job.verts, job.superstep), u)
    && (!Fails(job.f, job.superstep, job.verts, u) ==> next.outbox == multiset{})
  }

  /** However the vertices are fed and the workers interleaved, when step returns:
      it reports an error exactly when some vertex failed, and then one that did; it reports the
      number of vertices that were awake; the error channel is empty again; and every vertex has
      the body, the flag and (as a multiset) the next inbox of the synchronous superstep, with
      nothing left in the queue just read unless its own computation failed. */
  lemma StepAgrees(job: Job, workers: nat, acts: seq<Action>, s: State)
    requires Reached(job, workers, acts, s) && s.main.Returned?
    ensures s.main.err.None? <==> FailureFree(job.f, job.superstep, View(job.verts, job.superstep))
    ensures s.main.err.Some? ==>
              s.main.err.value in job.verts && Fails(job.f, job.superstep, job.verts, s.main.err.value)
    ensures s.errCh.None?
    ensures s.activeInStep == |AwakeIds(View(job.verts, job.superstep))|
    ensures s.verts.Keys == job.verts.Keys && forall u :: u in job.verts ==> NodeAgrees(job, s.verts, u)
  {
    ReachedInv(job, workers, acts, s);
    ReturnedAgrees(job, s);
  }

  lemma ReturnedAgrees(job: Job, s: State)
    requires Inv(job, s) && s.main.Returned?
    ensures s.main.err.None? <==> FailureFree(job.f, job.superstep, View(job.verts, job.superstep))
    ensures s.main.err.Some? ==>
              s.main.err.value in job.verts && Fails(job.f, job.superstep, job.verts, s.main.err.value)
    ensures s.errCh.None?
    ensures s.activeInStep == |AwakeIds(View(job.verts, job.superstep))|
    ensures s.verts.Keys == job.verts.Keys && forall u :: u in job.verts ==> NodeAgrees(job, s.verts, u)
  {
    NobodyBusy(job, s);
    ErrorMeansFailure(job, s);
    CountsAwake(job, s);
    NodesAgree(job, s);
  }

  lemma CountsAwake(job: Job, s: State)
    requires s.done == job.verts.Keys && s.done <= s.started <= job.verts.Keys
    requires s.activeInStep == |s.started * RunningIds(job)|
    ensures s.activeInStep == |AwakeIds(View(job.verts, job.superstep))|
  {
    assert s.started * RunningIds(job) == AwakeIds(View(job.verts, job.superstep));
  }

  lemma SendsComplete(job: Job, s: State)
    requires s.verts.Keys == job.verts.Keys == s.progress.Keys == s.done && s.done <= s.started
    requires VerticesOk(job, s)
    ensures forall v :: v in job.verts && Runs(job.verts[v], job.superstep)
              ==> s.progress[v] == |OutcomeOf(job.f, job.superstep, job.verts, v).sends|
  {
    hide Vertex.Queue, Runs, OutcomeOf;
    forall v | v in job.verts && Runs(job.verts[v], job.superstep)
      ensures s.progress[v] == |OutcomeOf(job.f, job.superstep, job.verts, v).sends|
    {
      assert VertexOk(job, s, v);
    }
  }

  lemma NodesAgree(job: Job, s: State)
    requires s.verts.Keys == job.verts.Keys == s.progress.Keys == s.done && s.done <= s.started
    requires VerticesOk(job, s) && Mailed(job, s)
    ensures forall u :: u in job.verts ==> NodeAgrees(job, s.verts, u)
  {
    hide Mail, Outstanding, View, NodeAgrees, VertexOk, OutcomeOf, Runs, Vertex.Queue;
    SendsComplete(job, s);
    forall u | u in job.verts
      ensures NodeAgrees(job, s.verts, u)
    {
      assert VertexOk(job, s, u) && Conserved(job, s, u);
      NothingOutstanding(job, job.verts.Keys, s.progress, u);
      OutstandingIsMail(job, job.verts.Keys, u);
      FinalNode(job, s, u);
    }
  }

  lemma ErrorMeansFailure(job: Job, s: State)
    requires s.done == job.verts.Keys && Errors(job, s) && s.main.Returned?
    ensures s.main.err.None? <==> FailureFree(job.f, job.superstep, View(job.verts, job.superstep))
    ensures s.main.err.Some? ==>
              s.main.err.value in job.verts && Fails(job.f, job.superstep, job.verts, s.main.err.value)
    ensures s.errCh.None?
  {
    var now := View(job.verts, job.superstep);
    forall id | id in now
      ensures Fails(job.f, job.superstep, job.verts, id)
              <==> Awake(now[id]) && !NodeOutcome(job.f, job.superstep, now, id).failure.NoFailure?
    {
    }
    if s.main.err.Some? { assert s.main.err.value in now; }
  }

  lemma FinalNode(job: Job, s: State, u: VertexId)
    requires u in job.verts && u in s.verts && u in s.progress && u in s.done && u in s.started
    requires VertexOk(job, s, u)
    requires multiset(s.verts[u].Queue(job.superstep + 1))
          == multiset(job.verts[u].Queue(job.superstep + 1))
             + Mail(job.f, job.superstep, View(job.verts, job.superstep), job.verts.Keys, u)
    ensures NodeAgrees(job, s.verts, u)
  {
    hide Mail, View, VertexOk, Vertex.Queue;
    ViewAt(job.verts, job.superstep, u);
    Parity(s.verts[u], job.superstep);
    FinalBody(job, s, u);
    FinalQueue(job, s, u);
  }

  lemma FinalQueue(job: Job, s: State, u: VertexId)
    requires u in job.verts && u in s.verts && u in s.progress && u in s.done && u in s.started
    requires VertexOk(job, s, u)
    ensures !Fails(job.f, job.superstep, job.verts, u) ==> s.verts[u].Queue(job.superstep) == []
  {
    hide Vertex.Queue;
  }

  lemma FinalBody(job: Job, s: State, u: VertexId)
    requires u in job.verts && u in s.verts && u in s.progress && u in s.done && u in s.started
    requires VertexOk(job, s, u)
    ensures var p := PregelNode(job.f, job.superstep, View(job.verts, job.superstep), u);
            s.verts[u].body == p.body && s.verts[u].active == p.active
  {
    hide Mail, View, Vertex.Queue;
    ViewAt(job.verts, job.superstep, u);
    var v := View(job.verts, job.superstep)[u];
    assert |v.inbox| == |job.verts[u].Queue(job.superstep)|;
  }

  lemma ViewAt(verts: Vertices, superstep: int, u: VertexId)
    requires u in verts
    ensures View(verts, superstep)[u] == See(verts[u], superstep)
  {
  }

  /** Confluence: two complete schedules of the same superstep, with any two worker counts, end
      with the same active count, the same verdict and the same nodes; after a failure, the same but
      for what failed vertices left in the queue they read. */
  lemma StepConfluence(job: Job, n: nat, acts: seq<Action>, s: State, n': nat, acts': seq<Action>, s': State)
    requires Reached(job, n, acts, s) && s.main.Returned?
    requires Reached(job, n', acts', s') && s'.main.Returned?
    ensures s.main.err.None? <==> s'.main.err.None?
    ensures s.activeInStep == s'.activeInStep
    ensures s.main.err.None? ==> View(s.verts, job.superstep + 1) == View(s'.verts, job.superstep + 1)
    ensures s.verts.Keys == s'.verts.Keys == job.verts.Keys
    ensures forall u :: u in job.verts ==>
              See(s.verts[u], job.superstep + 1).(outbox := multiset{})
              == See(s'.verts[u], job.superstep + 1).(outbox := multiset{})
  {
    hide NodeAgrees, View, FailureFree, AwakeIds, Reached, Pregel, Fails, See;
    StepAgrees(job, n, acts, s);
    StepAgrees(job, n', acts', s');
    forall u | u in job.verts
      ensures See(s.verts[u], job.superstep + 1).(outbox := multiset{})
           == See(s'.verts[u], job.superstep + 1).(outbox := multiset{})
    {
      BothAgree(job, s.verts, s'.verts, u);
    }
    if s.main.err.None? {
      CleanStep(job, n, acts, s);
      CleanStep(job, n', acts', s');
    }
  }

  lemma BothAgree(job: Job, verts: Vertices, verts': Vertices, u: VertexId)
    requires u in job.verts && u in verts && u in verts'
    requires NodeAgrees(job, verts, u) && NodeAgrees(job, verts', u)
    ensures See(verts[u], job.superstep + 1).(outbox := multiset{}) == See(verts'[u], job.superstep + 1).(outbox := multiset{})
  {
    hide PregelNode, See, View, Fails;
  }

  /** An error-free step is exactly the synchronous superstep. */
  lemma CleanStep(job: Job, workers: nat, acts: seq<Action>, s: State)
    requires Reached(job, workers, acts, s) && s.main == Returned(None)
    ensures View(s.verts, job.superstep + 1) == Pregel(job.f, job.superstep, View(job.verts, job.superstep))
  {
    StepAgrees(job, workers, acts, s);
    AllAgree(job, s);
  }

  lemma AllAgree(job: Job, s: State)
    requires FailureFree(job.f, job.superstep, View(job.verts, job.superstep))
    requires s.verts.Keys == job.verts.Keys && forall u :: u in job.verts ==> NodeAgrees(job, s.verts, u)
    ensures View(s.verts, job.superstep + 1) == Pregel(job.f, job.superstep, View(job.verts, job.superstep))
  {
    forall u | u in job.verts
      ensures See(s.verts[u], job.superstep + 1)
           == PregelNode(job.f, job.superstep, View(job.verts, job.superstep), u)
    {
      assert NodeAgrees(job, s.verts, u);
      CleanNode(job, s, u);
    }
  }

  lemma CleanNode(job: Job, s: State, u: VertexId)
    requires FailureFree(job.f, job.superstep, View(job.verts, job.superstep))
    requires u in s.verts && u in job.verts && NodeAgrees(job, s.verts, u)
    ensures See(s.verts[u], job.superstep + 1)
         == PregelNode(job.f, job.superstep, View(job.verts, job.superstep), u)
  {
    var now := View(job.verts, job.superstep);
    assert Awake(now[u]) ==> NodeOutcome(job.f, job.superstep, now, u).failure.NoFailure?;
  }

  // ----- summary for the engine

  /** What one call of step that starts from `job` may leave behind and report. */
  ghost predicate StepResult(job: Job, verts: Vertices, activeInStep: int, err: Option<VertexId>) {
    var now := View(job.verts, job.superstep);
    && verts.Keys == job.verts.Keys
    && activeInStep == |AwakeIds(now)|
    && (err.None? <==> FailureFree(job.f, job.superstep, now))
    && (err.Some? ==> err.value in job.verts && Fails(job.f, job.superstep, job.verts, err.value))
    && (forall u :: u in verts ==> NodeAgrees(job, verts, u))
    && (forall u :: u in verts ==> verts[u].Queue(job.superstep) <= job.verts[u].Queue(job.superstep))
    && (err.None? ==> View(verts, job.superstep + 1) == Pregel(job.f, job.superstep, now))
  }

  lemma ReturnedResult(job: Job, s: State)
    requires Inv(job, s) && s.main.Returned?
    ensures StepResult(job, s.verts, s.activeInStep, s.main.err)
  {
    hide Inv, NodeAgrees, FailureFree, Pregel, View, AwakeIds, Fails, Vertex.Queue;
    ReturnedAgrees(job, s);
    OnlyLeftovers(job, s);
    if s.main.err.None? { AllAgree(job, s); }
  }

  lemma OnlyLeftovers(job: Job, s: State)
    requires Inv(job, s)
    ensures s.verts.Keys == job.verts.Keys
    ensures forall u :: u in s.verts ==> s.verts[u].Queue(job.superstep) <= job.verts[u].Queue(job.superstep)
  {
    hide Barrier, Mailed, Errors, Vertex.Queue, OutcomeOf, Runs, RunningIds, Carried;
    forall u | u in s.verts ensures s.verts[u].Queue(job.superstep) <= job.verts[u].Queue(job.superstep) {
      assert VertexOk(job, s, u);
    }
  }

  lemma AnyActionDecreases(job: Job, s: State, a: Action)
    requires Inv(job, s) && Enabled(job, s, a)
    ensures Smaller(job, Apply(job, s, a), s)
  {
    StepDecreases(job, s, a);
  }

  lemma WorkersKept(job: Job, s: State, a: Action)
    requires Enabled(job, s, a)
    ensures |Apply(job, s, a).workers| == |s.workers|
  {
  }
}
