/** The graph and its executor: construction, message routing, and runs of supersteps. */
module BspEngine {
  import opened BspModel
  import opened BspStep
  import opened Wrappers
  import opened BspTheorems
  import opened BspRun
  import opened BspMeaning
  import opened Sums

  datatype RelayResult = Relayed | DestinationIsLocal | RelayFailed

  datatype SendResult = Queued | HandedOver | InvalidDestination | RelayError

  /** `edges` as the sends that broadcasting `msg` performs. */
  function EdgeSends(edges: seq<Edge>, msg: Msg): (sends: seq<Send>)
    ensures |sends| == |edges|
  {
    seq(|edges|, i requires 0 <= i < |edges| => Send(edges[i].dst, msg))
  }

  lemma EdgeSendsAt(edges: seq<Edge>, msg: Msg, i: nat)
    requires i < |edges|
    ensures |EdgeSends(edges, msg)| == |edges| && EdgeSends(edges, msg)[i] == Send(edges[i].dst, msg)
  {
  }

  function EnqueueAll(verts: Vertices, superstep: int, sends: seq<Send>): (r: Vertices)
    ensures r.Keys == verts.Keys
    decreases |sends|
  {
    if sends == [] then verts
    else Enqueue(EnqueueAll(verts, superstep, sends[..|sends| - 1]), superstep, sends[|sends| - 1])
  }

  /** The sends that leave the graph, in order. */
  function Remote(local: set<VertexId>, sends: seq<Send>): seq<Send> {
    if sends == [] then []
    else Remote(local, sends[..|sends| - 1]) + if sends[|sends| - 1].dst in local then [] else [sends[|sends| - 1]]
  }

  lemma SendsNone(verts: Vertices, superstep: int)
    ensures EnqueueAll(verts, superstep, []) == verts && Remote(verts.Keys, []) == []
  {
  }

  lemma EnqueueAllNext(verts: Vertices, superstep: int, sends: seq<Send>, s: Send)
    ensures EnqueueAll(verts, superstep, sends + [s]) == Enqueue(EnqueueAll(verts, superstep, sends), superstep, s)
  {
    assert (sends + [s])[..|sends|] == sends;
  }

  lemma EnqueueAllOutboxes(verts: Vertices, superstep: int, sends: seq<Send>)
    ensures forall u :: u in verts ==>
              var now := See(verts[u], superstep);
              See(EnqueueAll(verts, superstep, sends)[u], superstep)
              == now.(outbox := now.outbox + MessagesTo(sends, 0, u, superstep))
  {
    hide EnqueueAll, See, MessagesTo;
    forall u | u in verts
      ensures var now := See(verts[u], superstep);
              See(EnqueueAll(verts, superstep, sends)[u], superstep)
              == now.(outbox := now.outbox + MessagesTo(sends, 0, u, superstep))
    {
      EnqueueAllOutbox(verts, superstep, sends, u);
    }
  }

  lemma RemoteNext(local: set<VertexId>, sends: seq<Send>, s: Send)
    ensures Remote(local, sends + [s]) == Remote(local, sends) + if s.dst in local then [] else [s]
  {
    assert (sends + [s])[..|sends|] == sends;
  }

  /** Sends add to each outbox exactly the messages addressed to it, and touch nothing else. */
  lemma {:induction false} EnqueueAllOutbox(verts: Vertices, superstep: int, sends: seq<Send>, u: VertexId)
    requires u in verts
    ensures var now, next := See(verts[u], superstep), See(EnqueueAll(verts, superstep, sends)[u], superstep);
            next == now.(outbox := now.outbox + MessagesTo(sends, 0, u, superstep))
    decreases |sends|
  {
    hide Enqueue, Vertex.Queue;
    if sends == [] {
    } else {
      var n := |sends| - 1;
      EnqueueAllOutbox(verts, superstep, sends[..n], u);
      MessagesToLast(sends, 0, u, superstep);
      EnqueueOutbox(EnqueueAll(verts, superstep, sends[..n]), superstep, sends[n], u);
      LastMessage(sends, u, superstep);
    }
  }

  lemma LastMessage(sends: seq<Send>, u: VertexId, superstep: int)
    requires sends != []
    ensures MessagesTo(sends, |sends| - 1, u, superstep)
         == (if sends[|sends| - 1].dst == u then multiset{Envelope(sends[|sends| - 1].msg, superstep)} else multiset{})
  {
  }

  lemma EnqueueOutbox(verts: Vertices, superstep: int, snd: Send, u: VertexId)
    requires u in verts
    ensures var now, next := See(verts[u], superstep), See(Enqueue(verts, superstep, snd)[u], superstep);
            next == now.(outbox := now.outbox + if snd.dst == u then multiset{Envelope(snd.msg, superstep)} else multiset{})
  {
  }

  lemma {:induction false} MessagesToLast(sends: seq<Send>, k: nat, u: VertexId, superstep: int)
    requires k < |sends|
    ensures MessagesTo(sends, k, u, superstep)
         == MessagesTo(sends[..|sends| - 1], k, u, superstep) + MessagesTo(sends, |sends| - 1, u, superstep)
    decreases |sends| - k
  {
    var n := |sends| - 1;
    if k < n { MessagesToLast(sends, k + 1, u, superstep); }
  }

  /** A vertex gets the message once for each attempted edge that leads to it. */
  lemma BroadcastCounted(verts: Vertices, superstep: int, edges: seq<Edge>, msg: Msg, n: nat, u: VertexId)
    requires n <= |edges| && u in verts
    ensures multiset(EnqueueAll(verts, superstep, EdgeSends(edges, msg)[..n])[u].Queue(superstep + 1))[Envelope(msg, superstep)]
         == multiset(verts[u].Queue(superstep + 1))[Envelope(msg, superstep)] + |set i: nat | i < n && edges[i].dst == u|
  {
    hide EnqueueAll, MessagesTo, Vertex.Queue;
    var sends := EdgeSends(edges, msg)[..n];
    EnqueueAllOutbox(verts, superstep, sends, u);
    SeeBoxes(verts[u], superstep);
    SeeBoxes(EnqueueAll(verts, superstep, sends)[u], superstep);
    MessagesCounted(sends, 0, u, superstep, msg);
    assert Positions(sends, 0, u, msg) == set i: nat | i < n && edges[i].dst == u;
  }

  lemma EnqueueAges(verts: Vertices, superstep: int, s: Send)
    requires Generations(verts, superstep)
    ensures Generations(Enqueue(verts, superstep, s), superstep)
  {
  }

  class Graph {
    var superstep: int
    var vertices: Vertices
    var relayer: Option<(VertexId, Msg) -> RelayResult>
    var relayed: seq<Send>  // what the relayer has been asked to relay
    var aggregators: map<string, Aggregator>
    const computeFn: ComputeFn
    const workers: nat

    /** The two generations of messages are in separate queues. */
    ghost predicate Aged()
      reads this
    {
      Generations(vertices, superstep)
    }

    /** A worker count that is not positive means one worker. */
    constructor (computeFn: ComputeFn, computeWorkers: int)
      ensures superstep == 0 && vertices == map[] && aggregators == map[] && relayer == None && relayed == []
      ensures this.computeFn == computeFn && workers > 0 && (computeWorkers > 0 ==> workers == computeWorkers)
      ensures Aged()
    {
      this.superstep := 0;
      this.vertices := map[];
      this.aggregators := map[];
      this.relayer := None;
      this.relayed := [];
      this.computeFn := computeFn;
      this.workers := if computeWorkers <= 0 then 1 else computeWorkers;
    }

    method Reset()
      modifies this`superstep, this`vertices, this`aggregators
      ensures superstep == 0 && vertices == map[] && aggregators == map[] && Aged()
    {
      superstep := 0;
      vertices := map[];
      aggregators := map[];
    }

    /** A new vertex is active, has no edges and empty queues; an existing one only changes value. */
    method AddVertex(id: VertexId, initValue: Value)
      modifies this`vertices
      ensures vertices.Keys == old(vertices.Keys) + {id} && vertices[id].body.value == initValue
      ensures forall u :: u in old(vertices) && u != id ==> vertices[u] == old(vertices)[u]
      ensures id in old(vertices) ==>
                vertices[id] == old(vertices)[id].(body := old(vertices)[id].body.(value := initValue))
      ensures id !in old(vertices) ==>
                vertices[id].active && vertices[id].body.edges == [] && vertices[id].even == vertices[id].odd == []
      ensures old(Aged()) ==> Aged()
    {
      if id !in vertices {
        vertices := vertices[id := Vertex(Body(initValue, []), true, [], [])];
      }
      vertices := vertices[id := vertices[id].(body := vertices[id].body.(value := initValue))];
    }

    /** Edges are owned by their source, so only the source must be local. */
    method AddEdge(src: VertexId, dst: VertexId, initValue: Value) returns (known: bool)
      modifies this`vertices
      ensures known <==> src in old(vertices)
      ensures !known ==> vertices == old(vertices)
      ensures known ==> vertices.Keys == old(vertices.Keys)
                        && vertices[src].body.edges == old(vertices)[src].body.edges + [Edge(dst, initValue)]
                        && (forall u :: u in vertices && u != src ==> vertices[u] == old(vertices)[u])
                        && vertices[src].(body := vertices[src].body.(edges := old(vertices)[src].body.edges)) == old(vertices)[src]
      ensures old(Aged()) ==> Aged()
    {
      if src !in vertices { return false; }
      var v := vertices[src];
      vertices := vertices[src := v.(body := v.body.(edges := v.body.edges + [Edge(dst, initValue)]))];
      return true;
    }

    method RegisterAggregator(name: string, aggr: Aggregator)
      modifies this`aggregators
      ensures aggregators == old(aggregators)[name := aggr]
    {
      aggregators := aggregators[name := aggr];
    }

    /** A send that reaches no local vertex: the relayer decides, if there is one. */
    ghost predicate Deliverable(dst: VertexId, msg: Msg)
      reads this
    {
      dst in vertices || (relayer.Some? && relayer.value(dst, msg) == Relayed)
    }

    /** Local destinations are queued for the next superstep. Others go to the relayer; without one,
        or when it says that the destination is local, the destination is invalid. */
    method SendMessage(dst: VertexId, msg: Msg) returns (r: SendResult)
      modifies this`vertices, this`relayed
      ensures vertices == Enqueue(old(vertices), superstep, Send(dst, msg))
      ensures dst in old(vertices) ==>
                && vertices.Keys == old(vertices.Keys)
                && (forall u :: u in vertices && u != dst ==> vertices[u] == old(vertices)[u])
                && vertices[dst].body == old(vertices)[dst].body && vertices[dst].active == old(vertices)[dst].active
                && vertices[dst].Queue(superstep) == old(vertices)[dst].Queue(superstep)
                && vertices[dst].Queue(superstep + 1) == old(vertices)[dst].Queue(superstep + 1) + [Envelope(msg, superstep)]
      ensures dst !in old(vertices) ==> vertices == old(vertices)
      ensures r.Queued? <==> dst in vertices
      ensures r.Queued? || r.HandedOver? <==> old(Deliverable(dst, msg))
      ensures r.InvalidDestination? <==>
                dst !in vertices && (relayer.None? || relayer.value(dst, msg) == DestinationIsLocal)
      ensures relayed == old(relayed) + if dst !in vertices && relayer.Some? then [Send(dst, msg)] else []
      ensures old(Aged()) ==> Aged()
    {
      if Aged() { EnqueueAges(vertices, superstep, Send(dst, msg)); }
      hide Generations;
      if dst in vertices {
        var v := vertices[dst];
        vertices := vertices[dst := v.WithQueue(superstep + 1, v.Queue(superstep + 1) + [Envelope(msg, superstep)])];
        return Queued;
      }
      if relayer.Some? {
        relayed := relayed + [Send(dst, msg)];
        var answer := relayer.value(dst, msg);
        if answer == Relayed { return HandedOver; }
        if answer == RelayFailed { return RelayError; }
      }
      return InvalidDestination;
    }

    /** Sends to the neighbours in order and stops at the first one that cannot be delivered to.
        Every outbox grows by exactly the copies addressed to it among the attempted sends. */
    method BroadcastToNeighbors(v: Vertex, msg: Msg) returns (ok: bool, attempted: nat)
      modifies this`vertices, this`relayed
      ensures attempted <= |v.body.edges|
      ensures forall i :: 0 <= i < attempted - 1 ==> old(Deliverable(v.body.edges[i].dst, msg))
      ensures ok ==> attempted == |v.body.edges| && forall e :: e in v.body.edges ==> old(Deliverable(e.dst, msg))
      ensures !ok ==> attempted > 0 && !old(Deliverable(v.body.edges[attempted - 1].dst, msg))
      ensures vertices == EnqueueAll(old(vertices), superstep, EdgeSends(v.body.edges, msg)[..attempted])
      ensures relayed == old(relayed) + if relayer.None? then [] else Remote(vertices.Keys, EdgeSends(v.body.edges, msg)[..attempted])
      ensures vertices.Keys == old(vertices.Keys) && forall u :: u in vertices ==>
                var now := See(old(vertices)[u], superstep);
                See(vertices[u], superstep) == now.(outbox :=
                  now.outbox + MessagesTo(EdgeSends(v.body.edges, msg)[..attempted], 0, u, superstep))
      ensures forall u :: u in vertices ==>
                multiset(vertices[u].Queue(superstep + 1))[Envelope(msg, superstep)]
                == multiset(old(vertices)[u].Queue(superstep + 1))[Envelope(msg, superstep)]
                 + |set i: nat | i < attempted && v.body.edges[i].dst == u|
      ensures old(Aged()) ==> Aged()
    {
      hide Aged, Enqueue, EnqueueAll, See, MessagesTo, Vertex.Queue, Remote, EdgeSends;
      SendsNone(vertices, superstep);
      ghost var sends := EdgeSends(v.body.edges, msg);
      ok, attempted := true, 0;
      while ok && attempted < |v.body.edges|
        invariant attempted <= |v.body.edges|
        invariant relayer == old(relayer) && vertices.Keys == old(vertices.Keys) && (old(Aged()) ==> Aged())
        invariant forall i :: 0 <= i < attempted - 1 ==> old(Deliverable(v.body.edges[i].dst, msg))
        invariant ok ==> forall i :: 0 <= i < attempted ==> old(Deliverable(v.body.edges[i].dst, msg))
        invariant !ok ==> attempted > 0 && !old(Deliverable(v.body.edges[attempted - 1].dst, msg))
        invariant vertices == EnqueueAll(old(vertices), superstep, sends[..attempted])
        invariant relayed == old(relayed) + if relayer.None? then [] else Remote(vertices.Keys, sends[..attempted])
        decreases ok, |v.body.edges| - attempted
      {
        EdgeSendsAt(v.body.edges, msg, attempted);
        var r := SendMessage(v.body.edges[attempted].dst, msg);
        assert sends[..attempted + 1] == sends[..attempted] + [sends[attempted]];
        EnqueueAllNext(old(vertices), superstep, sends[..attempted], sends[attempted]);
        RemoteNext(vertices.Keys, sends[..attempted], sends[attempted]);
        ok := r.Queued? || r.HandedOver?;
        attempted := attempted + 1;
      }
      EnqueueAllOutboxes(old(vertices), superstep, sends[..attempted]);
      forall u | u in vertices
        ensures multiset(vertices[u].Queue(superstep + 1))[Envelope(msg, superstep)]
             == multiset(old(vertices)[u].Queue(superstep + 1))[Envelope(msg, superstep)]
              + |set i: nat | i < attempted && v.body.edges[i].dst == u|
      {
        BroadcastCounted(old(vertices), superstep, v.body.edges, msg, attempted, u);
      }
    }

    ghost function Nodes(): Nodes
      reads this
    {
      View(vertices, superstep)
    }

    /** One superstep. A vertex that is active or has messages is computed on all of them and ends with
        the body and flag its compute function leaves, any other keeps its own; both have read their
        messages unless the computation failed. A message waits for its receiver once for each send of
        it by a computed vertex. The number of computed vertices is reported, and an error exactly if
        one of them failed. The loop picks any enabled action of any goroutine, so its termination and
        its postcondition hold for every interleaving. */
    method Step() returns (activeInStep: int, err: Option<VertexId>)
      requires workers > 0
      modifies this`vertices
      ensures StepResult(Job(computeFn, superstep, old(vertices)), vertices, activeInStep, err)
      ensures vertices.Keys == old(vertices.Keys)
      ensures forall u :: u in old(vertices) ==>
                var v := old(vertices)[u];
                var out := computeFn(u, v.body, multiset(v.Queue(superstep)), superstep);
                if v.active || |v.Queue(superstep)| > 0 then
                  && vertices[u].body == out.body && vertices[u].active == out.active
                  && (!out.failure.ComputeFails? && !out.failure.DiscardFails? ==> vertices[u].Queue(superstep) == [])
                else vertices[u].body == v.body && vertices[u].active == v.active && vertices[u].Queue(superstep) == []
      ensures forall u, m :: u in old(vertices) ==>
                multiset(vertices[u].Queue(superstep + 1))[Envelope(m, superstep)]
                == multiset(old(vertices)[u].Queue(superstep + 1))[Envelope(m, superstep)]
                 + |Deliveries(Job(computeFn, superstep, old(vertices)), u, m)|
      ensures activeInStep == |set u | u in old(vertices) && (old(vertices)[u].active || |old(vertices)[u].Queue(superstep)| > 0)|
      ensures err.None? <==>
                forall u :: u in old(vertices) && (old(vertices)[u].active || |old(vertices)[u].Queue(superstep)| > 0) ==>
                  var out := computeFn(u, old(vertices)[u].body, multiset(old(vertices)[u].Queue(superstep)), superstep);
                  !out.failure.ComputeFails? && !out.failure.DiscardFails?
      ensures old(Aged()) ==> Aged() && (err.None? ==> Generations(vertices, superstep + 1))
    {
      hide StepResult, Generations, Vertex.Queue, Deliveries;
      var job := Job(computeFn, superstep, vertices);
      var s := AnySchedule(job, workers);
      StepSpelled(job, s.verts, s.activeInStep, s.main.err);
      if Aged() { StepGenerations(job, s.verts, s.activeInStep, s.main.err); }
      vertices := s.verts;
      return s.activeInStep, s.main.err;
    }
  }

  /** Let the goroutines run, in any order, until the caller returns. */
  method AnySchedule(job: Job, workers: nat) returns (s: State)
    requires workers > 0
    ensures s.main.Returned? && StepResult(job, s.verts, s.activeInStep, s.main.err)
  {
    hide Inv, StepResult;
    s := Initial(job, workers);
    InitialInv(job, workers);
    while !s.main.Returned?
      invariant Inv(job, s) && |s.workers| > 0
      decreases |Todo(s.main)|, |HoldingWorkers(s.workers)|, Sum(Work(job, s)), Phase(s.main)
    {
      s := AnyAction(job, s);
    }
    ReturnedResult(job, s);
  }

  /** Perform some enabled action of some goroutine. */
  method AnyAction(job: Job, s: State) returns (t: State)
    requires Inv(job, s) && |s.workers| > 0 && !s.main.Returned?
    ensures Inv(job, t) && |t.workers| == |s.workers| && Smaller(job, t, s)
    ensures exists a :: Enabled(job, s, a) && t == Apply(job, s, a)
  {
    ghost var possible := StepProgress(job, s);
    ActionsComplete(job, s, possible);
    var a: Action :| a in Actions(s) && Enabled(job, s, a);
    t := Apply(job, s, a);
    InvKept(job, s, a);
    AnyActionDecreases(job, s, a);
    WorkersKept(job, s, a);
  }

  /** What the callbacks and the context answer in one iteration of a run. */
  datatype Answers = Answers(expired: bool, preStepFails: bool, postStepFails: bool, keepFails: bool, keepRunning: bool)

  predicate Breaks(a: Answers) {
    a.expired || a.preStepFails || a.postStepFails || a.keepFails || !a.keepRunning
  }

  /** Iteration `k` does not go all the way. */
  ghost predicate Ends(a: Answers, f: ComputeFn, start: int, nodes: Nodes, k: nat) {
    Breaks(a) || !CleanAt(f, start, nodes, k)
  }

  /** Why a run ended. The run reports an error unless it is `StepsDone` or `Stopped`. */
  datatype Stop =
    | StepsDone | ContextExpired | PreStepFailed | StepFailed(v: VertexId)
    | PostStepFailed | KeepRunningFailed | Stopped

  /** Whether an iteration with these answers ends a run for this reason, `clean` being whether its
      superstep meets no failure: the answers in the order in which the run asks for them. */
  predicate EndsFor(a: Answers, clean: bool, stop: Stop) {
    match stop
    case StepsDone => false
    case ContextExpired => a.expired
    case PreStepFailed => !a.expired && a.preStepFails
    case StepFailed(_) => !a.expired && !a.preStepFails && !clean
    case PostStepFailed => !a.expired && !a.preStepFails && clean && a.postStepFails
    case KeepRunningFailed => !a.expired && !a.preStepFails && clean && !a.postStepFails && a.keepFails
    case Stopped => !a.expired && !a.preStepFails && clean && !a.postStepFails && !a.keepFails && !a.keepRunning
  }

  /** `completed` error-free supersteps lead to `before`, and the next one failed at `v` with `verts`. */
  ghost predicate FailedFrom(f: ComputeFn, start: int, verts0: Vertices, completed: nat,
                             before: Vertices, active: int, verts: Vertices, v: VertexId)
  {
    Progressed(f, start, verts0, completed, before) && StepResult(Job(f, start + completed, before), verts, active, Some(v))
  }

  ghost predicate FailedAt(f: ComputeFn, start: int, verts0: Vertices, completed: nat, verts: Vertices, v: VertexId) {
    exists before, active :: FailedFrom(f, start, verts0, completed, before, active, verts, v)
  }

  /** How a run that started at superstep `start` with `verts0` may end: `completed` counts the
      iterations that went all the way, by which the superstep number advances. All of them were
      free of errors. An iteration that breaks off after its superstep ran has changed the vertices
      without advancing the number. */
  ghost predicate RunResult(f: ComputeFn, start: int, verts0: Vertices, maxSteps: int, answers: nat -> Answers,
                            completed: nat, verts: Vertices, stop: Stop)
  {
    && (maxSteps >= 0 ==> completed <= maxSteps)
    && (stop.StepsDone? <==> completed == maxSteps)
    && (forall k: nat :: k < completed ==> !Breaks(answers(k)))
    && RunFailureFree(f, start, View(verts0, start), completed)
    && (stop.StepsDone? || stop.ContextExpired? || stop.PreStepFailed? ==>
          Progressed(f, start, verts0, completed, verts))
    && (stop.PostStepFailed? || stop.KeepRunningFailed? || stop.Stopped? ==>
          Progressed(f, start, verts0, completed + 1, verts))
    && (stop.StepFailed? ==> FailedAt(f, start, verts0, completed, verts, stop.v))
    && (completed != maxSteps ==> EndsFor(answers(completed), CleanAt(f, start, View(verts0, start), completed), stop))
  }

  class Executor {
    const g: Graph

    constructor (g: Graph)
      modifies g`superstep
      ensures this.g == g && g.superstep == 0
      ensures old(g.superstep == 0 && g.Aged()) ==> g.Aged()
    {
      this.g := g;
      new;
      g.superstep := 0;
    }

    /** Runs at most `maxSteps` supersteps. A run without bound (`maxSteps` negative) is one that an
        answer or a failing superstep ends at some point. */
    method Run(maxSteps: int, answers: nat -> Answers) returns (stop: Stop)
      requires g.workers > 0
      requires maxSteps < 0 ==> exists k: nat :: Ends(answers(k), g.computeFn, g.superstep, g.Nodes(), k)
      modifies g`superstep, g`vertices
      ensures g.superstep >= old(g.superstep)
      ensures RunResult(g.computeFn, old(g.superstep), old(g.vertices), maxSteps, answers,
                        g.superstep - old(g.superstep), g.vertices, stop)
      ensures old(g.Aged()) ==> g.Aged()
    {
      hide Vertex.Queue, Generations, Progressed, StepResult, CleanAt, RunFailureFree, View, FailedAt;
      ghost var f, start, verts0 := g.computeFn, g.superstep, g.vertices;
      ghost var last: int := maxSteps;
      if maxSteps < 0 {
        ghost var k: nat :| Ends(answers(k), f, start, View(verts0, start), k);
        last := k;
      }
      var left, i := maxSteps, 0;
      ProgressStart(f, start, verts0);
      while left != 0
        invariant 0 <= i <= last && i == g.superstep - start && left == maxSteps - i
        invariant maxSteps < 0 ==> last >= 0 && Ends(answers(last), f, start, View(verts0, start), last)
        invariant forall k: nat :: k < i ==> !Breaks(answers(k))
        invariant Progressed(f, start, verts0, i, g.vertices) && (old(g.Aged()) ==> g.Aged())
        decreases last - i
      {
        ProgressClean(f, start, verts0, i, g.vertices);
        var end := Iteration(answers(i), start, verts0, i);
        if end.Some? { return end.value; }
        g.superstep := g.superstep + 1;
        left, i := left - 1, i + 1;
      }
      ProgressClean(f, start, verts0, i, g.vertices);
      return StepsDone;
    }

    /** One iteration: why it ends the run, or nothing if it goes all the way. */
    method Iteration(now: Answers, ghost start: int, ghost verts0: Vertices, ghost i: nat) returns (end: Option<Stop>)
      requires g.workers > 0 && g.superstep == start + i && Progressed(g.computeFn, start, verts0, i, g.vertices)
      modifies g`vertices
      ensures end.None? ==> !Ends(now, g.computeFn, start, View(verts0, start), i)
      ensures end.None? ==> Progressed(g.computeFn, start, verts0, i + 1, g.vertices)
      ensures end.Some? ==> EndsFor(now, CleanAt(g.computeFn, start, View(verts0, start), i), end.value)
      ensures end.Some? ==>
                match end.value
                case StepFailed(v) => FailedAt(g.computeFn, start, verts0, i, g.vertices, v)
                case ContextExpired => Progressed(g.computeFn, start, verts0, i, g.vertices)
                case PreStepFailed => Progressed(g.computeFn, start, verts0, i, g.vertices)
                case _ => Progressed(g.computeFn, start, verts0, i + 1, g.vertices)
      ensures old(g.Aged()) ==> g.Aged() && (end.None? ==> Generations(g.vertices, g.superstep + 1))
    {
      hide Vertex.Queue, Generations, Progressed, StepResult, CleanAt, View;
      if now.expired { return Some(ContextExpired); }
      if now.preStepFails { return Some(PreStepFailed); }
      ghost var before := g.vertices;
      var activeInStep, err := g.Step();
      ProgressStep(g.computeFn, start, verts0, i, before, g.vertices, activeInStep, err);
      if err.Some? {
        assert FailedFrom(g.computeFn, start, verts0, i, before, activeInStep, g.vertices, err.value);
        return Some(StepFailed(err.value));
      }
      if now.postStepFails { return Some(PostStepFailed); }
      if now.keepFails { return Some(KeepRunningFailed); }
      if !now.keepRunning { return Some(Stopped); }
      return None;
    }
  }
}
