/** Whole runs: how messages age, when a computation is over, and how runs compose. */
module BspRun {
  import opened BspModel
  import opened BspStep
  import opened Wrappers
  import opened BspTheorems

  /** Inboxes hold only messages of the previous superstep, outboxes only messages sent since. */
  ghost predicate Ages(nodes: Nodes, superstep: int) {
    && (forall u, m :: u in nodes && m in nodes[u].inbox ==> m.sentIn == superstep - 1)
    && (forall u, m :: u in nodes && m in nodes[u].outbox ==> m.sentIn == superstep)
  }

  lemma {:induction false} MailTagged(f: ComputeFn, superstep: int, nodes: Nodes, from: set<VertexId>, u: VertexId)
    requires from <= nodes.Keys
    ensures forall m :: m in Mail(f, superstep, nodes, from, u) ==> m.sentIn == superstep
    decreases |from|
  {
    if from != {} {
      var id :| id in from;
      MailSplit(f, superstep, nodes, from, id, u);
      MailTagged(f, superstep, nodes, from - {id}, u);
      MessagesToTagged(NodeOutcome(f, superstep, nodes, id).sends, 0, u, superstep);
    }
  }

  lemma AgesKept(f: ComputeFn, superstep: int, nodes: Nodes)
    requires Ages(nodes, superstep)
    ensures Ages(Pregel(f, superstep, nodes), superstep + 1)
    ensures forall u :: u in nodes ==> Pregel(f, superstep, nodes)[u].outbox == multiset{}
  {
    forall u | u in nodes
      ensures forall m :: m in PregelNode(f, superstep, nodes, u).inbox ==> m.sentIn == superstep
    {
      MailTagged(f, superstep, nodes, nodes.Keys, u);
    }
  }

  /** In every run the two generations stay apart, however many supersteps it takes. */
  lemma {:induction false} RunAges(f: ComputeFn, superstep: int, nodes: Nodes, count: nat)
    requires Ages(nodes, superstep)
    ensures Ages(PregelRun(f, superstep, nodes, count), superstep + count)
    decreases count
  {
    if count > 0 {
      AgesKept(f, superstep, nodes);
      RunAges(f, superstep + 1, Pregel(f, superstep, nodes), count - 1);
      PregelRunFirst(f, superstep, nodes, count);
    }
  }

  lemma {:induction false} SentInMessages(sends: seq<Send>, k: nat, i: nat, superstep: int)
    requires k <= i < |sends|
    ensures Envelope(sends[i].msg, superstep) in MessagesTo(sends, k, sends[i].dst, superstep)
    decreases |sends| - k
  {
    if k < i { SentInMessages(sends, k + 1, i, superstep); }
  }

  /** A message between local vertices is in its receiver's inbox in the next superstep and wakes
      the receiver; one superstep later it is gone from every inbox and outbox. */
  lemma MessageLifetime(f: ComputeFn, superstep: int, nodes: Nodes, v: VertexId, i: nat)
    requires Ages(nodes, superstep) && v in nodes && Awake(nodes[v])
    requires i < |NodeOutcome(f, superstep, nodes, v).sends|
    requires NodeOutcome(f, superstep, nodes, v).sends[i].dst in nodes
    ensures var snd := NodeOutcome(f, superstep, nodes, v).sends[i];
            var next := Pregel(f, superstep, nodes);
            Envelope(snd.msg, superstep) in next[snd.dst].inbox && Awake(next[snd.dst])
    ensures var later := PregelRun(f, superstep, nodes, 2);
            forall u, m :: u in later && (m in later[u].inbox || m in later[u].outbox) ==> m.sentIn > superstep
  {
    var snd := NodeOutcome(f, superstep, nodes, v).sends[i];
    SentInMessages(NodeOutcome(f, superstep, nodes, v).sends, 0, i, superstep);
    MailSplit(f, superstep, nodes, nodes.Keys, v, snd.dst);
    RunAges(f, superstep, nodes, 2);
  }

  /** The same over schedules. Let one step return without error and the next one run under any
      schedule: a vertex that has not been started yet holds exactly what was addressed to it
      (before the step or during it), that is what its compute function is given, and it is
      computed if that is anything at all. */
  lemma ExactlyOnce(job: Job, n: nat, acts: seq<Action>, s: State, n': nat, acts': seq<Action>, s': State, u: VertexId)
    requires Generations(job.verts, job.superstep)
    requires Reached(job, n, acts, s) && s.main == Returned(None) && u in job.verts
    requires Reached(Job(job.f, job.superstep + 1, s.verts), n', acts', s')
    ensures Generations(s.verts, job.superstep + 1) && u in s.verts && u in s'.verts
    ensures multiset(s.verts[u].Queue(job.superstep + 1)) == Addressed(job, u)
    ensures u !in s'.started ==> multiset(s'.verts[u].Queue(job.superstep + 1)) == Addressed(job, u)
    ensures Addressed(job, u) != multiset{} ==> Runs(s.verts[u], job.superstep + 1)
    ensures forall w :: 0 <= w < |s'.workers| && s'.workers[w].Computing? && s'.workers[w].v == u ==>
              s'.workers[w].outcome == job.f(u, s.verts[u].body, Addressed(job, u), job.superstep + 1)
  {
    var job' := Job(job.f, job.superstep + 1, s.verts);
    NextGenerations(job, n, acts, s);
    NextInbox(job, n, acts, s, u);
    Isolation(job', n', acts', s', u);
    GivenOutcome(job', n', acts', s', u);
  }

  /** What is addressed to `u` for the next superstep, before the step or during it. */
  ghost function Addressed(job: Job, u: VertexId): multiset<Envelope>
    requires u in job.verts
  {
    multiset(job.verts[u].Queue(job.superstep + 1))
    + Mail(job.f, job.superstep, View(job.verts, job.superstep), job.verts.Keys, u)
  }

  lemma NextInbox(job: Job, n: nat, acts: seq<Action>, s: State, u: VertexId)
    requires Reached(job, n, acts, s) && s.main == Returned(None) && u in job.verts
    ensures u in s.verts && multiset(s.verts[u].Queue(job.superstep + 1)) == Addressed(job, u)
    ensures multiset(s.verts[u].Queue(job.superstep + 2)) == multiset{}
  {
    StepAgrees(job, n, acts, s);
    CleanNode(job, s, u);
    InboxOf(job, See(s.verts[u], job.superstep + 1), u);
    SeeBoxes(s.verts[u], job.superstep + 1);
  }

  lemma InboxOf(job: Job, next: Node, u: VertexId)
    requires u in job.verts
    requires next == PregelNode(job.f, job.superstep, View(job.verts, job.superstep), u)
    ensures next.inbox == Addressed(job, u) && next.outbox == multiset{}
  {
    hide View, Mail, PregelNode, See, Vertex.Queue;
    PregelInbox(job.f, job.superstep, View(job.verts, job.superstep), u);
    SeeBoxes(job.verts[u], job.superstep);
    ViewAt(job.verts, job.superstep, u);
  }

  lemma SeeBoxes(v: Vertex, superstep: int)
    ensures See(v, superstep).inbox == multiset(v.Queue(superstep))
    ensures See(v, superstep).outbox == multiset(v.Queue(superstep + 1))
  {
  }

  lemma PregelInbox(f: ComputeFn, superstep: int, nodes: Nodes, u: VertexId)
    requires u in nodes
    ensures PregelNode(f, superstep, nodes, u).inbox == nodes[u].outbox + Mail(f, superstep, nodes, nodes.Keys, u)
    ensures PregelNode(f, superstep, nodes, u).outbox == multiset{}
  {
  }

  lemma GivenOutcome(job: Job, n: nat, acts: seq<Action>, s: State, u: VertexId)
    requires Reached(job, n, acts, s) && u in job.verts
    ensures forall w :: 0 <= w < |s.workers| && s.workers[w].Computing? && s.workers[w].v == u ==>
              s.workers[w].outcome == OutcomeOf(job.f, job.superstep, job.verts, u)
  {
    hide VerticesOk, Mailed, Errors, Barrier, Reached, Carried, OutcomeOf, Runs, RunningIds;
    ReachedInv(job, n, acts, s);
    forall w | 0 <= w < |s.workers| && s.workers[w].Computing? && s.workers[w].v == u
      ensures s.workers[w].outcome == OutcomeOf(job.f, job.superstep, job.verts, u)
    {
      assert WorkerOk(job, s, s.workers[w]);
    }
  }

  lemma NextGenerations(job: Job, n: nat, acts: seq<Action>, s: State)
    requires Generations(job.verts, job.superstep)
    requires Reached(job, n, acts, s) && s.main == Returned(None)
    ensures Generations(s.verts, job.superstep + 1)
  {
    ReachedInv(job, n, acts, s);
    forall u | u in s.verts
      ensures Tagged(s.verts[u].Queue(job.superstep + 1), job.superstep)
           && Tagged(s.verts[u].Queue(job.superstep + 1 + 1), job.superstep + 1)
    {
      Isolation(job, n, acts, s, u);
      NextInbox(job, n, acts, s, u);
      assert |s.verts[u].Queue(job.superstep + 2)| == |multiset(s.verts[u].Queue(job.superstep + 2))|;
    }
  }

  /** Whatever a step leaves keeps the generations apart; after a clean one the next superstep can
      be numbered. */
  lemma StepGenerations(job: Job, verts: Vertices, active: int, err: Option<VertexId>)
    requires Generations(job.verts, job.superstep) && StepResult(job, verts, active, err)
    ensures Generations(verts, job.superstep)
    ensures err.None? ==> Generations(verts, job.superstep + 1)
  {
    hide Pregel, View, FailureFree, AwakeIds, Fails, NodeAgrees, Vertex.Queue, Tagged;
    forall u | u in verts
      ensures Tagged(verts[u].Queue(job.superstep), job.superstep - 1) && Tagged(verts[u].Queue(job.superstep + 1), job.superstep)
      ensures err.None? ==> Tagged(verts[u].Queue(job.superstep + 2), job.superstep + 1)
    {
      if err.None? { NoFailure(job, u); }
      StepTags(job, verts, err, u);
    }
    forall u | u in verts && err.None?
      ensures Tagged(verts[u].Queue(job.superstep + 1 + 1), job.superstep + 1)
    {
      assert job.superstep + 1 + 1 == job.superstep + 2;
    }
  }

  lemma NoFailure(job: Job, u: VertexId)
    requires u in job.verts && FailureFree(job.f, job.superstep, View(job.verts, job.superstep))
    ensures !Fails(job.f, job.superstep, job.verts, u)
  {
    var v := View(job.verts, job.superstep)[u];
    assert |v.inbox| == |job.verts[u].Queue(job.superstep)|;
  }

  lemma StepTags(job: Job, verts: Vertices, err: Option<VertexId>, u: VertexId)
    requires u in job.verts && u in verts && NodeAgrees(job, verts, u)
    requires Tagged(job.verts[u].Queue(job.superstep), job.superstep - 1)
    requires Tagged(job.verts[u].Queue(job.superstep + 1), job.superstep)
    requires verts[u].Queue(job.superstep) <= job.verts[u].Queue(job.superstep)
    requires err.None? ==> !Fails(job.f, job.superstep, job.verts, u)
    ensures Tagged(verts[u].Queue(job.superstep), job.superstep - 1) && Tagged(verts[u].Queue(job.superstep + 1), job.superstep)
    ensures err.None? ==> Tagged(verts[u].Queue(job.superstep + 2), job.superstep + 1)
  {
    hide View, Fails, PregelNode, Vertex.Queue, Mail;
    var next := See(verts[u], job.superstep + 1);
    InboxOf(job, next.(outbox := multiset{}), u);
    SeeBoxes(verts[u], job.superstep + 1);
    MailTagged(job.f, job.superstep, View(job.verts, job.superstep), job.verts.Keys, u);
    var q := verts[u].Queue(job.superstep + 1);
    forall i | 0 <= i < |q| ensures q[i].sentIn == job.superstep {
      assert q[i] in multiset(q);
      assert q[i] in multiset(job.verts[u].Queue(job.superstep + 1)) ==> q[i] in job.verts[u].Queue(job.superstep + 1);
    }
    assert |verts[u].Queue(job.superstep + 2)| == |multiset(verts[u].Queue(job.superstep + 2))|;
  }

  // ----- composing runs

  /** Running `a` supersteps and then `b` is running `a + b`. */
  lemma RunSplit(f: ComputeFn, superstep: int, nodes: Nodes, a: nat, b: nat)
    ensures PregelRun(f, superstep, nodes, a + b) == PregelRun(f, superstep + a, PregelRun(f, superstep, nodes, a), b)
  {
    hide Pregel, StepOf;
    IterateSplit(StepOf(f), superstep, nodes, a, b);
  }

  /** The combined run is free of failures exactly when both parts are. */
  lemma FailureSplit(f: ComputeFn, superstep: int, nodes: Nodes, a: nat, b: nat)
    ensures RunFailureFree(f, superstep, nodes, a + b)
       <==> RunFailureFree(f, superstep, nodes, a)
            && RunFailureFree(f, superstep + a, PregelRun(f, superstep, nodes, a), b)
  {
    hide Pregel, FailureFree, PregelRun;
    var mid := PregelRun(f, superstep, nodes, a);
    forall k: nat | a <= k < a + b
      ensures CleanAt(f, superstep, nodes, k) <==> CleanAt(f, superstep + a, mid, k - a)
    {
      RunSplit(f, superstep, nodes, a, k - a);
    }
    if RunFailureFree(f, superstep, nodes, a + b) {
      forall k: nat {:trigger CleanAt(f, superstep + a, mid, k)} | k < b
        ensures CleanAt(f, superstep + a, mid, k)
      {
        assert CleanAt(f, superstep, nodes, a + k);
      }
    }
  }

  lemma {:induction false} NoMail(f: ComputeFn, superstep: int, nodes: Nodes, from: set<VertexId>, u: VertexId)
    requires from <= nodes.Keys && AwakeIds(nodes) == {}
    ensures Mail(f, superstep, nodes, from, u) == multiset{}
    decreases |from|
  {
    if from != {} {
      var id :| id in from;
      MailSplit(f, superstep, nodes, from, id, u);
      assert id !in AwakeIds(nodes);
      NoMail(f, superstep, nodes, from - {id}, u);
    }
  }

  /** When a superstep reports no active vertex, the next one starts with exactly the outboxes
      delivered and nothing else changed. */
  lemma IdleStep(f: ComputeFn, superstep: int, nodes: Nodes)
    requires AwakeIds(nodes) == {}
    ensures forall u :: u in nodes ==>
              Pregel(f, superstep, nodes)[u] == nodes[u].(inbox := nodes[u].outbox, outbox := multiset{})
  {
    forall u | u in nodes
      ensures PregelNode(f, superstep, nodes, u) == nodes[u].(inbox := nodes[u].outbox, outbox := multiset{})
    {
      assert u !in AwakeIds(nodes);
      NoMail(f, superstep, nodes, nodes.Keys, u);
    }
  }

  ghost predicate OutboxesEmpty(nodes: Nodes) {
    forall u :: u in nodes ==> nodes[u].outbox == multiset{}
  }

  /** Quiescence: after a superstep without active vertices, the run is over for good (every later
      superstep reports zero and changes nothing) exactly when nothing was sent outside compute. */
  lemma Quiescence(f: ComputeFn, superstep: int, nodes: Nodes)
    requires AwakeIds(nodes) == {}
    ensures OutboxesEmpty(nodes) <==> forall k: nat :: PregelRun(f, superstep, nodes, k) == nodes
    ensures OutboxesEmpty(nodes) <==> AwakeIds(Pregel(f, superstep, nodes)) == {}
  {
    if OutboxesEmpty(nodes) {
      QuietStep(f, superstep, nodes);
      forall k: nat ensures PregelRun(f, superstep, nodes, k) == nodes { StillQuiet(f, superstep, nodes, k); }
    } else {
      WokenStep(f, superstep, nodes);
      PregelRunFirst(f, superstep, nodes, 1);
      assert PregelRun(f, superstep + 1, Pregel(f, superstep, nodes), 0) == Pregel(f, superstep, nodes);
      assert PregelRun(f, superstep, nodes, 1) != nodes;
    }
  }

  lemma QuietStep(f: ComputeFn, superstep: int, nodes: Nodes)
    requires AwakeIds(nodes) == {} && OutboxesEmpty(nodes)
    ensures Pregel(f, superstep, nodes) == nodes
  {
    IdleStep(f, superstep, nodes);
    forall u | u in nodes ensures Pregel(f, superstep, nodes)[u] == nodes[u] {
      assert u !in AwakeIds(nodes);
    }
  }

  lemma WokenStep(f: ComputeFn, superstep: int, nodes: Nodes)
    requires AwakeIds(nodes) == {} && !OutboxesEmpty(nodes)
    ensures AwakeIds(Pregel(f, superstep, nodes)) != {}
  {
    IdleStep(f, superstep, nodes);
    var u :| u in nodes && nodes[u].outbox != multiset{};
    assert Pregel(f, superstep, nodes)[u].inbox == nodes[u].outbox;
    assert |nodes[u].outbox| > 0;
    assert u in AwakeIds(Pregel(f, superstep, nodes));
  }

  lemma {:induction false} StillQuiet(f: ComputeFn, superstep: int, nodes: Nodes, k: nat)
    requires AwakeIds(nodes) == {} && OutboxesEmpty(nodes)
    ensures PregelRun(f, superstep, nodes, k) == nodes
    decreases k
  {
    if k > 0 {
      QuietStep(f, superstep, nodes);
      PregelRunFirst(f, superstep, nodes, k);
      StillQuiet(f, superstep + 1, nodes, k - 1);
    }
  }

  // ----- summary for the executor

  /** `verts` is what `i` error-free supersteps make of `verts0`, the first one numbered `start`. */
  ghost predicate Progressed(f: ComputeFn, start: int, verts0: Vertices, i: nat, verts: Vertices) {
    && RunFailureFree(f, start, View(verts0, start), i)
    && View(verts, start + i) == PregelRun(f, start, View(verts0, start), i)
  }

  lemma ProgressStep(f: ComputeFn, start: int, verts0: Vertices, i: nat, verts: Vertices,
                     verts': Vertices, active: int, err: Option<VertexId>)
    requires Progressed(f, start, verts0, i, verts)
    requires StepResult(Job(f, start + i, verts), verts', active, err)
    ensures err.None? <==> CleanAt(f, start, View(verts0, start), i)
    ensures err.None? ==> Progressed(f, start, verts0, i + 1, verts')
  {
    hide Pregel, View, FailureFree, AwakeIds, PregelRun, Fails, NodeAgrees;
    PregelRunLast(f, start, View(verts0, start), i);
  }

  lemma ProgressStart(f: ComputeFn, start: int, verts0: Vertices)
    ensures Progressed(f, start, verts0, 0, verts0)
  {
    hide Pregel, View;
  }

  lemma ProgressClean(f: ComputeFn, start: int, verts0: Vertices, i: nat, verts: Vertices)
    requires Progressed(f, start, verts0, i, verts)
    ensures RunFailureFree(f, start, View(verts0, start), i)
  {
    hide Pregel, View, PregelRun;
  }
}
