/** What a superstep does, said of the records before and after it and of the compute function alone. */
module BspMeaning {
  import opened BspModel
  import opened BspStep
  import opened BspTheorems
  import opened BspRun
  import opened Wrappers

  // ----- messages, counted

  /** Where among the sends, from position `k` on, `m` goes to `u`. */
  ghost function Positions(sends: seq<Send>, k: nat, u: VertexId, m: Msg): set<nat> {
    set i: nat | k <= i < |sends| && sends[i] == Send(u, m)
  }

  lemma {:induction false} MessagesCounted(sends: seq<Send>, k: nat, u: VertexId, superstep: int, m: Msg)
    requires k <= |sends|
    ensures MessagesTo(sends, k, u, superstep)[Envelope(m, superstep)] == |Positions(sends, k, u, m)|
    decreases |sends| - k
  {
    if k == |sends| {
      assert Positions(sends, k, u, m) == {};
    } else {
      MessagesCounted(sends, k + 1, u, superstep, m);
      var rest := Positions(sends, k + 1, u, m);
      assert Positions(sends, k, u, m) == if sends[k] == Send(u, m) then {k} + rest else rest;
      assert k !in rest;
    }
  }

  /** The sends of a vertex that is computed: none otherwise. */
  ghost function SendsOf(job: Job, v: VertexId): seq<Send>
    requires v in job.verts
  {
    if job.verts[v].active || |job.verts[v].Queue(job.superstep)| > 0 then
      job.f(v, job.verts[v].body, multiset(job.verts[v].Queue(job.superstep)), job.superstep).sends
    else []
  }

  ghost function Pairs(job: Job, from: set<VertexId>, u: VertexId, m: Msg): set<(VertexId, nat)>
    requires from <= job.verts.Keys
  {
    set v, i: nat | v in from && i < |SendsOf(job, v)| && SendsOf(job, v)[i] == Send(u, m) :: (v, i)
  }

  ghost function Paired(v: VertexId, ks: set<nat>): set<(VertexId, nat)> {
    set i | i in ks :: (v, i)
  }

  lemma {:induction false} PairedSize(v: VertexId, ks: set<nat>)
    ensures |Paired(v, ks)| == |ks|
    decreases |ks|
  {
    if ks == {} {
      assert Paired(v, ks) == {};
    } else {
      var k :| k in ks;
      PairedSize(v, ks - {k});
      assert Paired(v, ks) == Paired(v, ks - {k}) + {(v, k)};
      assert (v, k) !in Paired(v, ks - {k});
    }
  }

  lemma SentCounted(job: Job, v: VertexId, u: VertexId, m: Msg)
    requires v in job.verts
    ensures Sent(job.f, job.superstep, View(job.verts, job.superstep), v, u)[Envelope(m, job.superstep)]
         == |Positions(SendsOf(job, v), 0, u, m)|
  {
    MessagesCounted(SendsOf(job, v), 0, u, job.superstep, m);
    hide View, Vertex.Queue;
    ViewAt(job.verts, job.superstep, v);
    AwakeSeen(job.verts[v], job.superstep);
    assert Positions([], 0, u, m) == {};
  }

  lemma AwakeSeen(v: Vertex, superstep: int)
    ensures Awake(See(v, superstep)) <==> v.active || |v.Queue(superstep)| > 0
    ensures See(v, superstep).inbox == multiset(v.Queue(superstep)) && See(v, superstep).body == v.body
  {
    hide Vertex.Queue;
    assert |multiset(v.Queue(superstep))| == |v.Queue(superstep)|;
  }

  lemma NoPairs(job: Job, u: VertexId, m: Msg)
    ensures Pairs(job, {}, u, m) == {}
  {
  }

  lemma PairsSplit(job: Job, from: set<VertexId>, v: VertexId, u: VertexId, m: Msg)
    requires from <= job.verts.Keys && v in from
    ensures |Pairs(job, from, u, m)| == |Pairs(job, from - {v}, u, m)| + |Positions(SendsOf(job, v), 0, u, m)|
  {
    hide SendsOf;
    var ks := Positions(SendsOf(job, v), 0, u, m);
    PairedSize(v, ks);
    assert Pairs(job, from, u, m) == Pairs(job, from - {v}, u, m) + Paired(v, ks);
    assert Pairs(job, from - {v}, u, m) !! Paired(v, ks);
  }

  lemma {:induction false} MailCounted(job: Job, from: set<VertexId>, u: VertexId, m: Msg)
    requires from <= job.verts.Keys
    ensures Mail(job.f, job.superstep, View(job.verts, job.superstep), from, u)[Envelope(m, job.superstep)]
         == |Pairs(job, from, u, m)|
    decreases |from|
  {
    hide View, Sent, SendsOf, Pairs, Positions;
    if from == {} {
      NoPairs(job, u, m);
    } else {
      var v :| v in from;
      MailSplit(job.f, job.superstep, View(job.verts, job.superstep), from, v, u);
      MailCounted(job, from - {v}, u, m);
      SentCounted(job, v, u, m);
      PairsSplit(job, from, v, u, m);
    }
  }

  // ----- one superstep

  /** A synchronous superstep, spelled out for one node: body and flag are those the compute function
      leaves if the node was active or had messages, and the old ones otherwise. */
  lemma PregelSpelled(f: ComputeFn, superstep: int, nodes: Nodes, u: VertexId)
    requires u in nodes
    ensures u in Pregel(f, superstep, nodes)
    ensures var n, next := nodes[u], Pregel(f, superstep, nodes)[u];
            var out := f(u, n.body, n.inbox, superstep);
            && next.outbox == multiset{}
            && if n.active || |n.inbox| > 0 then next.body == out.body && next.active == out.active
               else next.body == n.body && next.active == n.active
  {
  }

  /** What a call of step leaves in one vertex. */
  lemma VertexSpelled(job: Job, verts: Vertices, active: int, err: Option<VertexId>, u: VertexId)
    requires StepResult(job, verts, active, err) && u in job.verts
    ensures u in verts
    ensures var v := job.verts[u];
            var out := job.f(u, v.body, multiset(v.Queue(job.superstep)), job.superstep);
            if v.active || |v.Queue(job.superstep)| > 0 then
              && verts[u].body == out.body && verts[u].active == out.active
              && (!out.failure.ComputeFails? && !out.failure.DiscardFails? ==> verts[u].Queue(job.superstep) == [])
            else verts[u].body == v.body && verts[u].active == v.active && verts[u].Queue(job.superstep) == []
  {
    hide View, Pregel, FailureFree, AwakeIds, Mail, Vertex.Queue, NodeAgrees;
    assert NodeAgrees(job, verts, u);
    AgreementSpelled(job, verts, u);
  }

  lemma AgreementSpelled(job: Job, verts: Vertices, u: VertexId)
    requires u in job.verts && u in verts && NodeAgrees(job, verts, u)
    ensures var v := job.verts[u];
            var out := job.f(u, v.body, multiset(v.Queue(job.superstep)), job.superstep);
            if v.active || |v.Queue(job.superstep)| > 0 then
              && verts[u].body == out.body && verts[u].active == out.active
              && (!out.failure.ComputeFails? && !out.failure.DiscardFails? ==> verts[u].Queue(job.superstep) == [])
            else verts[u].body == v.body && verts[u].active == v.active && verts[u].Queue(job.superstep) == []
  {
    hide View, Mail, Vertex.Queue;
    var v := job.verts[u];
    ViewAt(job.verts, job.superstep, u);
    AwakeSeen(v, job.superstep);
    SeeBoxes(verts[u], job.superstep + 1);
    Parity(verts[u], job.superstep);
    assert |verts[u].Queue(job.superstep)| == |multiset(verts[u].Queue(job.superstep))|;
  }

  /** The sends of `m` to `u` by vertices that are active or have messages. */
  ghost function Deliveries(job: Job, u: VertexId, m: Msg): set<(VertexId, nat)> {
    set v, i: nat | v in job.verts
      && (job.verts[v].active || |job.verts[v].Queue(job.superstep)| > 0)
      && i < |job.f(v, job.verts[v].body, multiset(job.verts[v].Queue(job.superstep)), job.superstep).sends|
      && job.f(v, job.verts[v].body, multiset(job.verts[v].Queue(job.superstep)), job.superstep).sends[i] == Send(u, m)
      :: (v, i)
  }

  /** How often a message waits in a vertex after a step: as often as before it, and once for each
      send of it by a computed vertex. */
  lemma InboxSpelled(job: Job, verts: Vertices, active: int, err: Option<VertexId>, u: VertexId, m: Msg)
    requires StepResult(job, verts, active, err) && u in job.verts
    ensures u in verts
    ensures multiset(verts[u].Queue(job.superstep + 1))[Envelope(m, job.superstep)]
         == multiset(job.verts[u].Queue(job.superstep + 1))[Envelope(m, job.superstep)] + |Deliveries(job, u, m)|
  {
    hide View, Pregel, FailureFree, AwakeIds, Mail, Vertex.Queue, PregelNode, Fails;
    assert NodeAgrees(job, verts, u);
    InboxOf(job, See(verts[u], job.superstep + 1).(outbox := multiset{}), u);
    SeeBoxes(verts[u], job.superstep + 1);
    MailCounted(job, job.verts.Keys, u, m);
    assert Pairs(job, job.verts.Keys, u, m) == Deliveries(job, u, m);
  }

  /** The number and the verdict that a call of step reports. */
  lemma ReportSpelled(job: Job, verts: Vertices, active: int, err: Option<VertexId>)
    requires StepResult(job, verts, active, err)
    ensures active == |set u | u in job.verts && (job.verts[u].active || |job.verts[u].Queue(job.superstep)| > 0)|
    ensures err.None? <==> forall u :: u in job.verts && (job.verts[u].active || |job.verts[u].Queue(job.superstep)| > 0) ==>
              var out := job.f(u, job.verts[u].body, multiset(job.verts[u].Queue(job.superstep)), job.superstep);
              !out.failure.ComputeFails? && !out.failure.DiscardFails?
  {
    hide Pregel, Mail, Vertex.Queue, NodeAgrees, Fails;
    forall u | u in job.verts
      ensures var n := View(job.verts, job.superstep)[u];
              && (Awake(n) <==> job.verts[u].active || |job.verts[u].Queue(job.superstep)| > 0)
              && n.body == job.verts[u].body && n.inbox == multiset(job.verts[u].Queue(job.superstep))
    {
      ViewAt(job.verts, job.superstep, u);
      AwakeSeen(job.verts[u], job.superstep);
    }
    assert AwakeIds(View(job.verts, job.superstep))
        == set u | u in job.verts && (job.verts[u].active || |job.verts[u].Queue(job.superstep)| > 0);
  }

  /** All of it together. */
  lemma StepSpelled(job: Job, verts: Vertices, active: int, err: Option<VertexId>)
    requires StepResult(job, verts, active, err)
    ensures verts.Keys == job.verts.Keys
    ensures forall u :: u in job.verts ==>
              var v := job.verts[u];
              var out := job.f(u, v.body, multiset(v.Queue(job.superstep)), job.superstep);
              if v.active || |v.Queue(job.superstep)| > 0 then
                && verts[u].body == out.body && verts[u].active == out.active
                && (!out.failure.ComputeFails? && !out.failure.DiscardFails? ==> verts[u].Queue(job.superstep) == [])
              else verts[u].body == v.body && verts[u].active == v.active && verts[u].Queue(job.superstep) == []
    ensures forall u, m :: u in job.verts ==>
              multiset(verts[u].Queue(job.superstep + 1))[Envelope(m, job.superstep)]
              == multiset(job.verts[u].Queue(job.superstep + 1))[Envelope(m, job.superstep)] + |Deliveries(job, u, m)|
    ensures active == |set u | u in job.verts && (job.verts[u].active || |job.verts[u].Queue(job.superstep)| > 0)|
    ensures err.None? <==> forall u :: u in job.verts && (job.verts[u].active || |job.verts[u].Queue(job.superstep)| > 0) ==>
              var out := job.f(u, job.verts[u].body, multiset(job.verts[u].Queue(job.superstep)), job.superstep);
              !out.failure.ComputeFails? && !out.failure.DiscardFails?
  {
    ReportSpelled(job, verts, active, err);
    assert verts.Keys == job.verts.Keys;
    hide StepResult, Vertex.Queue, Deliveries;
    forall u | u in job.verts
      ensures var v := job.verts[u];
              var out := job.f(u, v.body, multiset(v.Queue(job.superstep)), job.superstep);
              if v.active || |v.Queue(job.superstep)| > 0 then
                && verts[u].body == out.body && verts[u].active == out.active
                && (!out.failure.ComputeFails? && !out.failure.DiscardFails? ==> verts[u].Queue(job.superstep) == [])
              else verts[u].body == v.body && verts[u].active == v.active && verts[u].Queue(job.superstep) == []
    {
      VertexSpelled(job, verts, active, err, u);
    }
    forall u, m | u in job.verts
      ensures multiset(verts[u].Queue(job.superstep + 1))[Envelope(m, job.superstep)]
           == multiset(job.verts[u].Queue(job.superstep + 1))[Envelope(m, job.superstep)] + |Deliveries(job, u, m)|
    {
      InboxSpelled(job, verts, active, err, u, m);
    }
  }

  /** The same of every schedule of a step, whatever the number of workers. */
  lemma ScheduleSpelled(job: Job, workers: nat, acts: seq<Action>, s: State, u: VertexId, m: Msg)
    requires Reached(job, workers, acts, s) && s.main.Returned? && u in job.verts
    ensures u in s.verts
    ensures var v := job.verts[u];
            var out := job.f(u, v.body, multiset(v.Queue(job.superstep)), job.superstep);
            if v.active || |v.Queue(job.superstep)| > 0 then
              && s.verts[u].body == out.body && s.verts[u].active == out.active
              && (!out.failure.ComputeFails? && !out.failure.DiscardFails? ==> s.verts[u].Queue(job.superstep) == [])
            else s.verts[u].body == v.body && s.verts[u].active == v.active && s.verts[u].Queue(job.superstep) == []
    ensures multiset(s.verts[u].Queue(job.superstep + 1))[Envelope(m, job.superstep)]
         == multiset(job.verts[u].Queue(job.superstep + 1))[Envelope(m, job.superstep)] + |Deliveries(job, u, m)|
  {
    hide Inv, StepResult, Vertex.Queue, Deliveries, Reached;
    ReachedInv(job, workers, acts, s);
    ReturnedResult(job, s);
    StepSpelled(job, s.verts, s.activeInStep, s.main.err);
  }

  /** A delivery is one send, by a vertex that is computed, at one position. */
  lemma DeliverySpelled(job: Job, u: VertexId, m: Msg, v: VertexId, i: nat)
    ensures (v, i) in Deliveries(job, u, m) <==>
            && v in job.verts && (job.verts[v].active || |job.verts[v].Queue(job.superstep)| > 0)
            && var sends := job.f(v, job.verts[v].body, multiset(job.verts[v].Queue(job.superstep)), job.superstep).sends;
               i < |sends| && sends[i].dst == u && sends[i].msg == m
  {
  }
}
