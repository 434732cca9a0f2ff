/** The data of the bulk-synchronous graph engine and the synchronous superstep it promises. */
module BspModel {

  type Value(==, 0, !new)
  type Msg(==, 0, !new)
  type Aggregator(==, 0, !new)
  type VertexId = string

  datatype Edge = Edge(dst: VertexId, value: Value)

  /** A queued message. `sentIn` is the superstep in which it was enqueued; it is bookkeeping of
      the model and lets the isolation theorems speak about the age of a message. */
  datatype Envelope = Envelope(body: Msg, sentIn: int)

  /** The part of a vertex that only its own compute function writes. */
  datatype Body = Body(value: Value, edges: seq<Edge>)

  /** A vertex with its two message queues, selected by superstep parity. */
  datatype Vertex = Vertex(body: Body, active: bool, even: seq<Envelope>, odd: seq<Envelope>) {
    function Queue(superstep: int): seq<Envelope> {
      if superstep % 2 == 0 then even else odd
    }

    function WithQueue(superstep: int, q: seq<Envelope>): (v: Vertex)
      ensures v.Queue(superstep) == q && v.Queue(superstep + 1) == Queue(superstep + 1)
      ensures v.body == body && v.active == active
    {
      if superstep % 2 == 0 then this.(even := q) else this.(odd := q)
    }
  }

  /** The queue a superstep reads is the one the step after next reads. */
  lemma Parity(v: Vertex, superstep: int)
    ensures v.Queue(superstep + 2) == v.Queue(superstep)
  {
    assert (superstep + 2) % 2 == superstep % 2;
  }

  datatype Send = Send(dst: VertexId, msg: Msg)

  datatype Failure = NoFailure | ComputeFails | DiscardFails

  /** Everything one invocation of the compute function does: what it leaves in its own vertex,
      the messages it sends in order, and whether it (or the discard after it) fails. */
  datatype Outcome = Outcome(body: Body, active: bool, sends: seq<Send>, failure: Failure)

  /** A compute function that terminates, writes its own vertex only, and reads its messages as a
      multiset. The last argument is the superstep. */
  type ComputeFn = (VertexId, Body, multiset<Envelope>, int) -> Outcome

  type Vertices = map<VertexId, Vertex>

  /** Whether a vertex is computed at all in a superstep. */
  predicate Runs(v: Vertex, superstep: int) {
    v.active || |v.Queue(superstep)| > 0
  }

  /** What computing vertex `id` of `verts` in `superstep` does. */
  function OutcomeOf(f: ComputeFn, superstep: int, verts: Vertices, id: VertexId): Outcome
    requires id in verts
  {
    f(id, verts[id].body, multiset(verts[id].Queue(superstep)), superstep)
  }

  predicate Fails(f: ComputeFn, superstep: int, verts: Vertices, id: VertexId)
    requires id in verts
  {
    Runs(verts[id], superstep) && !OutcomeOf(f, superstep, verts, id).failure.NoFailure?
  }

  /** The messages for `u` among the sends from position `k` on. */
  function MessagesTo(sends: seq<Send>, k: nat, u: VertexId, superstep: int): (m: multiset<Envelope>)
    requires k <= |sends|
    decreases |sends| - k
  {
    if k == |sends| then multiset{}
    else (if sends[k].dst == u then multiset{Envelope(sends[k].msg, superstep)} else multiset{})
         + MessagesTo(sends, k + 1, u, superstep)
  }

  lemma {:induction false} MessagesToTagged(sends: seq<Send>, k: nat, u: VertexId, superstep: int)
    requires k <= |sends|
    ensures forall m :: m in MessagesTo(sends, k, u, superstep) ==> m.sentIn == superstep
    decreases |sends| - k
  {
    if k < |sends| { MessagesToTagged(sends, k + 1, u, superstep); }
  }

  // ----- the synchronous superstep

  /** A vertex as a user sees it between supersteps: the order inside a queue is not observable. */
  datatype Node = Node(body: Body, active: bool, inbox: multiset<Envelope>, outbox: multiset<Envelope>)

  type Nodes = map<VertexId, Node>

  /** A vertex at the start of `superstep`: `inbox` is read now, `outbox` fills up for the next. */
  function See(v: Vertex, superstep: int): Node {
    Node(v.body, v.active, multiset(v.Queue(superstep)), multiset(v.Queue(superstep + 1)))
  }

  function View(verts: Vertices, superstep: int): (n: Nodes)
    ensures n.Keys == verts.Keys
  {
    map u | u in verts :: See(verts[u], superstep)
  }

  predicate Awake(n: Node) {
    n.active || |n.inbox| > 0
  }

  function NodeOutcome(f: ComputeFn, superstep: int, nodes: Nodes, id: VertexId): Outcome
    requires id in nodes
  {
    f(id, nodes[id].body, nodes[id].inbox, superstep)
  }

  ghost function Sent(f: ComputeFn, superstep: int, nodes: Nodes, id: VertexId, u: VertexId): multiset<Envelope>
    requires id in nodes
  {
    if Awake(nodes[id]) then MessagesTo(NodeOutcome(f, superstep, nodes, id).sends, 0, u, superstep)
    else multiset{}
  }

  /** All messages that the nodes in `from` send to `u`. */
  ghost function Mail(f: ComputeFn, superstep: int, nodes: Nodes, from: set<VertexId>, u: VertexId): multiset<Envelope>
    requires from <= nodes.Keys
    decreases |from|
  {
    if from == {} then multiset{}
    else
      var id :| id in from;
      Sent(f, superstep, nodes, id, u) + Mail(f, superstep, nodes, from - {id}, u)
  }

  ghost predicate FailureFree(f: ComputeFn, superstep: int, nodes: Nodes) {
    forall id :: id in nodes && Awake(nodes[id]) ==> NodeOutcome(f, superstep, nodes, id).failure.NoFailure?
  }

  ghost function AwakeIds(nodes: Nodes): set<VertexId> {
    set id | id in nodes && Awake(nodes[id])
  }

  /** Node `u` after one synchronous superstep: if awake it has computed on its inbox; its inbox
      then holds what was addressed to it, and its outbox is empty. */
  ghost function PregelNode(f: ComputeFn, superstep: int, nodes: Nodes, u: VertexId): Node
    requires u in nodes
  {
    var awake, out := Awake(nodes[u]), NodeOutcome(f, superstep, nodes, u);
    Node(if awake then out.body else nodes[u].body, awake && out.active,
         nodes[u].outbox + Mail(f, superstep, nodes, nodes.Keys, u), multiset{})
  }

  /** One synchronous superstep. */
  ghost function Pregel(f: ComputeFn, superstep: int, nodes: Nodes): (n: Nodes)
    ensures n.Keys == nodes.Keys
  {
    map u | u in nodes :: PregelNode(f, superstep, nodes, u)
  }

  /** `count` applications of a numbered step, the first one numbered `start`. */
  ghost function Iterate<T>(step: (int, T) -> T, start: int, x: T, count: nat): T
    decreases count
  {
    if count == 0 then x else Iterate(step, start + 1, step(start, x), count - 1)
  }

  lemma {:induction false} IterateSplit<T>(step: (int, T) -> T, start: int, x: T, a: nat, b: nat)
    ensures Iterate(step, start, x, a + b) == Iterate(step, start + a, Iterate(step, start, x, a), b)
    decreases a
  {
    if a > 0 { IterateSplit(step, start + 1, step(start, x), a - 1, b); }
  }

  lemma IterateLast<T>(step: (int, T) -> T, start: int, x: T, n: nat)
    ensures Iterate(step, start, x, n + 1) == step(start + n, Iterate(step, start, x, n))
  {
    IterateSplit(step, start, x, n, 1);
    var y := Iterate(step, start, x, n);
    assert Iterate(step, start + n, y, 1) == Iterate(step, start + n + 1, step(start + n, y), 0);
  }

  ghost function StepOf(f: ComputeFn): (step: (int, Nodes) -> Nodes)
    ensures forall k: int, n: Nodes :: step(k, n) == Pregel(f, k, n)
  {
    (k: int, n: Nodes) => Pregel(f, k, n)
  }

  /** `count` synchronous supersteps, the first one numbered `superstep`. */
  ghost function PregelRun(f: ComputeFn, superstep: int, nodes: Nodes, count: nat): Nodes {
    Iterate(StepOf(f), superstep, nodes, count)
  }

  lemma PregelRunFirst(f: ComputeFn, superstep: int, nodes: Nodes, count: nat)
    requires count > 0
    ensures PregelRun(f, superstep, nodes, count) == PregelRun(f, superstep + 1, Pregel(f, superstep, nodes), count - 1)
  {
  }

  lemma PregelRunLast(f: ComputeFn, superstep: int, nodes: Nodes, count: nat)
    ensures PregelRun(f, superstep, nodes, count + 1) == Pregel(f, superstep + count, PregelRun(f, superstep, nodes, count))
  {
    IterateLast(StepOf(f), superstep, nodes, count);
  }

  /** Superstep number `k` of the run meets no failing compute function. */
  ghost predicate CleanAt(f: ComputeFn, superstep: int, nodes: Nodes, k: nat) {
    FailureFree(f, superstep + k, PregelRun(f, superstep, nodes, k))
  }

  ghost predicate RunFailureFree(f: ComputeFn, superstep: int, nodes: Nodes, count: nat) {
    forall k: nat :: k < count ==> CleanAt(f, superstep, nodes, k)
  }
}
