/** Runs of the executor one after the other: how a run ends, how two runs make one, when nothing
    more happens, and the age of messages in a run. */
module BspComposition {
  import opened BspModel
  import opened BspStep
  import opened BspTheorems
  import opened BspRun
  import opened BspEngine
  import opened Wrappers

  // ----- the outcome of a run is determined

  /** The same reason; which failing vertex is reported depends on the schedule. */
  predicate SameStop(s: Stop, t: Stop) {
    s == t || (s.StepFailed? && t.StepFailed?)
  }

  /** The supersteps a run has executed, one more than it completed if it broke off behind one. */
  function Executed(completed: nat, stop: Stop): nat {
    if stop.StepsDone? || stop.ContextExpired? || stop.PreStepFailed? then completed else completed + 1
  }

  /** Two results of runs look the same: where a superstep failed, but for leftovers. */
  ghost predicate SameVertices(verts: Vertices, verts': Vertices, superstep: int, stop: Stop) {
    && verts.Keys == verts'.Keys
    && (!stop.StepFailed? ==> View(verts, superstep) == View(verts', superstep))
    && forall u :: u in verts ==>
         See(verts[u], superstep).(outbox := multiset{}) == See(verts'[u], superstep).(outbox := multiset{})
  }

  /** An iteration ends a run for at most one reason, and for none exactly if it goes all the way. */
  lemma OneReason(a: Answers, clean: bool, stop: Stop)
    requires EndsFor(a, clean, stop)
    ensures stop.ContextExpired? <==> a.expired
    ensures stop.PreStepFailed? <==> !a.expired && a.preStepFails
    ensures stop.StepFailed? <==> !a.expired && !a.preStepFails && !clean
    ensures stop.PostStepFailed? <==> !a.expired && !a.preStepFails && clean && a.postStepFails
    ensures stop.KeepRunningFailed? <==> !a.expired && !a.preStepFails && clean && !a.postStepFails && a.keepFails
    ensures stop.Stopped? <==> !a.expired && !a.preStepFails && clean && !a.postStepFails && !a.keepFails && !a.keepRunning
    ensures !stop.StepsDone? && (Breaks(a) || !clean)
  {
  }

  /** The answers and the starting vertices determine the number of completed supersteps, the reason
      for the end, and the vertices. */
  lemma RunDetermined(f: ComputeFn, start: int, verts0: Vertices, maxSteps: int, answers: nat -> Answers,
                      c: nat, verts: Vertices, stop: Stop, c': nat, verts': Vertices, stop': Stop)
    requires RunResult(f, start, verts0, maxSteps, answers, c, verts, stop)
    requires RunResult(f, start, verts0, maxSteps, answers, c', verts', stop')
    ensures c == c' && SameStop(stop, stop') && SameVertices(verts, verts', start + Executed(c, stop), stop)
  {
    hide Progressed, CleanAt, FailedAt, View, See, Ends;
    EndsThere(f, start, verts0, maxSteps, answers, c, verts, stop);
    EndsThere(f, start, verts0, maxSteps, answers, c', verts', stop');
    if stop.StepFailed? {
      SameFailure(f, start, verts0, c, verts, stop.v, verts', stop'.v);
    } else {
      SameProgress(f, start, verts0, Executed(c, stop), verts, verts');
    }
  }

  /** A run ends at the first iteration that does not go all the way, or at its bound. */
  lemma EndsThere(f: ComputeFn, start: int, verts0: Vertices, maxSteps: int, answers: nat -> Answers,
                  c: nat, verts: Vertices, stop: Stop)
    requires RunResult(f, start, verts0, maxSteps, answers, c, verts, stop)
    ensures c == maxSteps || Ends(answers(c), f, start, View(verts0, start), c)
    ensures forall k: nat :: k < c ==> k != maxSteps && !Ends(answers(k), f, start, View(verts0, start), k)
  {
    hide Progressed, CleanAt, FailedAt, View;
  }

  lemma SameProgress(f: ComputeFn, start: int, verts0: Vertices, i: nat, verts: Vertices, verts': Vertices)
    requires Progressed(f, start, verts0, i, verts) && Progressed(f, start, verts0, i, verts')
    ensures verts.Keys == verts'.Keys && View(verts, start + i) == View(verts', start + i)
    ensures forall u :: u in verts ==> See(verts[u], start + i) == See(verts'[u], start + i)
  {
    hide PregelRun, RunFailureFree, See, View;
    SameViews(verts, verts', start + i);
  }

  lemma SameViews(verts: Vertices, verts': Vertices, superstep: int)
    requires View(verts, superstep) == View(verts', superstep)
    ensures verts.Keys == verts'.Keys
    ensures forall u :: u in verts ==> See(verts[u], superstep) == See(verts'[u], superstep)
  {
    hide See;
    assert verts.Keys == View(verts, superstep).Keys && verts'.Keys == View(verts', superstep).Keys;
    forall u | u in verts ensures See(verts[u], superstep) == See(verts'[u], superstep) {
      ViewAt(verts, superstep, u);
      ViewAt(verts', superstep, u);
    }
  }

  /** Two failing supersteps from the same nodes. */
  lemma SameFailure(f: ComputeFn, start: int, verts0: Vertices, c: nat, verts: Vertices, v: VertexId, verts': Vertices, v': VertexId)
    requires FailedAt(f, start, verts0, c, verts, v) && FailedAt(f, start, verts0, c, verts', v')
    ensures verts.Keys == verts'.Keys
    ensures forall u :: u in verts ==>
              See(verts[u], start + c + 1).(outbox := multiset{}) == See(verts'[u], start + c + 1).(outbox := multiset{})
  {
    hide Progressed, View, See, NodeAgrees, FailureFree, AwakeIds, Fails, Pregel, Vertex.Queue;
    var before, active :| FailedFrom(f, start, verts0, c, before, active, verts, v);
    var before', active' :| FailedFrom(f, start, verts0, c, before', active', verts', v');
    SameProgress(f, start, verts0, c, before, before');
    forall u | u in verts
      ensures See(verts[u], start + c + 1).(outbox := multiset{}) == See(verts'[u], start + c + 1).(outbox := multiset{})
    {
      SameEnd(Job(f, start + c, before), Job(f, start + c, before'), verts, verts', u);
    }
  }

  lemma SameEnd(job: Job, job': Job, verts: Vertices, verts': Vertices, u: VertexId)
    requires job.f == job'.f && job.superstep == job'.superstep
    requires View(job.verts, job.superstep) == View(job'.verts, job.superstep)
    requires u in job.verts && u in job'.verts && u in verts && u in verts'
    requires NodeAgrees(job, verts, u) && NodeAgrees(job', verts', u)
    ensures See(verts[u], job.superstep + 1).(outbox := multiset{}) == See(verts'[u], job.superstep + 1).(outbox := multiset{})
  {
    hide See, View, PregelNode, Fails;
  }

  // ----- two runs in a row

  /** The answers of two runs in a row, the first of which completes `a` iterations. */
  function Concat(answers: nat -> Answers, a: nat, answers': nat -> Answers): nat -> Answers {
    (k: nat) => if k < a then answers(k) else answers'(k - a)
  }

  /** The bound of two runs in a row; a negative bound is none. */
  function Total(a: nat, b: int): int {
    if b < 0 then b else a + b
  }

  lemma ProgressCompose(f: ComputeFn, start: int, verts0: Vertices, a: nat, mid: Vertices, b: nat, verts: Vertices)
    requires Progressed(f, start, verts0, a, mid) && Progressed(f, start + a, mid, b, verts)
    ensures Progressed(f, start, verts0, a + b, verts)
  {
    hide PregelRun, View, RunFailureFree;
    RunSplit(f, start, View(verts0, start), a, b);
    FailureSplit(f, start, View(verts0, start), a, b);
  }

  lemma CleanCompose(f: ComputeFn, start: int, verts0: Vertices, a: nat, mid: Vertices, c: nat)
    requires Progressed(f, start, verts0, a, mid)
    ensures CleanAt(f, start, View(verts0, start), a + c) <==> CleanAt(f, start + a, View(mid, start + a), c)
  {
    hide PregelRun, View, RunFailureFree, FailureFree;
    RunSplit(f, start, View(verts0, start), a, c);
  }

  lemma FailureCompose(f: ComputeFn, start: int, verts0: Vertices, a: nat, mid: Vertices, c: nat, verts: Vertices, v: VertexId)
    requires Progressed(f, start, verts0, a, mid) && FailedAt(f, start + a, mid, c, verts, v)
    ensures FailedAt(f, start, verts0, a + c, verts, v)
  {
    hide Progressed, StepResult;
    var before, active :| FailedFrom(f, start + a, mid, c, before, active, verts, v);
    ProgressCompose(f, start, verts0, a, mid, c, before);
    assert start + a + c == start + (a + c);
    assert FailedFrom(f, start, verts0, a + c, before, active, verts, v);
  }

  /** A run that completes its `a` supersteps and one that goes on from there are together a run. */
  lemma RunsCompose(f: ComputeFn, start: int, verts0: Vertices, a: nat, answers: nat -> Answers, mid: Vertices,
                    b: int, answers': nat -> Answers, c: nat, verts: Vertices, stop: Stop)
    requires RunResult(f, start, verts0, a, answers, a, mid, StepsDone)
    requires RunResult(f, start + a, mid, b, answers', c, verts, stop)
    ensures RunResult(f, start, verts0, Total(a, b), Concat(answers, a, answers'), a + c, verts, stop)
  {
    hide Progressed, CleanAt, FailedAt, View, RunFailureFree, EndsFor, Breaks;
    CleanCompose(f, start, verts0, a, mid, c);
    if stop.StepFailed? {
      FailureCompose(f, start, verts0, a, mid, c, verts, stop.v);
      FailureFreeCompose(f, start, verts0, a, mid, c);
    } else {
      ProgressCompose(f, start, verts0, a, mid, Executed(c, stop), verts);
      FailureFreeCompose(f, start, verts0, a, mid, c);
    }
  }

  lemma FailureFreeCompose(f: ComputeFn, start: int, verts0: Vertices, a: nat, mid: Vertices, c: nat)
    requires Progressed(f, start, verts0, a, mid) && RunFailureFree(f, start + a, View(mid, start + a), c)
    ensures RunFailureFree(f, start, View(verts0, start), a + c)
  {
    hide PregelRun, View, RunFailureFree;
    FailureSplit(f, start, View(verts0, start), a, c);
  }

  /** RunSteps(a) and then RunSteps(b) against RunSteps(a + b): if the first run is completed, the
      combined run completes as many supersteps as both, ends for the reason for which the second
      ended, and leaves the same vertices. A negative `b` is a run to completion. */
  lemma TwoRunsAreOne(f: ComputeFn, start: int, verts0: Vertices, a: nat, answers: nat -> Answers, mid: Vertices,
                      b: int, answers': nat -> Answers, c: nat, verts: Vertices, stop: Stop,
                      c': nat, verts': Vertices, stop': Stop)
    requires RunResult(f, start, verts0, a, answers, a, mid, StepsDone)
    requires RunResult(f, start + a, mid, b, answers', c, verts, stop)
    requires RunResult(f, start, verts0, Total(a, b), Concat(answers, a, answers'), c', verts', stop')
    ensures c' == a + c && SameStop(stop', stop)
    ensures SameVertices(verts, verts', start + a + Executed(c, stop), stop)
  {
    hide RunResult, SameVertices;
    RunsCompose(f, start, verts0, a, answers, mid, b, answers', c, verts, stop);
    RunDetermined(f, start, verts0, Total(a, b), Concat(answers, a, answers'), a + c, verts, stop, c', verts', stop');
    assert start + a + Executed(c, stop) == start + Executed(a + c, stop);
  }

  /** The combined run gets past `a` supersteps exactly if the first run completes them. Otherwise
      the two end after as many, for the same reason, with the same vertices. */
  lemma FirstRunDecides(f: ComputeFn, start: int, verts0: Vertices, a: nat, answers: nat -> Answers,
                        b: int, answers': nat -> Answers, c: nat, verts: Vertices, stop: Stop,
                        c': nat, verts': Vertices, stop': Stop)
    requires RunResult(f, start, verts0, a, answers, c, verts, stop)
    requires RunResult(f, start, verts0, Total(a, b), Concat(answers, a, answers'), c', verts', stop')
    ensures stop.StepsDone? <==> c' >= a
    ensures !stop.StepsDone? ==> c' == c && SameStop(stop', stop) && SameVertices(verts, verts', start + Executed(c, stop), stop)
  {
    hide Progressed, CleanAt, FailedAt, View, EndsFor, SameVertices;
    if c < a {
      CutShort(f, start, verts0, a, answers, b, answers', c, verts, stop);
      RunDetermined(f, start, verts0, Total(a, b), Concat(answers, a, answers'), c, verts, stop, c', verts', stop');
    } else if c' < a {
      assert RunResult(f, start, verts0, a, answers, c', verts', stop');
      RunDetermined(f, start, verts0, a, answers, c, verts, stop, c', verts', stop');
    }
  }

  /** A run that does not complete its `a` supersteps is all there is to a run of more. */
  lemma CutShort(f: ComputeFn, start: int, verts0: Vertices, a: nat, answers: nat -> Answers,
                 b: int, answers': nat -> Answers, c: nat, verts: Vertices, stop: Stop)
    requires RunResult(f, start, verts0, a, answers, c, verts, stop) && c < a
    ensures RunResult(f, start, verts0, Total(a, b), Concat(answers, a, answers'), c, verts, stop)
  {
    hide Progressed, CleanAt, FailedAt, View, EndsFor;
  }

  /** RunSteps(a), and if it is completed RunSteps(b), on one executor: what they do, RunSteps(a + b)
      may do, and by `RunDetermined` nothing else. */
  method RunTwice(ex: Executor, a: nat, answers: nat -> Answers, b: nat, answers': nat -> Answers) returns (stop: Stop)
    requires ex.g.workers > 0
    modifies ex.g
    ensures ex.g.superstep >= old(ex.g.superstep)
    ensures RunResult(ex.g.computeFn, old(ex.g.superstep), old(ex.g.vertices), a + b, Concat(answers, a, answers'),
                      ex.g.superstep - old(ex.g.superstep), ex.g.vertices, stop)
  {
    hide Progressed, CleanAt, FailedAt, View, EndsFor, RunFailureFree;
    ghost var f, start, verts0 := ex.g.computeFn, ex.g.superstep, ex.g.vertices;
    stop := ex.Run(a, answers);
    ghost var c, mid := ex.g.superstep - start, ex.g.vertices;
    if stop.StepsDone? {
      stop := ex.Run(b, answers');
      RunsCompose(f, start, verts0, a, answers, mid, b, answers', ex.g.superstep - start - a, ex.g.vertices, stop);
    } else {
      CutShort(f, start, verts0, a, answers, b, answers', c, mid, stop);
    }
  }

  // ----- when nothing more happens

  /** No vertex is active or has messages. */
  ghost predicate Quiet(nodes: Nodes) {
    AwakeIds(nodes) == {} && OutboxesEmpty(nodes)
  }

  /** A step that starts quiet reports zero without an error and leaves everything as it was. */
  lemma QuietForGood(job: Job, verts: Vertices, active: int, err: Option<VertexId>)
    requires StepResult(job, verts, active, err) && Quiet(View(job.verts, job.superstep))
    ensures active == 0 && err.None?
    ensures View(verts, job.superstep + 1) == View(job.verts, job.superstep)
  {
    hide View, Pregel, NodeAgrees, Fails, Vertex.Queue, OutboxesEmpty;
    var now := View(job.verts, job.superstep);
    NobodyFails(job.f, job.superstep, now);
    QuietStep(job.f, job.superstep, now);
  }

  lemma NobodyFails(f: ComputeFn, superstep: int, nodes: Nodes)
    requires AwakeIds(nodes) == {}
    ensures FailureFree(f, superstep, nodes)
  {
    forall id | id in nodes ensures !Awake(nodes[id]) { assert id !in AwakeIds(nodes); }
  }

  /** After a step that reports zero, the next one reports zero exactly if nothing was sent outside
      compute functions, and then it and all later ones leave the vertices, flags and queues alone. */
  lemma ZeroReported(job: Job, verts: Vertices, err: Option<VertexId>, verts': Vertices, active': int, err': Option<VertexId>)
    requires StepResult(job, verts, 0, err) && StepResult(Job(job.f, job.superstep + 1, verts), verts', active', err')
    ensures err.None?
    ensures active' == 0 <==> OutboxesEmpty(View(job.verts, job.superstep))
    ensures active' == 0 ==> err'.None? && View(verts', job.superstep + 2) == View(verts, job.superstep + 1)
    ensures active' == 0 ==> Quiet(View(verts, job.superstep + 1))
  {
    hide View, NodeAgrees, Fails, Vertex.Queue, OutboxesEmpty, Pregel, AwakeIds, FailureFree;
    var now, next := View(job.verts, job.superstep), View(verts, job.superstep + 1);
    NobodyFails(job.f, job.superstep, now);
    ZeroNext(job.f, job.superstep, now);
    if active' == 0 { QuietForGood(Job(job.f, job.superstep + 1, verts), verts', active', err'); }
  }

  lemma ZeroNext(f: ComputeFn, superstep: int, nodes: Nodes)
    requires AwakeIds(nodes) == {}
    ensures OutboxesEmpty(nodes) <==> AwakeIds(Pregel(f, superstep, nodes)) == {}
    ensures OutboxesEmpty(Pregel(f, superstep, nodes))
  {
    hide PregelRun, AwakeIds, Pregel, OutboxesEmpty;
    Quiescence(f, superstep, nodes);
    CleanOutboxes(f, superstep, nodes);
  }

  lemma CleanOutboxes(f: ComputeFn, superstep: int, nodes: Nodes)
    ensures OutboxesEmpty(Pregel(f, superstep, nodes))
  {
  }

  /** A run that starts quiet meets no failure, and every superstep of it finds nobody awake and
      changes nothing. */
  lemma QuietRun(f: ComputeFn, start: int, verts0: Vertices, maxSteps: int, answers: nat -> Answers,
                 c: nat, verts: Vertices, stop: Stop)
    requires RunResult(f, start, verts0, maxSteps, answers, c, verts, stop) && Quiet(View(verts0, start))
    ensures !stop.StepFailed? && View(verts, start + Executed(c, stop)) == View(verts0, start)
    ensures forall k: nat :: AwakeIds(PregelRun(f, start, View(verts0, start), k)) == {}
  {
    hide View, RunFailureFree, FailedAt, AwakeIds, PregelRun, FailureFree, OutboxesEmpty;
    var now := View(verts0, start);
    forall k: nat ensures PregelRun(f, start, now, k) == now { StillQuiet(f, start, now, k); }
    NobodyFails(f, start + c, now);
    assert CleanAt(f, start, now, c);
  }

  // ----- the age of messages in a run

  /** From vertices whose generations are apart, any number of error-free supersteps leads to such. */
  lemma RunGenerations(f: ComputeFn, start: int, verts0: Vertices, i: nat, verts: Vertices)
    requires Generations(verts0, start) && Progressed(f, start, verts0, i, verts)
    ensures Generations(verts, start + i)
  {
    hide PregelRun, View, RunFailureFree, Generations;
    GenerationsAges(verts0, start);
    RunAges(f, start, View(verts0, start), i);
    GenerationsAges(verts, start + i);
  }

  lemma GenerationsAges(verts: Vertices, superstep: int)
    ensures Generations(verts, superstep) <==> Ages(View(verts, superstep), superstep)
  {
    hide Vertex.Queue;
    forall u | u in verts
      ensures Tagged(verts[u].Queue(superstep), superstep - 1)
              <==> forall m :: m in View(verts, superstep)[u].inbox ==> m.sentIn == superstep - 1
      ensures Tagged(verts[u].Queue(superstep + 1), superstep)
              <==> forall m :: m in View(verts, superstep)[u].outbox ==> m.sentIn == superstep
    {
      TaggedMultiset(verts[u].Queue(superstep), superstep - 1);
      TaggedMultiset(verts[u].Queue(superstep + 1), superstep);
    }
  }

  lemma TaggedMultiset(q: seq<Envelope>, superstep: int)
    ensures Tagged(q, superstep) <==> forall m :: m in multiset(q) ==> m.sentIn == superstep
  {
    if forall m :: m in multiset(q) ==> m.sentIn == superstep {
      forall i | 0 <= i < |q| ensures q[i].sentIn == superstep { assert q[i] in multiset(q); }
    }
  }

  /** Isolation in a whole run: start from vertices whose generations are apart, as those of a new or
      reset graph are, complete any number of supersteps, and let the next one be under way. */
  lemma RunIsolation(f: ComputeFn, start: int, verts0: Vertices, i: nat, verts: Vertices,
                     n: nat, acts: seq<Action>, s: State, u: VertexId)
    requires Generations(verts0, start) && Progressed(f, start, verts0, i, verts)
    requires Reached(Job(f, start + i, verts), n, acts, s) && u in verts
    ensures u in s.verts
    ensures Tagged(s.verts[u].Queue(start + i), start + i - 1)
    ensures Tagged(s.verts[u].Queue(start + i + 1), start + i)
    ensures u !in s.started ==> s.verts[u].Queue(start + i) == verts[u].Queue(start + i)
  {
    hide Generations, Progressed, Reached, Tagged, Vertex.Queue;
    RunGenerations(f, start, verts0, i, verts);
    Isolation(Job(f, start + i, verts), n, acts, s, u);
  }
}
