/** What the composed stages compute, said of the processors alone. */
module PipelineMeaning {
  import opened Pipeline

  /** `qs` follows payload `p` from stage `i` on: each processor emits what the next one gets. */
  ghost predicate TraceFrom(c: Config, i: nat, p: Payload, qs: seq<Payload>)
    requires i <= c.stages
  {
    && |qs| == c.stages - i + 1 && qs[0] == p
    && forall k :: 0 <= k < c.stages - i ==> c.proc(i + k, qs[k]) == Emitted(qs[k + 1])
  }

  /** `qs` follows payload `p` through all stages. */
  ghost predicate Trace(c: Config, p: Payload, qs: seq<Payload>) {
    && |qs| == c.stages + 1 && qs[0] == p
    && forall i :: 0 <= i < c.stages ==> c.proc(i, qs[i]) == Emitted(qs[i + 1])
  }

  lemma {:induction false} TraceThrough(c: Config, i: nat, p: Payload, qs: seq<Payload>)
    requires i <= c.stages && TraceFrom(c, i, p, qs)
    ensures Through(c, i, p) == [qs[c.stages - i]]
    decreases c.stages - i
  {
    if i < c.stages {
      var rest := qs[1..];
      assert c.proc(i + 0, qs[0]) == Emitted(qs[1]);
      forall k | 0 <= k < c.stages - i - 1 ensures c.proc(i + 1 + k, rest[k]) == Emitted(rest[k + 1]) {
        assert c.proc(i + (k + 1), qs[k + 1]) == Emitted(qs[k + 2]);
      }
      TraceThrough(c, i + 1, qs[1], rest);
    }
  }

  lemma {:induction false} ThroughTrace(c: Config, i: nat, p: Payload) returns (qs: seq<Payload>)
    requires i <= c.stages && Through(c, i, p) != []
    ensures TraceFrom(c, i, p, qs)
    decreases c.stages - i
  {
    if i == c.stages {
      qs := [p];
    } else {
      var q := c.proc(i, p).p;
      var rest := ThroughTrace(c, i + 1, q);
      qs := [p] + rest;
      forall k | 0 <= k < c.stages - i ensures c.proc(i + k, qs[k]) == Emitted(qs[k + 1]) {
        if k > 0 { assert c.proc(i + 1 + (k - 1), rest[k - 1]) == Emitted(rest[k]); }
      }
    }
  }

  lemma TraceIsTraceFrom(c: Config, p: Payload, qs: seq<Payload>)
    ensures Trace(c, p, qs) <==> TraceFrom(c, 0, p, qs)
  {
    if TraceFrom(c, 0, p, qs) {
      forall i | 0 <= i < c.stages ensures c.proc(i, qs[i]) == Emitted(qs[i + 1]) {
        assert c.proc(0 + i, qs[i]) == Emitted(qs[i + 1]);
      }
    }
  }

  /** A payload that has a trace comes out as the end of it, and one that has none does not come out. */
  lemma OneTrace(c: Config, p: Payload, reports: bool)
    ensures forall qs :: Trace(c, p, qs) ==> All(c, [Item(p, reports)]) == [qs[c.stages]]
    ensures (forall qs :: !Trace(c, p, qs)) ==> All(c, [Item(p, reports)]) == []
  {
    hide Through;
    var item := Item(p, reports);
    assert All(c, [item]) == Through(c, 0, p) by { assert [item][1..] == []; }
    forall qs | Trace(c, p, qs) ensures All(c, [item]) == [qs[c.stages]] {
      TraceIsTraceFrom(c, p, qs);
      TraceThrough(c, 0, p, qs);
    }
    if Through(c, 0, p) != [] {
      var qs := ThroughTrace(c, 0, p);
      TraceIsTraceFrom(c, p, qs);
    }
  }

  lemma {:induction false} AllConcat(c: Config, items: seq<Item>, more: seq<Item>)
    ensures All(c, items + more) == All(c, items) + All(c, more)
  {
    if items == [] {
      assert items + more == more;
    } else {
      assert (items + more)[1..] == items[1..] + more;
      AllConcat(c, items[1..], more);
    }
  }

  /** `out` lists, in the order of `items`, the ends of the traces of those payloads that have one. */
  ghost predicate Ends(c: Config, items: seq<Item>, out: seq<Payload>)
    decreases |items|
  {
    if items == [] then out == []
    else if exists qs :: Trace(c, items[0].payload, qs) then
      out != [] && Ends(c, items[1..], out[1..]) && exists qs :: Trace(c, items[0].payload, qs) && out[0] == qs[c.stages]
    else Ends(c, items[1..], out)
  }

  /** The composed pipeline lists the trace ends, and nothing else does. */
  lemma {:induction false} EndsAreAll(c: Config, items: seq<Item>, out: seq<Payload>)
    ensures Ends(c, items, out) <==> out == All(c, items)
    decreases |items|
  {
    hide Through;
    if items != [] {
      var p := items[0].payload;
      OneTrace(c, p, items[0].reports);
      AllConcat(c, [items[0]], items[1..]);
      assert items == [items[0]] + items[1..] && items[0] == Item(p, items[0].reports);
      var first, rest := All(c, [items[0]]), All(c, items[1..]);
      if qs :| Trace(c, p, qs) {
        assert first == [qs[c.stages]];
        if out != [] { EndsAreAll(c, items[1..], out[1..]); }
        assert out == first + rest <==> out != [] && out[0] == first[0] && out[1..] == rest;
      } else {
        EndsAreAll(c, items[1..], out);
      }
    }
  }
}
