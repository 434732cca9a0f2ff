/** The in-memory message queue of the graph engine, which is its own iterator. */
module Queue {

  function Newest<T>(q: seq<T>): T
    requires q != []
  {
    q[|q| - 1]
  }

  /** The queue without its newest message. */
  function Rest<T>(q: seq<T>): (r: seq<T>)
    requires q != []
    ensures q == r + [Newest(q)]
  {
    q[..|q| - 1]
  }

  function Reversed<T>(s: seq<T>): (r: seq<T>)
    ensures |r| == |s|
  {
    if s == [] then [] else [s[|s| - 1]] + Reversed(s[..|s| - 1])
  }

  lemma {:induction false} ReversedIsPermutation<T>(s: seq<T>)
    ensures multiset(Reversed(s)) == multiset(s)
  {
    if s != [] {
      ReversedIsPermutation(s[..|s| - 1]);
      assert s == s[..|s| - 1] + [s[|s| - 1]];
    }
  }

  lemma {:induction false} ReversedAt<T>(s: seq<T>, i: nat)
    requires i < |s|
    ensures Reversed(s)[i] == s[|s| - 1 - i]
  {
    if i > 0 { ReversedAt(s[..|s| - 1], i - 1); }
  }

  lemma ReversedSnoc<T>(s: seq<T>, x: T)
    ensures Reversed(s + [x]) == [x] + Reversed(s) && Reversed<T>([]) == []
  {
    assert (s + [x])[..|s|] == s;
  }

  /** Messages come out in the order opposite to that in which they went in, each once. */
  class InMemoryQueue<T(==)> {
    var msgs: seq<T>
    var latchedMsg: T

    constructor (zero: T)
      ensures msgs == [] && latchedMsg == zero
    {
      msgs, latchedMsg := [], zero;
    }

    method Enqueue(msg: T)
      modifies this`msgs
      ensures msgs == old(msgs) + [msg]
    {
      msgs := msgs + [msg];
    }

    method PendingMessages() returns (pending: bool)
      ensures pending <==> msgs != []
    {
      return |msgs| != 0;
    }

    method DiscardMessages()
      modifies this`msgs
      ensures msgs == []
    {
      msgs := msgs[..0];
    }

    method Next() returns (more: bool)
      modifies this
      ensures more <==> old(msgs) != []
      ensures more ==> msgs == Rest(old(msgs)) && latchedMsg == Newest(old(msgs))
      ensures !more ==> msgs == old(msgs) && latchedMsg == old(latchedMsg)
    {
      var qLen := |msgs|;
      if qLen == 0 { return false; }
      latchedMsg := msgs[qLen - 1];
      msgs := msgs[..qLen - 1];
      return true;
    }

    method Message() returns (msg: T)
      ensures msg == latchedMsg
    {
      return latchedMsg;
    }

    /** What a compute function reads when it takes every message. */
    method Drain() returns (read: seq<T>)
      modifies this
      ensures msgs == [] && read == Reversed(old(msgs)) && multiset(read) == multiset(old(msgs))
    {
      hide Reversed, Rest, Newest;
      ReversedIsPermutation(msgs);
      read := [];
      ghost var all, rest := Reversed(msgs), msgs;
      var more := Next();
      while more
        invariant more ==> rest == msgs + [latchedMsg]
        invariant !more ==> rest == [] && msgs == []
        invariant all == read + Reversed(rest)
        decreases more, |msgs|
      {
        var msg := Message();
        ReversedSnoc(msgs, msg);
        read, rest := read + [msg], msgs;
        more := Next();
      }
      ReversedSnoc([], latchedMsg);
    }
  }
}
