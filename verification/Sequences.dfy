/** Facts about sequences of buffers: subsequences, deletion, distinct keys, and sizes. */
module Sequences {
  import opened Protocol

  /** `a` is `b` with elements left out: nothing reordered, nothing repeated, nothing invented. */
  predicate Subsequence<T(==)>(a: seq<T>, b: seq<T>)
    decreases |b|
  {
    if a == [] then true
    else if b == [] then false
    else
      var m, n := |a| - 1, |b| - 1;
      (a[m] == b[n] && Subsequence(a[..m], b[..n])) || Subsequence(a, b[..n])
  }

  /** The positions `a` occupies in `b`: the reading of `Subsequence` that needs no recursion. */
  lemma {:induction false} SubsequencePositions<T>(a: seq<T>, b: seq<T>) returns (at: seq<nat>)
    requires Subsequence(a, b)
    ensures |at| == |a|
    ensures forall i :: 0 <= i < |a| ==> at[i] < |b| && b[at[i]] == a[i]
    ensures forall i, j :: 0 <= i < j < |at| ==> at[i] < at[j]
    decreases |b|
  {
    if a == [] {
      at := [];
    } else {
      var m, n := |a| - 1, |b| - 1;
      if a[m] == b[n] && Subsequence(a[..m], b[..n]) {
        var init := SubsequencePositions(a[..m], b[..n]);
        at := init + [n];
      } else {
        at := SubsequencePositions(a, b[..n]);
      }
    }
  }

  lemma {:induction false} SubsequenceConcat<T>(a: seq<T>, b: seq<T>, c: seq<T>, d: seq<T>)
    requires Subsequence(a, b) && Subsequence(c, d)
    ensures Subsequence(a + c, b + d)
    decreases |d|
  {
    if d == [] {
      assert a + c == a && b + d == b;
    } else {
      var n := |d| - 1;
      assert (b + d)[..|b + d| - 1] == b + d[..n];
      if c != [] && c[|c| - 1] == d[n] && Subsequence(c[..|c| - 1], d[..n]) {
        assert (a + c)[..|a + c| - 1] == a + c[..|c| - 1];
        SubsequenceConcat(a, b, c[..|c| - 1], d[..n]);
      } else {
        SubsequenceConcat(a, b, c, d[..n]);
      }
    }
  }

  lemma {:induction false} SubsequenceFront<T>(a: seq<T>, rest: seq<T>, b: seq<T>)
    requires Subsequence(a + rest, b)
    ensures Subsequence(a, b)
    decreases |b|
  {
    if rest == [] {
      assert a + rest == a;
    } else if a != [] {
      var whole, n := a + rest, |b| - 1;
      if whole[|whole| - 1] == b[n] && Subsequence(whole[..|whole| - 1], b[..n]) {
        assert whole[..|whole| - 1] == a + rest[..|rest| - 1];
        SubsequenceFront(a, rest[..|rest| - 1], b[..n]);
      } else {
        SubsequenceFront(a, rest, b[..n]);
      }
    }
  }

  /** `s` without the elements in `lost`. */
  function Without<T(==)>(s: seq<T>, lost: set<T>): seq<T> {
    if s == [] then []
    else Without(s[..|s| - 1], lost) + if s[|s| - 1] in lost then [] else [s[|s| - 1]]
  }

  lemma {:induction false} WithoutIsSubsequence<T>(s: seq<T>, lost: set<T>)
    ensures Subsequence(Without(s, lost), s)
  {
    if s != [] {
      var init, last := s[..|s| - 1], s[|s| - 1];
      WithoutIsSubsequence(init, lost);
      if last !in lost {
        var w := Without(s, lost);
        assert w[..|w| - 1] == Without(init, lost);
      } else {
        assert Without(s, lost) == Without(init, lost);
      }
    }
  }

  lemma {:induction false} WithoutNothing<T>(s: seq<T>)
    ensures Without(s, {}) == s
  {
    if s != [] {
      WithoutNothing(s[..|s| - 1]);
    }
  }

  lemma {:induction false} WithoutMembers<T>(s: seq<T>, lost: set<T>, x: T)
    ensures x in Without(s, lost) <==> x in s && x !in lost
  {
    if s != [] {
      WithoutMembers(s[..|s| - 1], lost, x);
      assert s == s[..|s| - 1] + [s[|s| - 1]];
    }
  }

  lemma {:induction false} WithoutConcat<T>(a: seq<T>, b: seq<T>, lost: set<T>)
    ensures Without(a + b, lost) == Without(a, lost) + Without(b, lost)
  {
    if b == [] {
      assert a + b == a;
    } else {
      assert (a + b)[..|a + b| - 1] == a + b[..|b| - 1];
      WithoutConcat(a, b[..|b| - 1], lost);
    }
  }

  lemma {:induction false} WithoutAbsent<T>(s: seq<T>, lost: set<T>)
    requires forall x :: x in s ==> x !in lost
    ensures Without(s, lost) == s
  {
    if s != [] {
      WithoutAbsent(s[..|s| - 1], lost);
    }
  }

  lemma {:induction false} WithoutTwice<T>(s: seq<T>, lost: set<T>, more: set<T>)
    ensures Without(Without(s, lost), more) == Without(s, lost + more)
  {
    if s != [] {
      var init, last := s[..|s| - 1], s[|s| - 1];
      WithoutTwice(init, lost, more);
      WithoutConcat(Without(init, lost), if last in lost then [] else [last], more);
    }
  }

  lemma {:induction false} SubsetSize<T>(a: set<T>, b: set<T>)
    requires a <= b
    ensures |a| <= |b| && (|a| == |b| ==> a == b)
  {
    if a != {} {
      var x :| x in a;
      SubsetSize(a - {x}, b - {x});
    } else if |b| == 0 {
      assert b == {};
    }
  }

  ghost predicate DistinctKeys(s: seq<TupleBuffer>) {
    forall i, j :: 0 <= i < j < |s| ==> s[i].Sequence() != s[j].Sequence()
  }

  lemma {:induction false} WithoutDistinct(s: seq<TupleBuffer>, lost: set<TupleBuffer>)
    requires DistinctKeys(s)
    ensures DistinctKeys(Without(s, lost))
  {
    if s != [] {
      var init, last := s[..|s| - 1], s[|s| - 1];
      WithoutDistinct(init, lost);
      forall x | x in Without(init, lost)
        ensures x.Sequence() != last.Sequence()
      {
        WithoutMembers(init, lost, x);
      }
    }
  }

  lemma WithoutOnly<T>(x: T)
    ensures Without([x], {x}) == []
  {
    assert [x][..0] == [];
  }

  /** Losing one more buffer takes exactly that buffer out of what remains. */
  lemma WithoutOneMore(s: seq<TupleBuffer>, lost: set<TupleBuffer>,
                       before: seq<TupleBuffer>, b: TupleBuffer, after: seq<TupleBuffer>)
    requires DistinctKeys(s)
    requires Without(s, lost) == before + [b] + after
    ensures Without(s, lost + {b}) == before + after
  {
    hide Without;
    var line := before + [b] + after;
    WithoutDistinct(s, lost);
    forall x | x in before ensures x != b {
      var i :| 0 <= i < |before| && before[i] == x;
      assert line[i] == x && line[|before|] == b;
    }
    forall x | x in after ensures x != b {
      var i :| 0 <= i < |after| && after[i] == x;
      assert line[|before| + 1 + i] == x && line[|before|] == b;
    }
    WithoutTwice(s, lost, {b});
    WithoutConcat(before + [b], after, {b});
    WithoutConcat(before, [b], {b});
    WithoutAbsent(before, {b});
    WithoutAbsent(after, {b});
    WithoutOnly(b);
  }

  /** The buffers carried by a run of requests, in order. */
  function DataOf(requests: seq<DataChannelRequest>): seq<TupleBuffer> {
    if requests == [] then []
    else DataOf(requests[..|requests| - 1]) +
         match requests[|requests| - 1] { case Data(b) => [b] case Close => [] }
  }

  lemma {:induction false} DataOfConcat(a: seq<DataChannelRequest>, b: seq<DataChannelRequest>)
    ensures DataOf(a + b) == DataOf(a) + DataOf(b)
  {
    if b == [] {
      assert a + b == a;
    } else {
      assert (a + b)[..|a + b| - 1] == a + b[..|b| - 1];
      DataOfConcat(a, b[..|b| - 1]);
    }
  }

  lemma DataOfNothing()
    ensures DataOf([]) == []
  {
  }

  lemma DataOfOne(q: DataChannelRequest)
    ensures DataOf([q]) == if q.Data? then [q.buffer] else []
  {
    assert [q][..0] == [];
  }

  /** The acknowledgements carried by a run of responses, in order. */
  function AcksOf(responses: seq<DataChannelResponse>): seq<Sequence> {
    if responses == [] then []
    else AcksOf(responses[..|responses| - 1]) +
         if responses[|responses| - 1].AckData? then [responses[|responses| - 1].ack] else []
  }

  lemma {:induction false} AcksOfConcat(a: seq<DataChannelResponse>, b: seq<DataChannelResponse>)
    ensures AcksOf(a + b) == AcksOf(a) + AcksOf(b)
  {
    if b == [] {
      assert a + b == a;
    } else {
      assert (a + b)[..|a + b| - 1] == a + b[..|b| - 1];
      AcksOfConcat(a, b[..|b| - 1]);
    }
  }

  lemma AcksOfOne(r: DataChannelResponse)
    ensures AcksOf([r]) == if r.AckData? then [r.ack] else []
  {
    assert [r][..0] == [];
  }
}
