/** The sink that feeds a channel's control queue without blocking and keeps a backlog. */
module NetworkSink {
  import opened Protocol

  /** The answer of `try_send`. */
  datatype TrySend = Accepted | Full | QueueClosed

  /** `queued`: everything the control queue accepted, in order. */
  datatype Sink = Sink(queued: seq<TupleBuffer>, backlog: seq<TupleBuffer>, closed: bool, panicked: bool)

  const EMPTY := Sink([], [], false, false)

  /** One call: its buffer, and the answers its attempts get, the `i`-th attempt the `i`-th answer. */
  datatype Call = Call(data: TupleBuffer, reply: nat -> TrySend)

  /** How many of `n` attempts are accepted before the first that is not. */
  function AcceptedPrefix(reply: nat -> TrySend, n: nat): (k: nat)
    ensures k <= n
    ensures forall i :: 0 <= i < k ==> reply(i).Accepted?
    ensures k < n ==> !reply(k).Accepted?
  {
    if n == 0 then 0
    else
      var k := AcceptedPrefix(reply, n - 1);
      if k == n - 1 && reply(k).Accepted? then n else k
  }

  lemma AcceptedPrefixIs(reply: nat -> TrySend, n: nat, k: nat)
    requires k <= n && (forall i :: 0 <= i < k ==> reply(i).Accepted?) && (k < n ==> !reply(k).Accepted?)
    ensures AcceptedPrefix(reply, n) == k
  {
    var j := AcceptedPrefix(reply, n);
    assert k < j ==> reply(k).Accepted?;
  }

  /** A call that drains a non-empty backlog, its own buffer included, and then goes on to send that
      buffer a second time. */
  predicate Doubles(s: Sink, c: Call) {
    s.backlog != [] && AcceptedPrefix(c.reply, |s.backlog| + 1) == |s.backlog| + 1
  }

  function SendNew(s: Sink, data: TupleBuffer, answer: TrySend): Sink {
    match answer
    case Accepted => s.(queued := s.queued + [data])
    case Full => s.(backlog := s.backlog + [data])
    case QueueClosed => s.(closed := true)
  }

  /** What one call does, without the loop. */
  function Execute(s: Sink, c: Call): Sink {
    if s.closed || s.panicked then s
    else if s.backlog == [] then SendNew(s, c.data, c.reply(0))
    else
      var line := s.backlog + [c.data];
      var k := AcceptedPrefix(c.reply, |line|);
      if k == |line| then SendNew(s.(queued := s.queued + line, backlog := []), c.data, c.reply(k))
      else if c.reply(k).Full? then s.(queued := s.queued + line[..k], backlog := line[k..])
      else s.(queued := s.queued + line[..k], backlog := line[k + 1..], panicked := true)
  }

  function After(calls: seq<Call>): Sink {
    if calls == [] then EMPTY else Execute(After(calls[..|calls| - 1]), calls[|calls| - 1])
  }

  /** The inputs in order, an element repeated in place where its call doubled it. */
  function Expected(calls: seq<Call>): seq<TupleBuffer> {
    if calls == [] then []
    else
      var init, c := calls[..|calls| - 1], calls[|calls| - 1];
      Expected(init) + if Doubles(After(init), c) then [c.data, c.data] else [c.data]
  }

  ghost predicate Open(s: Sink) { !s.closed && !s.panicked }

  lemma ExecuteKeepsLine(s: Sink, c: Call)
    requires Open(s) && Open(Execute(s, c))
    ensures var t := Execute(s, c);
      t.queued + t.backlog == s.queued + s.backlog + if Doubles(s, c) then [c.data, c.data] else [c.data]
  {
    var t, line := Execute(s, c), s.backlog + [c.data];
    if s.backlog != [] {
      var k := AcceptedPrefix(c.reply, |line|);
      if k < |line| {
        assert line == line[..k] + line[k..];
        assert t.queued + t.backlog == s.queued + line;
      } else {
        assert t.queued + t.backlog == s.queued + line + [c.data];
      }
    }
  }

  lemma OpenBefore(s: Sink, c: Call)
    requires Open(Execute(s, c))
    ensures Open(s)
  {
  }

  /** While the channel stays open nothing is lost or reordered: what was queued, then the backlog,
      is the input in order with the doubled elements in place. */
  lemma {:induction false} NothingLost(calls: seq<Call>)
    requires Open(After(calls))
    ensures After(calls).queued + After(calls).backlog == Expected(calls)
  {
    if calls != [] {
      var init, c := calls[..|calls| - 1], calls[|calls| - 1];
      hide Execute, Doubles;
      OpenBefore(After(init), c);
      NothingLost(init);
      ExecuteKeepsLine(After(init), c);
    }
  }

  /** A sink whose channel was closed drops every later input and changes no more; so does one whose call
      panicked. */
  lemma {:induction false} ClosedSinkDropsAll(calls: seq<Call>, more: seq<Call>)
    requires !Open(After(calls))
    ensures After(calls + more) == After(calls)
  {
    if more == [] {
      assert calls + more == calls;
    } else {
      var front := calls + more[..|more| - 1];
      assert (calls + more)[..|calls + more| - 1] == front;
      ClosedSinkDropsAll(calls, more[..|more| - 1]);
    }
  }

  /** The attempts of a call that meets a backlog: the queue turned out closed before all was passed on. */
  predicate FoundClosed(s: Sink, c: Call) {
    s.backlog != [] && var k := AcceptedPrefix(c.reply, |s.backlog| + 1);
                       k <= |s.backlog| && c.reply(k).QueueClosed?
  }

  /** A call panics exactly if it finds the queue closed while it drains; then exactly one element is lost,
      the one it had just taken from the front. Finding it closed with its own element only, it closes the
      sink and drops that element. */
  lemma PanicLosesOne(s: Sink, c: Call)
    requires Open(s)
    ensures var t, line := Execute(s, c), s.backlog + [c.data];
      && (t.panicked <==> FoundClosed(s, c))
      && (t.panicked ==>
            var k := AcceptedPrefix(c.reply, |line|);
            && !t.closed && t.queued == s.queued + line[..k] && [line[k]] + t.backlog == line[k..])
      && (t.closed ==> t.backlog == [] && t.queued == s.queued + (if s.backlog == [] then [] else line))
      && (t.closed <==> if s.backlog == [] then c.reply(0).QueueClosed?
                        else AcceptedPrefix(c.reply, |line|) == |line| && c.reply(|line|).QueueClosed?)
  {
  }

  lemma ExecuteAddsInOrder(s: Sink, c: Call)
    requires Open(s)
    ensures Execute(s, c).queued <= s.queued + s.backlog + if Doubles(s, c) then [c.data, c.data] else [c.data]
  {
    var t, line := Execute(s, c), s.backlog + [c.data];
    if s.backlog != [] {
      var k := AcceptedPrefix(c.reply, |line|);
      assert line == line[..k] + line[k..];
      assert t.queued + [] == t.queued;
      assert s.queued + line[..k] + line[k..] == s.queued + line;
    }
  }

  /** In every run, closed and panicked ones included, what was queued is a beginning of the inputs in
      order, with the doubled elements in place. */
  lemma {:induction false} QueuedInOrder(calls: seq<Call>)
    ensures After(calls).queued <= Expected(calls)
  {
    if calls != [] {
      var init, c := calls[..|calls| - 1], calls[|calls| - 1];
      QueuedInOrder(init);
      hide Doubles, AcceptedPrefix;
      if Open(After(init)) {
        NothingLost(init);
        ExecuteAddsInOrder(After(init), c);
      } else {
        assert Execute(After(init), c) == After(init);
      }
    }
  }

  function Inputs(calls: seq<Call>): seq<TupleBuffer> {
    if calls == [] then [] else Inputs(calls[..|calls| - 1]) + [calls[|calls| - 1].data]
  }

  ghost predicate NeverDoubles(calls: seq<Call>) {
    forall i :: 0 <= i < |calls| ==> !Doubles(After(calls[..i]), calls[i])
  }

  lemma {:induction false} NeverDoublesNext(calls: seq<Call>)
    requires calls != []
    ensures var n := |calls| - 1;
      NeverDoubles(calls) <==> NeverDoubles(calls[..n]) && !Doubles(After(calls[..n]), calls[n])
  {
    hide Doubles, After;
    var n := |calls| - 1;
    assert forall i :: 0 <= i < n ==> calls[..n][..i] == calls[..i];
  }

  lemma {:induction false} ExpectedLength(calls: seq<Call>)
    ensures |Inputs(calls)| == |calls| <= |Expected(calls)|
    ensures NeverDoubles(calls) ==> Expected(calls) == Inputs(calls)
    ensures !NeverDoubles(calls) ==> |Expected(calls)| > |calls|
  {
    if calls != [] {
      NeverDoublesNext(calls);
      hide Doubles, After, NeverDoubles;
      ExpectedLength(calls[..|calls| - 1]);
    }
  }

  /** Each input is passed on exactly once if and only if no call drained a backlog to its end. */
  lemma {:induction false} ExactlyOnceIffNeverDrained(calls: seq<Call>)
    requires Open(After(calls))
    ensures After(calls).queued + After(calls).backlog == Inputs(calls) <==> NeverDoubles(calls)
  {
    hide After, NeverDoubles;
    NothingLost(calls);
    ExpectedLength(calls);
  }

  function AlwaysFull(i: nat): TrySend { Full }

  function AlwaysAccepted(i: nat): TrySend { Accepted }

  /** Doubling happens: `b` is refused, and the next call drains it and sends its own buffer twice. */
  lemma DrainedBacklogDoubles(b: TupleBuffer, c: TupleBuffer)
    ensures var s := After([Call(b, AlwaysFull), Call(c, AlwaysAccepted)]);
      Open(s) && s.queued == [b, c, c] && s.backlog == []
  {
    var first, second := Call(b, AlwaysFull), Call(c, AlwaysAccepted);
    assert [first, second][..1] == [first] && [first][..0] == [];
    var s := Execute(EMPTY, first);
    assert After([first]) == s;
    assert s.backlog == [b];
    AcceptedPrefixIs(AlwaysAccepted, 2, 2);
    assert Execute(s, second).queued == [b, c, c];
  }

  class NetworkSink {
    var queued: seq<TupleBuffer>
    var backlog: seq<TupleBuffer>
    var closed: bool

    constructor ()
      ensures State(false) == EMPTY
    {
      queued, backlog, closed := [], [], false;
    }

    ghost function State(panicked: bool): Sink
      reads this
    {
      Sink(queued, backlog, closed, panicked)
    }

    /** Drains the backlog; ends with it empty, refused (`Full`) or with the queue closed. */
    method Drain(c: Call) returns (last: TrySend, n: nat)
      modifies this`queued, this`backlog
      ensures var line, k := old(backlog), AcceptedPrefix(c.reply, |old(backlog)|);
        && n == k
        && queued == old(queued) + line[..k]
        && (if k == |line| then last == Accepted && backlog == []
            else last == c.reply(k) && backlog == if last.Full? then line[k..] else line[k + 1..])
    {
      ghost var line, before := backlog, queued;
      n := 0;
      while backlog != []
        invariant n <= |line| && backlog == line[n..] && queued == before + line[..n]
        invariant forall i :: 0 <= i < n ==> c.reply(i).Accepted?
        decreases |backlog|
      {
        var front := backlog[0];
        backlog := backlog[1..];
        if !c.reply(n).Accepted? {
          AcceptedPrefixIs(c.reply, |line|, n);
          if c.reply(n).Full? {
            backlog := [front] + backlog;
          }
          return c.reply(n), n;
        }
        queued := queued + [front];
        n := n + 1;
      }
      AcceptedPrefixIs(c.reply, |line|, n);
      last := Accepted;
    }

    /** `panicked` is true where the source panics. */
    method Run(c: Call) returns (panicked: bool)
      modifies this
      ensures State(panicked) == Execute(old(State(false)), c)
    {
      if closed {
        return false;
      }
      var n := 0;
      if backlog != [] {
        backlog := backlog + [c.data];
        var last;
        last, n := Drain(c);
        if last.Full? {
          return false;
        }
        if last.QueueClosed? {
          return true;
        }
      }
      match c.reply(n) {
        case Full => backlog := backlog + [c.data];
        case QueueClosed => closed := true;
        case Accepted => queued := queued + [c.data];
      }
      panicked := false;
    }
  }
}
