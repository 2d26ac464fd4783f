/** What the sending handler puts on its stream, and how far it goes ahead of the acknowledgements. */
module SenderWindow {
  import opened Protocol
  import opened Sequences
  import opened SenderHandler

  /** One data frame for each buffer, in order. */
  function FramesFor(buffers: seq<TupleBuffer>): seq<DataChannelRequest> {
    seq(|buffers|, i requires 0 <= i < |buffers| => Data(buffers[i]))
  }

  function Sends(n: nat): (script: seq<Event>)
    ensures |script| == n
  {
    seq(n, i => Send(Fed))
  }

  function Takes(buffers: seq<TupleBuffer>): (script: seq<Event>)
    ensures |script| == |buffers|
  {
    seq(|buffers|, i requires 0 <= i < |buffers| => Take(DataMessage(buffers[i]), false))
  }

  lemma {:induction false} AfterConcat(s: Sender, a: seq<Event>, b: seq<Event>)
    ensures After(s, a + b) == After(After(s, a), b)
  {
    hide Step;
    if b == [] {
      assert a + b == a;
    } else {
      AfterConcat(s, a, b[..|b| - 1]);
      assert (a + b)[..|a + b| - 1] == a + b[..|b| - 1];
    }
  }

  lemma AfterOne(s: Sender, e: Event)
    ensures After(s, [e]) == Step(s, e)
  {
    assert [e][..0] == [];
  }

  // ----- Going ahead

  lemma FeedOne(s: Sender)
    requires s.at.Running? && s.pending != [] && |s.waiting| < MAX_PENDING_ACKS
    requires s.pending[0].Sequence() !in s.waiting
    ensures var t := Step(s, Send(Fed));
      && t == s.(pending := s.pending[1..], outbox := s.outbox + [Data(s.pending[0])],
                 waiting := s.waiting[s.pending[0].Sequence() := s.pending[0]])
      && |t.waiting| == |s.waiting| + 1
  {
    var t := Step(s, Send(Fed));
    assert t.waiting.Keys == s.waiting.Keys + {s.pending[0].Sequence()};
  }

  /** The buffers put under their keys, one after another. */
  function Awaiting(waiting: map<Sequence, TupleBuffer>, buffers: seq<TupleBuffer>): map<Sequence, TupleBuffer> {
    if buffers == [] then waiting
    else
      var n := |buffers| - 1;
      Awaiting(waiting, buffers[..n])[buffers[n].Sequence() := buffers[n]]
  }

  function KeysOf(buffers: seq<TupleBuffer>): set<Sequence> {
    set b | b in buffers :: b.Sequence()
  }

  lemma KeysOfMore(buffers: seq<TupleBuffer>)
    requires buffers != []
    ensures var n := |buffers| - 1;
      && KeysOf(buffers) == KeysOf(buffers[..n]) + {buffers[n].Sequence()}
      && (DistinctKeys(buffers) ==> buffers[n].Sequence() !in KeysOf(buffers[..n]))
  {
    var n := |buffers| - 1;
    assert buffers == buffers[..n] + [buffers[n]];
  }

  /** The keys of the buffers, none of them awaited and no two alike. */
  ghost predicate Fresh(buffers: seq<TupleBuffer>, waiting: map<Sequence, TupleBuffer>) {
    DistinctKeys(buffers) && KeysOf(buffers) !! waiting.Keys
  }

  lemma FreshFront(buffers: seq<TupleBuffer>, waiting: map<Sequence, TupleBuffer>)
    requires Fresh(buffers, waiting) && buffers != []
    ensures var n := |buffers| - 1;
      && Fresh(buffers[..n], waiting) && buffers[n].Sequence() !in waiting
      && buffers[n].Sequence() !in KeysOf(buffers[..n])
      && KeysOf(buffers) == KeysOf(buffers[..n]) + {buffers[n].Sequence()}
  {
    KeysOfMore(buffers);
    hide KeysOf;
    var n := |buffers| - 1;
    assert buffers[n].Sequence() in KeysOf(buffers);
  }

  lemma AddKey(m: map<Sequence, TupleBuffer>, q: Sequence, b: TupleBuffer)
    requires q !in m
    ensures m[q := b].Keys == m.Keys + {q} && |m[q := b]| == |m| + 1
  {
    assert m[q := b].Keys == m.Keys + {q};
  }

  lemma NothingAwaited(waiting: map<Sequence, TupleBuffer>)
    ensures KeysOf([]) == {} && Awaiting(waiting, []) == waiting
  {
  }

  lemma AwaitingMore(waiting: map<Sequence, TupleBuffer>, buffers: seq<TupleBuffer>)
    requires buffers != []
    ensures var n := |buffers| - 1;
      Awaiting(waiting, buffers) == Awaiting(waiting, buffers[..n])[buffers[n].Sequence() := buffers[n]]
  {
  }

  lemma {:induction false} AwaitingKeys(waiting: map<Sequence, TupleBuffer>, buffers: seq<TupleBuffer>)
    requires Fresh(buffers, waiting)
    ensures var all := Awaiting(waiting, buffers);
      all.Keys == waiting.Keys + KeysOf(buffers) && |all| == |waiting| + |buffers|
  {
    hide KeysOf, DistinctKeys, Fresh, Awaiting;
    if buffers == [] {
      NothingAwaited(waiting);
    } else {
      var n := |buffers| - 1;
      FreshFront(buffers, waiting);
      AwaitingKeys(waiting, buffers[..n]);
      AwaitingMore(waiting, buffers);
      AddKey(Awaiting(waiting, buffers[..n]), buffers[n].Sequence(), buffers[n]);
    }
  }

  /** The last of the buffers is awaited under its key. */
  lemma LastIsAwaited(waiting: map<Sequence, TupleBuffer>, buffers: seq<TupleBuffer>)
    requires buffers != []
    ensures var b := buffers[|buffers| - 1];
      b.Sequence() in Awaiting(waiting, buffers) && Awaiting(waiting, buffers)[b.Sequence()] == b
  {
  }

  lemma FeedNext(s: Sender, t: Sender, n: nat)
    requires s.at.Running? && n < |s.pending| && |t.waiting| < MAX_PENDING_ACKS
    requires s.pending[n].Sequence() !in t.waiting
    requires t == s.(pending := s.pending[n..], outbox := s.outbox + FramesFor(s.pending[..n]),
                     waiting := Awaiting(s.waiting, s.pending[..n]))
    ensures Step(t, Send(Fed)) ==
            s.(pending := s.pending[n + 1..], outbox := s.outbox + FramesFor(s.pending[..n + 1]),
               waiting := Awaiting(s.waiting, s.pending[..n + 1]))
  {
    FeedOne(t);
    assert s.pending[..n + 1][..n] == s.pending[..n];
    assert FramesFor(s.pending[..n + 1]) == FramesFor(s.pending[..n]) + [Data(s.pending[n])];
  }

  /** Without reading a single answer, `run` sends its pending buffers in order as long as no more than the
      window are awaited; each is then awaited under its own key. */
  lemma {:induction false} SendsAhead(s: Sender, n: nat)
    requires s.at.Running? && n <= |s.pending| && |s.waiting| + n <= MAX_PENDING_ACKS
    requires Fresh(s.pending[..n], s.waiting)
    ensures After(s, Sends(n)) ==
            s.(pending := s.pending[n..], outbox := s.outbox + FramesFor(s.pending[..n]),
               waiting := Awaiting(s.waiting, s.pending[..n]))
  {
    hide Step;
    if n == 0 {
      assert Sends(0) == [] && s.outbox + FramesFor([]) == s.outbox && s.pending[0..] == s.pending;
    } else {
      var front := s.pending[..n];
      FreshFront(front, s.waiting);
      hide Fresh, KeysOf, Awaiting, FramesFor;
      assert front[..n - 1] == s.pending[..n - 1];
      SendsAhead(s, n - 1);
      assert Sends(n)[..n - 1] == Sends(n - 1);
      AwaitingKeys(s.waiting, s.pending[..n - 1]);
      hide After;
      FeedNext(s, After(s, Sends(n - 1)), n - 1);
    }
  }

  lemma AllFresh(buffers: seq<TupleBuffer>)
    requires DistinctKeys(buffers)
    ensures Fresh(buffers, map[])
  {
  }

  lemma TakeOne(s: Sender, b: TupleBuffer, written: bool)
    requires s.at.Running?
    ensures Step(s, Take(DataMessage(b), written)) == s.(pending := s.pending + [b])
  {
  }

  lemma {:induction false} TakesAll(s: Sender, buffers: seq<TupleBuffer>)
    requires s.at.Running?
    ensures After(s, Takes(buffers)) == s.(pending := s.pending + buffers)
    decreases |buffers|
  {
    hide Step;
    if buffers == [] {
      assert s.pending + buffers == s.pending;
    } else {
      var n := |buffers| - 1;
      TakesAll(s, buffers[..n]);
      assert Takes(buffers)[..n] == Takes(buffers[..n]);
      TakeOne(After(s, Takes(buffers[..n])), buffers[n], false);
      assert s.pending + buffers == s.pending + buffers[..n] + [buffers[n]];
    }
  }

  /** The whole window is used: any 64 buffers with different keys are taken and sent, in order, before
      anything is answered; and then no more. */
  lemma WindowFills(buffers: seq<TupleBuffer>, more: TupleBuffer, feed: Feed)
    requires |buffers| == 64 && DistinctKeys(buffers)
    ensures var t := After(FRESH_SENDER, Takes(buffers) + Sends(64));
      && t.at.Running? && t.pending == [] && t.outbox == FramesFor(buffers) && |t.waiting| == 64
      && var u := Step(t, Take(DataMessage(more), false));
         u.pending == [more] && Step(u, Send(feed)) == u
  {
    hide After, Awaiting, FramesFor, Takes, Sends, DistinctKeys, KeysOf;
    var s := After(FRESH_SENDER, Takes(buffers));
    TakesAll(FRESH_SENDER, buffers);
    assert s == FRESH_SENDER.(pending := buffers);
    AllFresh(buffers);
    hide Fresh;
    assert s.pending[..MAX_PENDING_ACKS] == buffers;
    SendsAhead(s, MAX_PENDING_ACKS);
    AfterConcat(FRESH_SENDER, Takes(buffers), Sends(MAX_PENDING_ACKS));
    assert buffers[..MAX_PENDING_ACKS] == buffers && s.outbox + FramesFor(buffers) == FramesFor(buffers);
    AwaitingKeys(s.waiting, buffers);
    TakeOne(After(s, Sends(MAX_PENDING_ACKS)), more, false);
  }

  // ----- Answers

  /** What an answer does to a handler that waits for one: acknowledged and refused buffers leave the
      window, a refused one goes behind all that is pending, anything else is a protocol error. */
  lemma AnswerEffect(s: Sender, q: Sequence)
    requires s.at.Running?
    ensures var t := Step(s, Respond(AckData(q)));
      if q in s.waiting then t == s.(waiting := s.waiting - {q}) else t == s.(at := Stopped(ProtocolError(q)))
    ensures var t := Step(s, Respond(NAckData(q)));
      if q in s.waiting then t == s.(waiting := s.waiting - {q}, pending := s.pending + [s.waiting[q]])
      else t == s.(at := Stopped(ProtocolError(q)))
  {
  }

  lemma RefusedIsFresh(s: Sender, q: Sequence)
    requires q in s.waiting && s.waiting[q].Sequence() == q && Fresh(s.pending, s.waiting)
    ensures Fresh(s.pending + [s.waiting[q]], s.waiting - {q}) && |s.waiting - {q}| == |s.waiting| - 1
  {
    var all := s.pending + [s.waiting[q]];
    assert all[..|all| - 1] == s.pending;
    KeysOfMore(all);
    assert (s.waiting - {q}).Keys == s.waiting.Keys - {q};
    forall i | 0 <= i < |s.pending| ensures s.pending[i].Sequence() != q {
      assert s.pending[i].Sequence() in KeysOf(s.pending);
    }
  }

  /** A refused buffer is sent again after all that was pending, and nothing else is repeated. */
  lemma RefusedIsSentLast(s: Sender, q: Sequence)
    requires s.at.Running? && q in s.waiting && s.waiting[q].Sequence() == q
    requires |s.waiting| + |s.pending| <= MAX_PENDING_ACKS && Fresh(s.pending, s.waiting)
    ensures var t := After(s, [Respond(NAckData(q))] + Sends(|s.pending| + 1));
      t.outbox == s.outbox + FramesFor(s.pending + [s.waiting[q]]) && t.pending == []
      && q in t.waiting && t.waiting[q] == s.waiting[q]
  {
    AnswerEffect(s, q);
    RefusedIsFresh(s, q);
    hide Step, After, Fresh, FramesFor, Awaiting, Sends;
    var u, all := Step(s, Respond(NAckData(q))), s.pending + [s.waiting[q]];
    assert u.pending == all;
    SendsAhead(u, |all|);
    AfterOne(s, Respond(NAckData(q)));
    AfterConcat(s, [Respond(NAckData(q))], Sends(|all|));
    assert all[..|all|] == all;
    LastIsAwaited(u.waiting, all);
  }

  /** A feed the writer refuses leaves the buffer in front, and its key is not awaited. */
  lemma RefusedFeedIsUndone(s: Sender)
    requires s.at.Running? && s.pending != [] && |s.waiting| < MAX_PENDING_ACKS
    ensures Step(s, Send(Refused)) == s.(waiting := s.waiting - {s.pending[0].Sequence()})
    ensures s.pending[0].Sequence() !in s.waiting ==> Step(s, Send(Refused)) == s
  {
    assert s.pending[0].Sequence() !in s.waiting ==> s.waiting - {s.pending[0].Sequence()} == s.waiting;
  }

  // ----- Inside a flush

  /** A flush takes nothing from the control queue and does not notice that it is gone; and until its writer
      has been flushed, no answer, no end of the stream and no cancellation has any effect. */
  lemma FlushDefers(s: Sender, e: Event)
    requires s.at.Flushing?
    ensures e.Take? || e.QueueClosed? ==> Step(s, e) == s
    ensures !s.at.synced && !e.Sync? && !e.Drain? ==> Step(s, e) == s
    ensures s.at.synced && e.Sync? ==> Step(s, e) == s
  {
  }

  /** So a cancellation is honoured once the writer has been flushed, and an answer is read. */
  lemma FlushedSelects(s: Sender, q: Sequence)
    requires s.at.Flushing? && q in s.waiting
    ensures var t := Step(s, Sync(true));
      !s.at.synced ==>
        && t == s.(socket := s.socket + s.outbox, outbox := [], at := Flushing(s.at.done, true))
        && Step(t, Cancel).at == Stopped(Cancelled)
        && Step(t, Respond(AckData(q))).waiting == s.waiting - {q}
        && Step(t, Respond(AckData(q))).pending == s.pending
  {
  }
}
