/** Closing a channel, over all its sessions: when a `Close` read by the receiver means that everything
    produced was delivered. */
module ChannelClose {
  import opened Protocol
  import opened Sequences
  import opened Channel
  import P = Session
  import SR = SessionRuns
  import CR = ChannelRecovery
  import S = SenderHandler
  import R = ReceiverHandler

  /** Nothing of the session is under way, pending or lost. */
  ghost predicate Complete(s: P.Session) { P.PipeOf(s) == [] && s.snd.pending == [] && s.lost == {} }

  lemma CompleteIff(s: P.Session)
    requires SR.Invariant(s)
    ensures Complete(s) <==> s.rcv.got == s.taken
    ensures |s.rcv.got| <= |s.taken|
  {
    hide SR.Invariant, P.PipeOf;
    SR.GotAllIff(s);
  }

  ghost predicate AllComplete(sessions: seq<P.Session>) { forall i :: 0 <= i < |sessions| ==> Complete(sessions[i]) }

  lemma AllCompleteFront(sessions: seq<P.Session>)
    requires sessions != []
    ensures var n := |sessions| - 1;
      AllComplete(sessions) <==> AllComplete(sessions[..n]) && Complete(sessions[n])
  {
    hide Complete;
    var n := |sessions| - 1;
    assert forall i :: 0 <= i < n ==> sessions[..n][i] == sessions[i];
  }

  lemma NoSessions()
    ensures Delivered([]) == Taken([]) && AllComplete([])
  {
  }

  lemma {:induction false} TotalsAgreeIff(sessions: seq<P.Session>)
    requires forall i :: 0 <= i < |sessions| ==> SR.Invariant(sessions[i])
    ensures Delivered(sessions) == Taken(sessions) <==> AllComplete(sessions)
    ensures |Delivered(sessions)| <= |Taken(sessions)|
  {
    hide *;
    if sessions == [] {
      NoSessions();
    } else {
      var front, last := sessions[..|sessions| - 1], sessions[|sessions| - 1];
      TotalsAgreeIff(front);
      CompleteIff(last);
      LastChanged(sessions, last);
      AllCompleteFront(sessions);
      PartsAgree(Delivered(front), last.rcv.got, Taken(front), last.taken);
    }
  }

  lemma PartsAgree(a: seq<TupleBuffer>, b: seq<TupleBuffer>, c: seq<TupleBuffer>, d: seq<TupleBuffer>)
    requires |a| <= |c| && |b| <= |d|
    ensures a + b == c + d <==> a == c && b == d
  {
    if a + b == c + d {
      assert |a| == |c|;
      assert a == (a + b)[..|a|] && c == (c + d)[..|a|];
      assert b == (a + b)[|a|..] && d == (c + d)[|a|..];
    }
  }

  /** In every state: all that was produced has been delivered exactly if the queue holds no buffer and
      every session, the lost ones included, is complete. */
  lemma AllDeliveredIff(run: seq<Label>)
    ensures var st := After(INIT, run);
      st.delivered == st.produced <==>
      DataIn(st.queue) == [] && AllComplete(st.sessions)
  {
    RunInv(run);
    var st := After(INIT, run);
    hide After, SR.Invariant, AllComplete, Delivered, Taken, DataIn, DistinctKeys, OneAtATime;
    TotalsAgreeIff(st.sessions);
    PartsAgree(Delivered(st.sessions), [], Taken(st.sessions), DataIn(st.queue));
    assert Delivered(st.sessions) + [] == st.delivered;
  }

  // ----- A terminated sender is over

  /** Only the newest session can have terminated, and then the sender is over. */
  ghost predicate TerminatedIsOver(st: State) {
    forall i :: 0 <= i < |st.sessions| && st.sessions[i].snd.at == S.Stopped(S.Terminated) ==>
      i == |st.sessions| - 1 && st.phase.Over?
  }

  lemma ReceiverKeepsSender(s: P.Session, e: R.Event)
    ensures P.Next(s, P.Receiver(e)).snd == s.snd
  {
  }

  lemma SendStaysOver(st: State, e: S.Event)
    requires OneAtATime(st) && TerminatedIsOver(st)
    ensures TerminatedIsOver(SendStep(st, e))
  {
    hide P.Next, P.Enabled;
  }

  lemma ReceiveStaysOver(st: State, e: R.Event)
    requires TerminatedIsOver(st)
    ensures TerminatedIsOver(ReceiveStep(st, e))
  {
    hide P.Next, P.Enabled;
    if CanReceive(st, e) {
      ReceiverKeepsSender(st.sessions[st.holder.c], e);
    }
  }

  lemma NegotiateStaysOver(st: State, l: Label)
    requires TerminatedIsOver(st)
    ensures TerminatedIsOver(Negotiate(st, l))
  {
    hide P.Next;
    if l.Resolve? && l.conn in st.unresolved && l.conn < |st.sessions| {
      ReceiverKeepsSender(st.sessions[l.conn], R.Attached);
    }
  }

  lemma StaysOver(st: State, l: Label)
    requires OneAtATime(st) && TerminatedIsOver(st)
    ensures TerminatedIsOver(Step(st, l))
  {
    hide OneAtATime, SendStep, ReceiveStep, Negotiate;
    match l
    case Send(e) => SendStaysOver(st, e);
    case Receive(e) => ReceiveStaysOver(st, e);
    case Produce(_) =>
    case Consume =>
    case CloseQueue =>
    case _ => NegotiateStaysOver(st, l);
  }

  lemma {:induction false} AlwaysOver(run: seq<Label>)
    ensures TerminatedIsOver(After(INIT, run))
  {
    hide Step, OneAtATime, TerminatedIsOver;
    if run == [] {
      NothingTerminated();
    } else {
      var init, l := run[..|run| - 1], run[|run| - 1];
      AlwaysOver(init);
      AlwaysReturned(init);
      StaysOver(After(INIT, init), l);
    }
  }

  lemma NothingTerminated()
    ensures TerminatedIsOver(INIT)
  {
  }

  /** When the receiver has read `Close` in session `i`, that session is the last and the sender is over.
      All that was produced has been delivered exactly if nothing is left in the queue, the last session
      terminated with nothing pending and nothing lost, and no earlier connection took something down
      with it. */
  lemma CloseDeliversEverythingIff(run: seq<Label>, i: nat)
    requires var st := After(INIT, run);
      i < |st.sessions| && st.sessions[i].rcv.at == R.Ended(R.PeerClosed)
    ensures var st := After(INIT, run);
      && i == |st.sessions| - 1 && st.phase.Over?
      && (st.delivered == st.produced <==>
            && DataIn(st.queue) == []
            && st.sessions[i].snd.pending == [] && st.sessions[i].lost == {}
            && forall j :: 0 <= j < i ==> Complete(st.sessions[j]))
  {
    RunInv(run);
    AlwaysOver(run);
    AllDeliveredIff(run);
    hide After, SR.Invariant, DataIn, P.PipeOf;
    SR.ClosedSession(After(INIT, run).sessions[i]);
  }

  // ----- A flush that is done, a `Close` that is read, and a buffer that is gone

  /** Ask, be granted, connect, and meet. */
  function Opening(k: nat, n: nat): seq<Label> {
    [Ask] + ([Answer(k)] + ([Hear] + ([Dial] + ([Identified] + ([Insert] + [Resolve(n)])))))
  }

  function Attached(): P.Session { P.Next(P.FRESH_SESSION, P.Receiver(R.Attached)) }

  ghost predicate SameEnds(st: State, t: State) {
    t.queue == st.queue && t.produced == st.produced && t.delivered == st.delivered
    && t.consumed == st.consumed && t.closed == st.closed
  }

  lemma Opens(st: State)
    requires st.phase.Asking? && st.holder.Registered?
    ensures var n := |st.sessions|; var t := After(st, Opening(st.nextAsk, n));
      && t.phase == Live(n) && t.holder == Open(n) && t.sessions == st.sessions + [Attached()]
      && t.nextAsk == st.nextAsk + 1 && SameEnds(st, t)
  {
    hide Step, P.Next, After;
    var k, n := st.nextAsk, |st.sessions|;
    var a := Step(st, Ask);
    var b := Step(a, Answer(k));
    var c := Step(b, Hear);
    CR.GrantSteps(st);
    var d := Step(c, Dial);
    CR.DialStep(c);
    var e := Step(d, Identified);
    CR.IdentifiedStep(d);
    var f := Step(e, Insert);
    CR.InsertStep(e);
    CR.ResolveStep(f, n);
    CR.AfterOne(f, Resolve(n));
    CR.AfterFirst(e, Insert, [Resolve(n)]);
    CR.AfterFirst(d, Identified, [Insert] + [Resolve(n)]);
    CR.AfterFirst(c, Dial, [Identified] + ([Insert] + [Resolve(n)]));
    CR.AfterFirst(b, Hear, [Dial] + ([Identified] + ([Insert] + [Resolve(n)])));
    CR.AfterFirst(a, Answer(k), [Hear] + ([Dial] + ([Identified] + ([Insert] + [Resolve(n)]))));
    CR.AfterFirst(st, Ask, [Answer(k)] + ([Hear] + ([Dial] + ([Identified] + ([Insert] + [Resolve(n)])))));
  }

  function Losing(b: TupleBuffer): seq<Label> {
    [Send(S.Take(DataMessage(b), false))] + ([Send(S.ReaderFailed)] + ([Receive(R.ReadFails)] + [GiveBack]))
  }

  lemma TakenAndLost(b: TupleBuffer)
    ensures var s := P.Next(Attached(), P.Sender(S.Take(DataMessage(b), false)));
      var t := P.Next(s, P.Sender(S.ReaderFailed));
      && P.Enabled(Attached(), P.Sender(S.Take(DataMessage(b), false))) && s.snd.at.Running?
      && P.Enabled(s, P.Sender(S.ReaderFailed)) && t.snd.at == S.Stopped(S.ConnectionLost)
      && P.Enabled(t, P.Receiver(R.ReadFails))
      && P.Next(t, P.Receiver(R.ReadFails)).rcv.at == R.Ended(R.NetworkError)
  {
  }

  /** The connection fails at both ends before the buffer was sent. */
  lemma Loses(st: State, b: TupleBuffer)
    requires st.phase == Live(0) && st.holder == Open(0) && st.sessions == [Attached()]
    requires st.queue == [DataMessage(b)]
    ensures var t := After(st, Losing(b));
      && t.phase.Asking? && t.holder.Registered? && |t.sessions| == 1 && t.nextAsk == st.nextAsk
      && t.queue == [] && t.produced == st.produced && t.delivered == st.delivered
  {
    TakenAndLost(b);
    hide P.Next, P.Enabled, Attached, After;
    var take, fail := Send(S.Take(DataMessage(b), false)), Send(S.ReaderFailed);
    CR.SendUnfolds(st, S.Take(DataMessage(b), false));
    var u := Step(st, take);
    CR.SendUnfolds(u, S.ReaderFailed);
    var v := Step(u, fail);
    CR.ReceiveUnfolds(v, R.ReadFails);
    var w := Step(v, Receive(R.ReadFails));
    assert Step(w, GiveBack) == w.(holder := Registered);
    hide Step;
    CR.AfterOne(w, GiveBack);
    CR.AfterFirst(v, Receive(R.ReadFails), [GiveBack]);
    CR.AfterFirst(u, fail, [Receive(R.ReadFails)] + [GiveBack]);
    CR.AfterFirst(st, take, [fail] + ([Receive(R.ReadFails)] + [GiveBack]));
  }

  function Closing(done: nat): seq<Label> {
    [Produce(Flush(done))] + ([Send(S.Take(Flush(done), false))] + ([Produce(Terminate)]
      + ([Send(S.Take(Terminate, true))] + [Receive(R.Arrives(Close))])))
  }

  lemma FlushedAndClosed(done: nat)
    ensures var s := P.Next(Attached(), P.Sender(S.Take(Flush(done), false)));
      var t := P.Next(s, P.Sender(S.Take(Terminate, true)));
      var u := P.Next(t, P.Receiver(R.Arrives(Close)));
      && P.Enabled(Attached(), P.Sender(S.Take(Flush(done), false)))
      && s.snd.at.Running? && s.snd.fired == [done]
      && P.Enabled(s, P.Sender(S.Take(Terminate, true))) && t.snd.at == S.Stopped(S.Terminated)
      && P.Enabled(t, P.Receiver(R.Arrives(Close)))
      && u.rcv.at == R.Ended(R.PeerClosed) && u.snd.fired == [done]
  {
    var t := P.Next(P.Next(Attached(), P.Sender(S.Take(Flush(done), false))), P.Sender(S.Take(Terminate, true)));
    assert t.snd.socket == [Close];
  }

  /** The producer flushes, waits, and terminates. */
  lemma Closes(st: State, done: nat)
    requires |st.sessions| == 2 && st.sessions[1] == Attached()
    requires st.phase == Live(1) && st.holder == Open(1) && st.queue == []
    ensures var t := After(st, Closing(done));
      && |t.sessions| == 2 && t.sessions[1].snd.fired == [done]
      && t.sessions[1].rcv.at == R.Ended(R.PeerClosed) && t.phase.Over? && t.closed && t.queue == []
      && t.produced == st.produced && t.delivered == st.delivered
  {
    FlushedAndClosed(done);
    hide P.Next, P.Enabled, Attached, After, Step;
    var flush, stop, read := Send(S.Take(Flush(done), false)), Send(S.Take(Terminate, true)), Receive(R.Arrives(Close));
    CR.ProduceStep(st, Flush(done));
    var a := Step(st, Produce(Flush(done)));
    CR.SendUnfolds(a, S.Take(Flush(done), false));
    var b := Step(a, flush);
    CR.ProduceStep(b, Terminate);
    var c := Step(b, Produce(Terminate));
    CR.SendUnfolds(c, S.Take(Terminate, true));
    var d := Step(c, stop);
    CR.ReceiveUnfolds(d, R.Arrives(Close));
    CR.AfterOne(d, read);
    CR.AfterFirst(c, stop, [read]);
    CR.AfterFirst(b, Produce(Terminate), [stop] + [read]);
    CR.AfterFirst(a, flush, [Produce(Terminate)] + ([stop] + [read]));
    CR.AfterFirst(st, Produce(Flush(done)), [flush] + ([Produce(Terminate)] + ([stop] + [read])));
  }

  /** A channel can close silently short: its only buffer goes down with the first connection; on the
      second a flush is reported done at once, and the receiver reads `Close`. */
  function ShortRun(b: TupleBuffer, done: nat): seq<Label> {
    [Produce(DataMessage(b))] + (Opening(0, 0) + (Losing(b) + (Opening(1, 1) + Closing(done))))
  }

  lemma ShortRunIs(b: TupleBuffer, done: nat)
    ensures ShortRun(b, done) ==
            [Produce(DataMessage(b))] + (Opening(0, 0) + (Losing(b) + (Opening(1, 1) + Closing(done))))
  {
  }

  lemma OpensFirst(st: State) returns (u: State)
    requires st.phase.Asking? && st.holder.Registered? && st.nextAsk == 0 && st.sessions == []
    ensures u == After(st, Opening(0, 0)) && u.nextAsk == 1
    ensures u.phase == Live(0) && u.holder == Open(0) && u.sessions == [Attached()]
    ensures u.queue == st.queue && u.produced == st.produced && u.delivered == st.delivered
  {
    hide After, Opening, Attached;
    u := After(st, Opening(0, 0));
    Opens(st);
  }

  lemma OpensSecond(st: State) returns (u: State)
    requires st.phase.Asking? && st.holder.Registered? && st.nextAsk == 1 && |st.sessions| == 1
    ensures u == After(st, Opening(1, 1))
    ensures u.phase == Live(1) && u.holder == Open(1) && |u.sessions| == 2 && u.sessions[1] == Attached()
    ensures u.queue == st.queue && u.produced == st.produced && u.delivered == st.delivered
  {
    hide After, Opening, Attached;
    u := After(st, Opening(1, 1));
    Opens(st);
  }

  lemma ClosesSilentlyShort(b: TupleBuffer, done: nat)
    ensures var t := After(INIT, ShortRun(b, done));
      && |t.sessions| == 2 && t.sessions[1].snd.fired == [done]
      && t.sessions[1].rcv.at == R.Ended(R.PeerClosed)
      && t.phase.Over? && t.closed && t.queue == [] && t.produced == [b] && t.delivered == []
  {
    var start := Step(INIT, Produce(DataMessage(b)));
    assert start == INIT.(queue := [DataMessage(b)], produced := [b]);
    hide *;
    var u := OpensFirst(start);
    var v := After(u, Losing(b));
    Loses(u, b);
    var w := OpensSecond(v);
    Closes(w, done);
    ShortRunIs(b, done);
    CR.AfterConcat(v, Opening(1, 1), Closing(done));
    CR.AfterConcat(u, Losing(b), Opening(1, 1) + Closing(done));
    CR.AfterConcat(start, Opening(0, 0), Losing(b) + (Opening(1, 1) + Closing(done)));
    CR.AfterFirst(INIT, Produce(DataMessage(b)), Opening(0, 0) + (Losing(b) + (Opening(1, 1) + Closing(done))));
  }
}
