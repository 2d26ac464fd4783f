/** What holds after every run of one session, whatever the network, the application and the
    scheduler do: order, acknowledgements, flush receipts and the closing handshake. */
module SessionRuns {
  import opened Protocol
  import opened Sequences
  import opened Pipeline
  import opened Session
  import S = SenderHandler
  import R = ReceiverHandler

  function After(s: Session, run: seq<Label>): Session {
    if run == [] then s else Next(After(s, run[..|run| - 1]), run[|run| - 1])
  }

  /** A completed flush is a receipt: what had been taken by then has been delivered, in order. */
  ghost predicate ReceiptsHonoured(s: Session) {
    forall r :: r in s.receipts ==> r <= s.rcv.got
  }

  /** A `Close` is only ever the last thing on the stream, written by a terminated sender. */
  ghost predicate CloseIsLast(s: Session) {
    && (forall q :: q in s.snd.outbox ==> q.Data?)
    && (forall i :: 0 <= i < |s.snd.socket| && s.snd.socket[i].Close? ==>
          i == |s.snd.socket| - 1 && s.snd.outbox == [] && s.snd.at == S.Stopped(S.Terminated))
    && (s.rcv.at == R.Ended(R.PeerClosed) ==>
          s.requestsRead == |s.snd.socket| && s.requestsRead > 0 && s.snd.socket[s.requestsRead - 1].Close?)
  }

  /** The receiver announces the end of its queue only by ending, with its last reply. */
  ghost predicate RepliesAreAcks(s: Session) {
    forall i :: 0 <= i < |s.rcv.replies| && !s.rcv.replies[i].AckData? ==>
      s.rcv.at.Ended? && i == |s.rcv.replies| - 1
  }

  ghost predicate NoProtocolError(s: Session) {
    !(s.snd.at.Stopped? && s.snd.at.why.ProtocolError?)
  }

  ghost predicate Invariant(s: Session) {
    && WellFormed(s)
    && Sound(ViewOf(s))
    && ReceiptsHonoured(s)
    && CloseIsLast(s)
    && RepliesAreAcks(s)
    && NoProtocolError(s)
    && (s.rcv.at.Ended? || Covered(ViewOf(s)))
  }

  /** Resuming reports a flush done only with nothing pending and nothing awaited. */
  lemma ResumedMeansQuiet(before: S.Sender, s: S.Sender)
    requires before.fired == s.fired
    ensures var t := S.Resume(s);
      before.fired <= t.fired && (|t.fired| > |before.fired| ==> t.pending == [] && t.waiting == map[])
  {
  }

  lemma UnchangedFired(s: S.Sender, e: S.Event)
    requires !e.Respond? && !e.Send? && !e.Take?
    ensures S.Step(s, e).fired == s.fired
  {
  }

  /** A flush is only reported done with nothing pending and nothing awaited. */
  lemma FiredMeansQuiet(s: S.Sender, e: S.Event)
    ensures s.fired <= S.Step(s, e).fired
    ensures |S.Step(s, e).fired| > |s.fired| ==> S.Step(s, e).pending == [] && S.Step(s, e).waiting == map[]
  {
    if S.Offered(s, e) {
      match e {
        case Respond(r) => ResumedMeansQuiet(s, S.HandleResponse(s, r));
        case Send(feed) => ResumedMeansQuiet(s, S.SendPending(s, feed));
        case Take(m, written) =>
          if m.Flush? {
            ResumedMeansQuiet(s, s.(at := S.Flushing(m.done, false)));
          }
        case _ => UnchangedFired(s, e);
      }
      hide S.Resume, S.Offered;
    }
  }

  lemma {:induction false} ReceiptsStep(s: Session, l: Label)
    requires ReceiptsHonoured(s) && Sound(ViewOf(Next(s, l)))
    ensures ReceiptsHonoured(Next(s, l))
  {
    hide Sound, PipeOf, EchoOf, S.Step;
    var t := Next(s, l);
    if t.receipts != s.receipts {
      FiredMeansQuiet(s.snd, l.se);
      QuietMeansDelivered(ViewOf(t));
    }
    GotGrows(s, l);
  }

  lemma GotGrows(s: Session, l: Label)
    ensures s.rcv.got <= Next(s, l).rcv.got
  {
    hide S.Step;
  }

  lemma SenderCloseStep(s: Session, e: S.Event)
    requires CloseIsLast(s)
    ensures CloseIsLast(Next(s, Sender(e)))
  {
    hide S.Step;
    var t := S.Step(s.snd, e);
    S.WritesComeFromOutbox(s.snd, e);
  }

  lemma ReceiverCloseStep(s: Session, e: R.Event)
    requires WellFormed(s) && CloseIsLast(s)
    ensures CloseIsLast(Next(s, Receiver(e)))
  {
    if Enabled(s, Receiver(e)) && e == R.Arrives(Close) {
      assert s.snd.socket[s.requestsRead].Close?;
    }
  }

  lemma RepliesStep(s: Session, l: Label)
    requires RepliesAreAcks(s)
    ensures RepliesAreAcks(Next(s, l))
  {
    hide S.Step;
  }

  lemma ErrorStep(s: Session, l: Label)
    requires WellFormed(s) && Sound(ViewOf(s)) && NoProtocolError(s)
    ensures NoProtocolError(Next(s, l))
  {
    hide Sound, PipeOf, EchoOf;
    if Enabled(s, l) && l.Sender? && l.se.Respond? {
      FirstReply(s);
      EchoIsAwaited(s);
    }
  }

  lemma {:induction false} CoverStep(s: Session, l: Label)
    requires WellFormed(s) && Sound(ViewOf(s)) && FreshTake(s, l)
    requires s.rcv.at.Ended? || Covered(ViewOf(s))
    ensures Next(s, l).rcv.at.Ended? || Covered(ViewOf(Next(s, l)))
  {
    hide Sound, Covered, ViewOf, FreshTake, S.Step, Apply;
    StepRefines(s, l);
    if !OpOf(s, l).LoseEcho? && Covered(ViewOf(s)) {
      StaysCovered(ViewOf(s), OpOf(s, l));
    }
  }

  lemma {:induction false} InvariantStep(s: Session, l: Label)
    requires Invariant(s) && FreshTake(s, l)
    ensures Invariant(Next(s, l))
  {
    hide Sound, Covered, WellFormed, Next, ViewOf, OpOf, FreshTake;
    hide CloseIsLast, ReceiptsHonoured, RepliesAreAcks, NoProtocolError;
    StepRefines(s, l);
    StaysSound(ViewOf(s), OpOf(s, l));
    ReceiptsStep(s, l);
    RepliesStep(s, l);
    ErrorStep(s, l);
    CoverStep(s, l);
    match l
    case Sender(e) => SenderCloseStep(s, e);
    case Receiver(e) => ReceiverCloseStep(s, e);
  }

  lemma NothingYetIsSound()
    ensures ViewOf(FRESH_SESSION) == View([], [], [], [], map[], [], {})
    ensures Sound(ViewOf(FRESH_SESSION)) && Covered(ViewOf(FRESH_SESSION))
  {
    DataOfNothing();
    assert Requests(FRESH_SESSION) == [] && Replies(FRESH_SESSION) == [];
    assert AcksOf([]) == [];
  }

  lemma FreshInvariant()
    ensures Invariant(FRESH_SESSION)
  {
    NothingYetIsSound();
    hide Sound, Covered, ViewOf;
  }

  lemma TakenGrows(s: Session, l: Label)
    ensures s.taken <= Next(s, l).taken && s.lost <= Next(s, l).lost
    ensures DistinctKeys(Next(s, l).taken) ==> DistinctKeys(s.taken) && (Enabled(s, l) ==> FreshTake(s, l))
  {
    hide S.Step, R.Step;
    var t := Next(s, l);
    if t.taken != s.taken && DistinctKeys(t.taken) {
      assert t.taken[|s.taken|] == l.se.message.buffer;
      assert t.taken[..|s.taken|] == s.taken;
    }
  }

  lemma {:induction false} InvariantAfter(s: Session, run: seq<Label>)
    requires Invariant(s) && DistinctKeys(After(s, run).taken)
    ensures Invariant(After(s, run))
    ensures s.taken <= After(s, run).taken && s.lost <= After(s, run).lost
  {
    hide Invariant, Next, DistinctKeys, FreshTake;
    if run != [] {
      var t, l := After(s, run[..|run| - 1]), run[|run| - 1];
      TakenGrows(t, l);
      InvariantAfter(s, run[..|run| - 1]);
      if Enabled(t, l) {
        InvariantStep(t, l);
      } else {
        DisabledStutters(t, l);
      }
    }
  }

  // ----- What every run guarantees

  /** Order and conservation in a session that lost nothing. */
  lemma NothingLostMeansExactLine(run: seq<Label>)
    requires var s := After(FRESH_SESSION, run); DistinctKeys(s.taken) && s.lost == {}
    ensures var s := After(FRESH_SESSION, run);
      s.taken == s.rcv.got + Held(s.rcv.at) + DataOf(Requests(s)) + DataOf(s.snd.outbox) + s.snd.pending
  {
    hide PipeOf, EchoOf, DataOf, DistinctKeys, After;
    FreshInvariant();
    InvariantAfter(FRESH_SESSION, run);
    var s := After(FRESH_SESSION, run);
    WithoutNothing(s.taken);
    assert Line(ViewOf(s)) == s.taken;
    PipeParts(s);
  }

  lemma PipeParts(s: Session)
    ensures PipeOf(s) == Held(s.rcv.at) + DataOf(Requests(s)) + DataOf(s.snd.outbox)
  {
    hide DataOf;
  }

  /** The receiver's queue gets an ordered selection of what the sender took. */
  lemma DeliveredInOrder(run: seq<Label>)
    requires DistinctKeys(After(FRESH_SESSION, run).taken)
    ensures Subsequence(After(FRESH_SESSION, run).rcv.got, After(FRESH_SESSION, run).taken)
  {
    hide PipeOf, EchoOf, Tracked, Placed, InOrder, DistinctKeys, After;
    FreshInvariant();
    InvariantAfter(FRESH_SESSION, run);
    DeliveredIsSubsequence(ViewOf(After(FRESH_SESSION, run)));
  }

  lemma SoundDelivery(s: Session)
    requires Invariant(s)
    ensures Subsequence(s.rcv.got, s.taken)
  {
    hide PipeOf, EchoOf, Tracked, Placed, InOrder;
    DeliveredIsSubsequence(ViewOf(s));
  }

  lemma ReceiptPrefix(s: Session, r: seq<TupleBuffer>)
    requires Invariant(s) && r in s.receipts
    ensures r <= s.rcv.got
  {
    hide Sound, PipeOf, EchoOf;
  }

  /** Every acknowledgement the sender reads is for a buffer it awaits, and that buffer is in the
      receiver's queue: the "Unknown Seq" error cannot be provoked by this receiver. */
  lemma {:induction false} AcknowledgedMeansDelivered(run: seq<Label>)
    requires DistinctKeys(After(FRESH_SESSION, run).taken)
    ensures var s := After(FRESH_SESSION, run);
      && !(s.snd.at.Stopped? && s.snd.at.why.ProtocolError?)
      && (forall k :: k in EchoOf(s) ==> k in s.snd.waiting && s.snd.waiting[k] in s.rcv.got)
      && (forall b :: b in PipeOf(s) ==> b.Sequence() in s.snd.waiting && s.snd.waiting[b.Sequence()] == b)
      && DistinctKeys(PipeOf(s))
      && (forall i, j :: 0 <= i < j < |EchoOf(s)| ==> EchoOf(s)[i] != EchoOf(s)[j])
      && (forall b :: b in PipeOf(s) ==> b.Sequence() !in EchoOf(s))
  {
    hide PipeOf, EchoOf, Placed, InOrder, DistinctKeys, After, Covered, CloseIsLast;
    FreshInvariant();
    InvariantAfter(FRESH_SESSION, run);
    var v := ViewOf(After(FRESH_SESSION, run));
    LineParts(v);
    assert forall b :: b in v.pipe ==> Awaited(v, b);
  }

  /** At most a window of buffers is anywhere between the two queues without being confirmed. */
  lemma WindowHolds(run: seq<Label>)
    requires DistinctKeys(After(FRESH_SESSION, run).taken)
    ensures var s := After(FRESH_SESSION, run);
      |PipeOf(s)| + |EchoOf(s)| <= |s.snd.waiting| <= 64
  {
    hide PipeOf, EchoOf, Sound, DistinctKeys, After, Covered, CloseIsLast;
    FreshInvariant();
    InvariantAfter(FRESH_SESSION, run);
    UnconfirmedFitWindow(ViewOf(After(FRESH_SESSION, run)));
  }

  /** Step `l` reports a flush done. */
  predicate Fires(s: Session, l: Label) { |Next(s, l).snd.fired| > |s.snd.fired| }

  lemma {:induction false} FiredMeansDelivered(s: Session, l: Label)
    requires Sound(ViewOf(Next(s, l))) && Fires(s, l)
    ensures Next(s, l).rcv.got == Next(s, l).taken
  {
    hide PipeOf, EchoOf, Sound, S.Step;
    if l.Sender? {
      FiredMeansQuiet(s.snd, l.se);
    }
    QuietMeansDelivered(ViewOf(Next(s, l)));
  }

  /** When a flush is reported done, everything taken before it has been delivered, in order and with
      nothing in between, and stays so; feeds that failed or were dropped make no difference. */
  lemma {:induction false} FlushMeansDelivered(run: seq<Label>, l: Label, more: seq<Label>)
    requires Fires(After(FRESH_SESSION, run), l)
    requires DistinctKeys(After(Next(After(FRESH_SESSION, run), l), more).taken)
    ensures var s := Next(After(FRESH_SESSION, run), l);
      s.rcv.got == s.taken && s.taken <= After(s, more).rcv.got
  {
    var s := Next(After(FRESH_SESSION, run), l);
    AfterNext(FRESH_SESSION, run, l);
    hide After, Next, DistinctKeys, Fires;
    PrefixDistinct(s, more);
    FreshInvariant();
    InvariantAfter(FRESH_SESSION, run + [l]);
    hide Sound;
    FiredMeansDelivered(After(FRESH_SESSION, run), l);
    GotGrowsAfter(s, more);
  }

  lemma AfterNext(s: Session, run: seq<Label>, l: Label)
    ensures After(s, run + [l]) == Next(After(s, run), l)
  {
    hide Next;
    assert (run + [l])[..|run|] == run;
  }

  lemma {:induction false} AfterConcat(s: Session, run: seq<Label>, more: seq<Label>)
    ensures After(s, run + more) == After(After(s, run), more)
  {
    hide Next;
    if more == [] {
      assert run + more == run;
    } else {
      assert (run + more)[..|run + more| - 1] == run + more[..|more| - 1];
      AfterConcat(s, run, more[..|more| - 1]);
    }
  }

  lemma {:induction false} PrefixDistinct(s: Session, run: seq<Label>)
    ensures s.taken <= After(s, run).taken
    ensures DistinctKeys(After(s, run).taken) ==> DistinctKeys(s.taken)
  {
    hide Next, DistinctKeys, FreshTake;
    if run != [] {
      PrefixDistinct(s, run[..|run| - 1]);
      TakenGrows(After(s, run[..|run| - 1]), run[|run| - 1]);
    }
  }

  lemma {:induction false} GotGrowsAfter(s: Session, run: seq<Label>)
    ensures s.rcv.got <= After(s, run).rcv.got
  {
    hide Next;
    if run != [] {
      GotGrowsAfter(s, run[..|run| - 1]);
      GotGrows(After(s, run[..|run| - 1]), run[|run| - 1]);
    }
  }

  // ----- Closing

  /** A session has delivered everything it took exactly when nothing is under way, pending or lost. */
  lemma GotAllIff(s: Session)
    requires Invariant(s)
    ensures s.rcv.got == s.taken <==> PipeOf(s) == [] && s.snd.pending == [] && s.lost == {}
    ensures |s.rcv.got| <= |s.taken|
    ensures s.rcv.got + PipeOf(s) + s.snd.pending == Without(s.taken, s.lost)
  {
    hide PipeOf, EchoOf, Covered, CloseIsLast, DistinctKeys, Placed;
    var v := ViewOf(s);
    WithoutNothing(s.taken);
    WithoutShorter(s.taken, s.lost);
    if s.rcv.got == s.taken {
      assert Without(s.taken, s.lost) == s.taken;
      forall b | b in s.lost ensures false {
        assert Awaited(v, b) && b in s.taken;
        WithoutMembers(s.taken, s.lost, b);
      }
    }
  }

  /** When the receiver has read `Close`, it got everything if and only if the sender terminated with
      nothing pending and no buffer had been lost. */
  lemma CloseDeliversAll(run: seq<Label>)
    requires var s := After(FRESH_SESSION, run);
      DistinctKeys(s.taken) && s.rcv.at == R.Ended(R.PeerClosed)
    ensures var s := After(FRESH_SESSION, run);
      && s.snd.at == S.Stopped(S.Terminated)
      && s.rcv.got + s.snd.pending == Without(s.taken, s.lost)
      && (s.rcv.got == s.taken <==> s.snd.pending == [] && s.lost == {})
  {
    hide After, DistinctKeys;
    FreshInvariant();
    InvariantAfter(FRESH_SESSION, run);
    ClosedSession(After(FRESH_SESSION, run));
  }

  lemma ClosedSession(s: Session)
    requires Invariant(s) && s.rcv.at == R.Ended(R.PeerClosed)
    ensures s.snd.at == S.Stopped(S.Terminated) && PipeOf(s) == []
    ensures s.rcv.got + s.snd.pending == Without(s.taken, s.lost)
    ensures s.rcv.got == s.taken <==> s.snd.pending == [] && s.lost == {}
  {
    ClosedPipeIsEmpty(s);
    hide Invariant, PipeOf;
    GotAllIff(s);
  }

  lemma ClosedPipeIsEmpty(s: Session)
    requires CloseIsLast(s) && s.rcv.at == R.Ended(R.PeerClosed)
    ensures PipeOf(s) == [] && s.snd.at == S.Stopped(S.Terminated)
  {
    DataOfNothing();
    assert s.snd.socket[|s.snd.socket| - 1].Close?;
    assert Requests(s) == [];
  }

  lemma {:induction false} WithoutShorter<T>(s: seq<T>, lost: set<T>)
    ensures |Without(s, lost)| <= |s|
  {
    if s != [] {
      WithoutShorter(s[..|s| - 1], lost);
    }
  }

  /** A stopped sender changes nothing any more. */
  lemma {:induction false} StoppedStays(s: Session, run: seq<Label>)
    requires s.snd.at.Stopped?
    ensures After(s, run).snd == s.snd && After(s, run).taken == s.taken
  {
    hide S.Step, R.Step;
    if run != [] {
      StoppedStays(s, run[..|run| - 1]);
    }
  }

  lemma TerminateStops(s: Session)
    requires s.snd.at.Running?
    ensures var t := Next(s, Sender(S.Take(Terminate, true)));
      t.snd.at.Stopped? && t.snd.pending == s.snd.pending && t.snd.waiting == s.snd.waiting && t.taken == s.taken
  {
  }

  /** Terminating with nothing pending and nothing awaited, the receiver that reads `Close` has received
      exactly what the session took, in order. */
  lemma GracefulClose(run: seq<Label>, more: seq<Label>)
    requires var s := After(FRESH_SESSION, run);
      DistinctKeys(s.taken) && s.snd.at.Running? && s.snd.pending == [] && s.snd.waiting == map[]
    requires var t := After(FRESH_SESSION, run + [Sender(S.Take(Terminate, true))] + more);
      t.rcv.at == R.Ended(R.PeerClosed)
    ensures var t := After(FRESH_SESSION, run + [Sender(S.Take(Terminate, true))] + more);
      t.rcv.got == t.taken == After(FRESH_SESSION, run).taken
  {
    var s, close := After(FRESH_SESSION, run), Sender(S.Take(Terminate, true));
    assert (run + [close])[..|run|] == run;
    var c := After(FRESH_SESSION, run + [close]);
    assert c == Next(s, close);
    hide After, Next, Invariant, DistinctKeys;
    TerminateStops(s);
    AfterConcat(FRESH_SESSION, run + [close], more);
    StoppedStays(c, more);
    FreshInvariant();
    InvariantAfter(FRESH_SESSION, run + [close] + more);
    QuietGot(After(c, more));
  }

  lemma QuietGot(s: Session)
    requires Invariant(s) && s.snd.pending == [] && s.snd.waiting == map[]
    ensures s.rcv.got == s.taken
  {
    hide PipeOf, EchoOf, Covered, CloseIsLast, Sound;
    QuietMeansDelivered(ViewOf(s));
  }

  predicate Quiet(s: S.Sender) { s.pending == [] && s.waiting == map[] }

  lemma QuietStep(s: Session, l: Label)
    requires Quiet(s.snd) && !(l.Sender? && l.se.Take?)
    ensures Quiet(Next(s, l).snd) && Next(s, l).taken == s.taken
  {
  }

  lemma {:induction false} QuietStays(s: Session, run: seq<Label>)
    requires Quiet(s.snd) && forall i :: 0 <= i < |run| ==> !(run[i].Sender? && run[i].se.Take?)
    ensures Quiet(After(s, run).snd) && After(s, run).taken == s.taken
  {
    hide Quiet, Next;
    if run != [] {
      QuietStays(s, run[..|run| - 1]);
      QuietStep(After(s, run[..|run| - 1]), run[|run| - 1]);
    }
  }

  /** Closing a channel the way its only producer does it: step `l` reports a flush done, nothing is
      taken until `Terminate`, and the session is still up. Whatever else happens in between and
      afterwards, a receiver that reads `Close` has received exactly what the session took, in order. */
  lemma {:induction false} FlushThenTerminate(run: seq<Label>, l: Label, between: seq<Label>, more: seq<Label>)
    requires Fires(After(FRESH_SESSION, run), l)
    requires forall i :: 0 <= i < |between| ==> !(between[i].Sender? && between[i].se.Take?)
    requires var s := After(Next(After(FRESH_SESSION, run), l), between);
      DistinctKeys(s.taken) && s.snd.at.Running?
    ensures var s := After(Next(After(FRESH_SESSION, run), l), between);
      var t := After(Next(s, Sender(S.Take(Terminate, true))), more);
      t.rcv.at == R.Ended(R.PeerClosed) ==> t.rcv.got == t.taken == Next(After(FRESH_SESSION, run), l).taken
  {
    var s, close := After(FRESH_SESSION, run), Sender(S.Take(Terminate, true));
    if l.Sender? {
      FiredMeansQuiet(s.snd, l.se);
    }
    assert Quiet(Next(s, l).snd);
    hide After, Next;
    AfterNext(FRESH_SESSION, run, l);
    AfterConcat(FRESH_SESSION, run + [l], between);
    QuietStays(Next(s, l), between);
    var whole := run + [l] + between;
    AfterNext(FRESH_SESSION, whole, close);
    AfterConcat(FRESH_SESSION, whole + [close], more);
    if After(FRESH_SESSION, whole + [close] + more).rcv.at == R.Ended(R.PeerClosed) {
      GracefulClose(whole, more);
    }
  }

  // ----- A lost buffer

  lemma {:induction false} LostBlocksStep(s: Session, l: Label)
    requires Invariant(s) && FreshTake(s, l) && s.lost != {}
    ensures Next(s, l).snd.fired == s.snd.fired && s.lost <= Next(s, l).lost
  {
    hide PipeOf, EchoOf, Covered, CloseIsLast, S.Step, InOrder, Placed, DistinctKeys;
    InvariantStep(s, l);
    var t := Next(s, l);
    var b :| b in s.lost;
    assert Awaited(ViewOf(t), b);
    assert t.snd.waiting != map[];
    if l.Sender? {
      FiredMeansQuiet(s.snd, l.se);
    }
  }

  /** A buffer lost by a dropped feed is awaited for ever: no later flush of this session is ever
      reported done. */
  lemma {:induction false} LostBlocksFlush(s: Session, run: seq<Label>)
    requires Invariant(s) && s.lost != {} && DistinctKeys(After(s, run).taken)
    ensures After(s, run).snd.fired == s.snd.fired
  {
    hide Invariant, Next, DistinctKeys, FreshTake;
    if run != [] {
      var before := run[..|run| - 1];
      var t, l := After(s, before), run[|run| - 1];
      TakenGrows(t, l);
      InvariantAfter(s, before);
      LostBlocksFlush(s, before);
      if Enabled(t, l) {
        LostBlocksStep(t, l);
      } else {
        DisabledStutters(t, l);
      }
    }
  }

  /** A flush strands nothing: whatever the sender does inside one, in any run, loses no buffer. Only the
      `run` loop can drop a feed. */
  lemma {:induction false} FlushStrandsNothing(run: seq<Label>, e: S.Event)
    ensures var s := After(FRESH_SESSION, run); s.snd.at.Flushing? ==> Next(s, Sender(e)).lost == s.lost
  {
    AlwaysSynced(run);
    hide After;
    S.StaysSynced(After(FRESH_SESSION, run).snd, e);
  }

  lemma {:induction false} AlwaysSynced(run: seq<Label>)
    ensures S.SyncedIsEmpty(After(FRESH_SESSION, run).snd)
  {
    hide S.Step, S.SyncedIsEmpty, R.Step;
    if run == [] {
      FreshIsSynced();
    } else {
      AlwaysSynced(run[..|run| - 1]);
      if run[|run| - 1].Sender? {
        S.StaysSynced(After(FRESH_SESSION, run[..|run| - 1]).snd, run[|run| - 1].se);
      }
    }
  }

  lemma FreshIsSynced()
    ensures S.SyncedIsEmpty(FRESH_SESSION.snd)
  {
  }

  // ----- What can go wrong

  lemma AfterTwo(s: Session, a: Label, b: Label)
    ensures After(s, [a, b]) == Next(Next(s, a), b)
  {
    hide Next;
    assert [a, b] == [] + [a] + [b];
    AfterNext(s, [] + [a], b);
    AfterNext(s, [], a);
  }

  lemma AfterFour(s: Session, a: Label, b: Label, c: Label, d: Label)
    ensures After(s, [a, b, c, d]) == Next(Next(Next(Next(s, a), b), c), d)
  {
    hide Next;
    assert [a, b, c, d] == [a, b] + [c, d];
    AfterConcat(s, [a, b], [c, d]);
    AfterTwo(s, a, b);
    AfterTwo(Next(Next(s, a), b), c, d);
  }

  /** Terminating without a flush: the receiver reads `Close` and never sees the buffer. */
  lemma CloseWithoutFlushLoses(b: TupleBuffer)
    ensures var s := After(FRESH_SESSION, [Sender(S.Take(DataMessage(b), false)), Sender(S.Take(Terminate, true)),
                                           Receiver(R.Attached), Receiver(R.Arrives(Close))]);
      s.rcv.at == R.Ended(R.PeerClosed) && s.taken == [b] && s.rcv.got == [] && s.lost == {}
  {
    var take, end := Sender(S.Take(DataMessage(b), false)), Sender(S.Take(Terminate, true));
    var start, read := Receiver(R.Attached), Receiver(R.Arrives(Close));
    AfterFour(FRESH_SESSION, take, end, start, read);
    hide After;
    var u := Next(Next(FRESH_SESSION, take), end);
    assert u.snd.socket == [Close] && u.taken == [b];
    assert Requests(Next(u, start)) == [Close];
  }

  function TakeData(b: TupleBuffer): Label { Sender(S.Take(DataMessage(b), false)) }

  function Feeding(feed: S.Feed): Label { Sender(S.Send(feed)) }

  /** The second buffer is dropped while the first is still in the writer. */
  function DroppingRun(a: TupleBuffer, b: TupleBuffer): seq<Label> {
    [TakeData(a), TakeData(b), Feeding(S.Fed), Feeding(S.Dropped)]
  }

  lemma SecondIsLost(a: TupleBuffer, b: TupleBuffer)
    requires a.Sequence() != b.Sequence()
    ensures var s := After(FRESH_SESSION, DroppingRun(a, b));
      && s.taken == [a, b] && s.lost == {b} && s.snd.at.Running? && s.snd.waiting != map[]
      && s.rcv.at.Detached? && s.snd.outbox == [Data(a)]
  {
    AfterFour(FRESH_SESSION, TakeData(a), TakeData(b), Feeding(S.Fed), Feeding(S.Dropped));
    hide After;
    var s2 := Next(Next(FRESH_SESSION, TakeData(a)), TakeData(b));
    assert s2.snd.pending == [a, b] && s2.taken == [a, b];
    var s3 := Next(s2, Feeding(S.Fed));
    assert s3.snd.pending == [b] && s3.snd.outbox == [Data(a)];
    var s4 := Next(s3, Feeding(S.Dropped));
    assert b.Sequence() in s4.snd.waiting;
  }

  /** Such a loss happens: two buffers, the first fed, and the feed of the second dropped. */
  lemma DroppedFeedLoses(a: TupleBuffer, b: TupleBuffer)
    requires a.Sequence() != b.Sequence()
    ensures var s := After(FRESH_SESSION, DroppingRun(a, b));
      Invariant(s) && s.taken == [a, b] && s.lost == {b}
  {
    hide Invariant, After;
    SecondIsLost(a, b);
    FreshInvariant();
    InvariantAfter(FRESH_SESSION, DroppingRun(a, b));
  }

  /** A flush at work that can never be reported done: its second buffer was lost by a dropped feed. */
  lemma {:induction false} LostFlushIsReachable(a: TupleBuffer, b: TupleBuffer, done: nat)
    requires a.Sequence() != b.Sequence()
    ensures var s := After(FRESH_SESSION, DroppingRun(a, b) +
                                          [Receiver(R.Attached), Sender(S.Take(Flush(done), false))]);
      Invariant(s) && s.snd.at == S.Flushing(done, false) && s.rcv.at.Reading? && s.lost == {b}
  {
    hide After, Invariant;
    var start, flush := Receiver(R.Attached), Sender(S.Take(Flush(done), false));
    var u := After(FRESH_SESSION, DroppingRun(a, b));
    SecondIsLost(a, b);
    DroppedFeedLoses(a, b);
    AfterConcat(FRESH_SESSION, DroppingRun(a, b), [start, flush]);
    AfterTwo(u, start, flush);
    InvariantStep(u, start);
    InvariantStep(Next(u, start), flush);
    StartAndFlush(u, done);
  }

  lemma StartAndFlush(u: Session, done: nat)
    requires u.snd.at.Running? && u.rcv.at.Detached? && u.snd.waiting != map[]
    ensures var s := Next(Next(u, Receiver(R.Attached)), Sender(S.Take(Flush(done), false)));
      s.snd.at == S.Flushing(done, false) && s.rcv.at.Reading? && s.lost == u.lost
  {
  }
}
