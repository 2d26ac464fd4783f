/** A flush ends: while it runs and nothing fails, every step of the sender, the receiver and the
    application that drains the receiver's queue brings it nearer, and some step can be taken. */
module FlushProgress {
  import opened Protocol
  import opened Sequences
  import opened Pipeline
  import opened Session
  import opened SessionRuns
  import S = SenderHandler
  import R = ReceiverHandler

  /** The receiver's bounded queue: how many delivered buffers the application has not taken. */
  datatype Joint = Joint(s: Session, queued: nat)

  datatype Move = Work(l: Label) | Consume

  /** The steps of an undisturbed system: nothing fails, is cancelled or is dropped. */
  predicate Undisturbed(l: Label) {
    match l
    case Sender(e) => e == S.Send(S.Fed) || e == S.Sync(true) || e.Respond? || (e.Drain? && e.frames > 0)
    case Receiver(e) => e.Attached? || e.Arrives? || e.Enqueues? || e == R.AckWritten(true)
  }

  predicate CanMove(j: Joint, m: Move) {
    match m
    case Consume => j.queued > 0
    case Work(l) =>
      && Enabled(j.s, l) && Undisturbed(l)
      && (l == Receiver(R.Enqueues) ==> j.queued < DATA_QUEUE_CAPACITY)
  }

  function Moved(j: Joint, m: Move): Joint
    requires CanMove(j, m)
  {
    match m
    case Consume => j.(queued := j.queued - 1)
    case Work(l) => Joint(Next(j.s, l), if l == Receiver(R.Enqueues) then j.queued + 1 else j.queued)
  }

  /** The sender is in its `run` loop or in a flush. */
  predicate Sending(s: Session) { s.snd.at.Running? || s.snd.at.Flushing? }

  /** The sender at work, its receiver not ended and no buffer lost. */
  ghost predicate Healthy(s: Session) { Invariant(s) && Sending(s) && !s.rcv.at.Ended? && s.lost == {} }

  /** Buffers are still to be sent or awaited. */
  predicate Unsettled(s: Session) { s.snd.pending != [] || s.snd.waiting != map[] }

  /** A flush in progress. */
  ghost predicate UnderWay(s: Session) { Healthy(s) && s.snd.at.Flushing? && Unsettled(s) }

  /** Each buffer weighs less the further it has come. */
  function Weight(j: Joint): nat {
    var s := j.s;
    12 * |s.snd.pending| + 10 * |s.snd.outbox| + 9 * |Requests(s)|
    + (match s.rcv.at case Holding(_) => 8 case Acking(_) => 5 case Detached => 1 case _ => 0)
    + 4 * |Replies(s)| + j.queued
    + if s.snd.at.Flushing? && !s.snd.at.synced then 1 else 0
  }

  lemma RespondIsProgress(j: Joint, r: DataChannelResponse)
    requires WellFormed(j.s) && CanMove(j, Work(Sender(S.Respond(r)))) && Sending(j.s)
    ensures Weight(Moved(j, Work(Sender(S.Respond(r))))) < Weight(j)
  {
    var s, t := j.s, Next(j.s, Sender(S.Respond(r)));
    assert r == s.rcv.replies[s.repliesRead];
    assert Replies(t) == Replies(s)[1..] && Requests(t) == Requests(s);
    assert t.snd.pending == s.snd.pending && t.snd.outbox == s.snd.outbox && t.rcv == s.rcv;
  }

  lemma SendIsProgress(j: Joint)
    requires WellFormed(j.s) && CanMove(j, Work(Sender(S.Send(S.Fed)))) && Sending(j.s)
    ensures Weight(Moved(j, Work(Sender(S.Send(S.Fed))))) < Weight(j)
  {
    var s, t := j.s, Next(j.s, Sender(S.Send(S.Fed)));
    assert Requests(t) == Requests(s) && Replies(t) == Replies(s) && t.rcv == s.rcv;
    assert |t.snd.pending| == |s.snd.pending| - 1 && |t.snd.outbox| == |s.snd.outbox| + 1;
  }

  lemma WriteIsProgress(j: Joint, e: S.Event)
    requires WellFormed(j.s) && CanMove(j, Work(Sender(e))) && Sending(j.s) && (e.Drain? || e.Sync?)
    ensures Weight(Moved(j, Work(Sender(e)))) < Weight(j)
  {
    var s, t := j.s, Next(j.s, Sender(e));
    var n := if e.Drain? then e.frames else |s.snd.outbox|;
    assert t.snd.pending == s.snd.pending && t.rcv == s.rcv && Replies(t) == Replies(s);
    assert |t.snd.outbox| == |s.snd.outbox| - n && |Requests(t)| == |Requests(s)| + n;
  }

  lemma SenderMoveIsProgress(j: Joint, e: S.Event)
    requires WellFormed(j.s) && CanMove(j, Work(Sender(e))) && Sending(j.s)
    ensures Weight(Moved(j, Work(Sender(e)))) < Weight(j)
  {
    hide WellFormed, Weight, Next, Enabled;
    match e
    case Respond(r) => RespondIsProgress(j, r);
    case Send(_) => SendIsProgress(j);
    case _ => WriteIsProgress(j, e);
  }

  lemma ReceiverMoveIsProgress(j: Joint, e: R.Event)
    requires WellFormed(j.s) && CanMove(j, Work(Receiver(e)))
    ensures Weight(Moved(j, Work(Receiver(e)))) < Weight(j)
  {
    var s, t := j.s, Next(j.s, Receiver(e));
    match e
    case Attached =>
    case Arrives(q) => assert Requests(t) == Requests(s)[1..];
    case Enqueues =>
    case AckWritten(_) => assert Replies(t) == Replies(s) + [AckData(s.rcv.at.key)];
  }

  lemma ConsumeIsProgress(j: Joint)
    requires j.queued > 0
    ensures Weight(j.(queued := j.queued - 1)) < Weight(j)
  {
  }

  /** No step of the undisturbed system is idle. */
  lemma {:induction false} MoveIsProgress(j: Joint, m: Move)
    requires Healthy(j.s) && CanMove(j, m)
    ensures Weight(Moved(j, m)) < Weight(j)
  {
    hide Sound, Covered, ReceiptsHonoured, CloseIsLast, Weight, Next;
    match m
    case Consume => ConsumeIsProgress(j);
    case Work(Sender(e)) => SenderMoveIsProgress(j, e);
    case Work(Receiver(e)) => ReceiverMoveIsProgress(j, e);
  }

  /** With an empty pipe and no acknowledgement under way, nothing is awaited. */
  lemma EmptyPipeAwaitsNothing(s: Session)
    requires Healthy(s) && Requests(s) == [] && Replies(s) == [] && s.snd.outbox == [] && s.rcv.at.Reading?
    ensures s.snd.waiting == map[]
  {
    DataOfNothing();
    assert AcksOf(Replies(s)) == [];
    hide Sound, CloseIsLast, DataOf, AcksOf;
    var v := ViewOf(s);
    assert v.pipe == [] && v.echo == [] && v.lost == {};
    assert Covered(v);
    assert forall k :: k !in v.waiting;
  }

  /** There is no deadlock: while something is still to be sent or awaited, in a flush or not, somebody
      can move. */
  lemma {:induction false} SomeMove(j: Joint) returns (m: Move)
    requires Healthy(j.s) && Unsettled(j.s)
    ensures CanMove(j, m)
  {
    var s := j.s;
    hide Sound, Covered, ReceiptsHonoured, CloseIsLast, RepliesAreAcks;
    if s.snd.at.Flushing? && !s.snd.at.synced {
      m := Work(Sender(S.Sync(true)));
    } else if Replies(s) != [] {
      m := Work(Sender(S.Respond(Replies(s)[0])));
    } else if s.rcv.at.Detached? {
      m := Work(Receiver(R.Attached));
    } else if s.rcv.at.Acking? {
      m := Work(Receiver(R.AckWritten(true)));
    } else if s.rcv.at.Holding? {
      m := if j.queued < DATA_QUEUE_CAPACITY then Work(Receiver(R.Enqueues)) else Consume;
    } else if Requests(s) != [] {
      m := Work(Receiver(R.Arrives(Requests(s)[0])));
    } else if s.snd.outbox != [] {
      m := Work(Sender(S.Drain(|s.snd.outbox|)));
    } else {
      EmptyPipeAwaitsNothing(s);
      m := Work(Sender(S.Send(S.Fed)));
    }
  }

  /** The flush of `before` has been reported done, and everything it covers is delivered. */
  ghost predicate Done(before: Session, s: Session) {
    && before.snd.at.Flushing?
    && s.snd.fired == before.snd.fired + [before.snd.at.done]
    && s.rcv.got == s.taken == before.taken
  }

  lemma {:induction false} SenderMoveOutcome(s: Session, e: S.Event)
    requires UnderWay(s) && Enabled(s, Sender(e)) && Undisturbed(Sender(e))
    ensures var t := Next(s, Sender(e));
      && t.lost == {} && t.taken == s.taken && t.rcv == s.rcv
      && (if t.snd.at.Flushing? then
            t.snd.at.done == s.snd.at.done && t.snd.fired == s.snd.fired &&
            (t.snd.pending != [] || t.snd.waiting != map[])
          else t.snd.at.Running? && t.snd.fired == s.snd.fired + [s.snd.at.done])
  {
    hide Covered, ReceiptsHonoured, CloseIsLast, PipeOf, EchoOf, Sound;
    if e.Respond? {
      FirstReply(s);
      EchoIsAwaited(s);
      assert e.response == s.rcv.replies[s.repliesRead];
    } else if e.Send? {
      assert s.snd.pending[0].Sequence() in S.SendPending(s.snd, S.Fed).waiting;
    }
  }

  lemma ReceiverMoveOutcome(s: Session, e: R.Event)
    requires Healthy(s) && Enabled(s, Receiver(e)) && Undisturbed(Receiver(e))
    ensures var t := Next(s, Receiver(e));
      && t.lost == {} && t.taken == s.taken && t.snd == s.snd
      && !t.rcv.at.Ended?
  {
    hide Covered, ReceiptsHonoured, PipeOf, EchoOf, Sound;
    if e.Arrives? {
      assert s.snd.socket[s.requestsRead] == e.request;
    }
  }

  lemma MoveOutcome(j: Joint, m: Move)
    requires UnderWay(j.s) && CanMove(j, m)
    ensures var t := Moved(j, m).s;
      Done(j.s, t) || (UnderWay(t) && t.snd.at.done == j.s.snd.at.done &&
                       t.snd.fired == j.s.snd.fired && t.taken == j.s.taken)
  {
    hide Invariant, Next;
    if m.Work? {
      var s, t := j.s, Next(j.s, m.l);
      InvariantStep(s, m.l);
      match m.l
      case Sender(e) =>
        SenderMoveOutcome(s, e);
        if t.snd.at.Running? {
          DoneIsDelivered(s, e);
        }
      case Receiver(e) => ReceiverMoveOutcome(s, e);
    }
  }

  lemma {:induction false} DoneIsDelivered(s: Session, e: S.Event)
    requires Invariant(s) && Invariant(Next(s, Sender(e))) && Enabled(s, Sender(e))
    requires |Next(s, Sender(e)).snd.fired| > |s.snd.fired|
    ensures Next(s, Sender(e)).rcv.got == Next(s, Sender(e)).taken
  {
    hide Covered, ReceiptsHonoured, CloseIsLast, PipeOf, EchoOf, Sound, S.Step;
    FiredMeansQuiet(s.snd, e);
    QuietMeansDelivered(ViewOf(Next(s, Sender(e))));
  }

  predicate Playable(j: Joint, moves: seq<Move>)
    decreases |moves|
  {
    moves == [] || (CanMove(j, moves[0]) && Playable(Moved(j, moves[0]), moves[1..]))
  }

  function Play(j: Joint, moves: seq<Move>): Joint
    requires Playable(j, moves)
    decreases |moves|
  {
    if moves == [] then j else Play(Moved(j, moves[0]), moves[1..])
  }

  /** The flush completes within as many steps as the weight of its backlog. */
  lemma {:induction false} FlushCompletes(j: Joint) returns (moves: seq<Move>)
    requires UnderWay(j.s)
    ensures Playable(j, moves) && |moves| <= Weight(j) && Done(j.s, Play(j, moves).s)
    decreases Weight(j)
  {
    assert j.s.snd.at.Flushing?;
    hide UnderWay, CanMove, Moved, Weight;
    var m := SomeMove(j);
    MoveIsProgress(j, m);
    MoveOutcome(j, m);
    var k := Moved(j, m);
    var rest := [];
    if !Done(j.s, k.s) {
      rest := FlushCompletes(k);
    }
    moves := [m] + rest;
    assert moves[0] == m && moves[1..] == rest;
    assert Play(j, moves) == Play(k, rest);
  }

  /** No schedule postpones it longer: as long as the flush is still under way, the number of steps
      taken is bounded by the weight at the start. */
  lemma {:induction false} NoScheduleIsLonger(j: Joint, moves: seq<Move>)
    requires UnderWay(j.s) && Playable(j, moves)
    requires forall i :: 0 <= i <= |moves| ==> Playable(j, moves[..i]) && UnderWay(Play(j, moves[..i]).s)
    ensures |moves| <= Weight(j)
    decreases |moves|
  {
    hide Healthy, CanMove, Moved, Weight;
    if moves != [] {
      var k := Moved(j, moves[0]);
      MoveIsProgress(j, moves[0]);
      forall i | 0 <= i <= |moves| - 1
        ensures Playable(k, moves[1..][..i]) && UnderWay(Play(k, moves[1..][..i]).s)
      {
        var front := moves[..i + 1];
        assert front[0] == moves[0] && front[1..] == moves[1..][..i];
        assert Playable(j, front) && UnderWay(Play(j, front).s);
      }
      assert moves[1..][..0] == [];
      NoScheduleIsLonger(k, moves[1..]);
    }
  }

  // ----- Without a flush

  /** A step of the sender outside a flush. */
  lemma RunMoveOutcome(s: Session, e: S.Event)
    requires Healthy(s) && s.snd.at.Running? && Enabled(s, Sender(e)) && Undisturbed(Sender(e))
    ensures var t := Next(s, Sender(e));
      t.lost == {} && t.taken == s.taken && t.rcv == s.rcv && t.snd.at.Running? && t.snd.fired == s.snd.fired
  {
    hide Covered, ReceiptsHonoured, CloseIsLast, PipeOf, EchoOf, Sound;
    if e.Respond? {
      FirstReply(s);
      EchoIsAwaited(s);
      assert e.response == s.rcv.replies[s.repliesRead];
    }
  }

  lemma RunStaysHealthy(j: Joint, m: Move)
    requires Healthy(j.s) && j.s.snd.at.Running? && CanMove(j, m)
    ensures var t := Moved(j, m).s;
      Healthy(t) && t.snd.at.Running? && t.taken == j.s.taken && t.snd.fired == j.s.snd.fired
  {
    hide Invariant, Next;
    if m.Work? {
      InvariantStep(j.s, m.l);
      match m.l
      case Sender(e) => RunMoveOutcome(j.s, e);
      case Receiver(e) => ReceiverMoveOutcome(j.s, e);
    }
  }

  /** All that was taken is delivered and acknowledged, and the sender goes on running. */
  ghost predicate Settled(before: Session, s: Session) {
    && s.snd.at.Running? && s.snd.pending == [] && s.snd.waiting == map[]
    && s.rcv.got == s.taken == before.taken
  }

  lemma QuietIsSettled(s: Session)
    requires Healthy(s) && s.snd.at.Running? && !Unsettled(s)
    ensures Settled(s, s)
  {
    hide Invariant;
    QuietGot(s);
  }

  /** `run` settles what it took, without a flush and without taking anything, within as many steps as the
      weight of its backlog: it sends, and it reads the acknowledgements. */
  lemma {:induction false} RunSettles(j: Joint) returns (moves: seq<Move>)
    requires Healthy(j.s) && j.s.snd.at.Running?
    ensures Playable(j, moves) && |moves| <= Weight(j) && Settled(j.s, Play(j, moves).s)
    decreases Weight(j)
  {
    hide Healthy, CanMove, Moved, Weight;
    if !Unsettled(j.s) {
      QuietIsSettled(j.s);
      moves := [];
    } else {
      var m := SomeMove(j);
      MoveIsProgress(j, m);
      RunStaysHealthy(j, m);
      var k := Moved(j, m);
      var rest := RunSettles(k);
      moves := [m] + rest;
      assert moves[0] == m && moves[1..] == rest;
      assert Play(j, moves) == Play(k, rest);
    }
  }

  /** And no schedule is longer, whatever it does. */
  lemma {:induction false} RunScheduleIsBounded(j: Joint, moves: seq<Move>)
    requires Healthy(j.s) && j.s.snd.at.Running? && Playable(j, moves)
    ensures |moves| <= Weight(j) && Healthy(Play(j, moves).s) && Play(j, moves).s.taken == j.s.taken
    decreases |moves|
  {
    hide Healthy, CanMove, Moved, Weight;
    if moves != [] {
      MoveIsProgress(j, moves[0]);
      RunStaysHealthy(j, moves[0]);
      RunScheduleIsBounded(Moved(j, moves[0]), moves[1..]);
    }
  }

  /** From every state of a session whose sender is in its `run` loop, whose receiver has not ended and
      which lost nothing. */
  lemma RunSettlesWhatItTook(run: seq<Label>, queued: nat) returns (moves: seq<Move>)
    requires var s := After(FRESH_SESSION, run);
      DistinctKeys(s.taken) && s.snd.at.Running? && !s.rcv.at.Ended? && s.lost == {}
    ensures var s := After(FRESH_SESSION, run); var j := Joint(s, queued);
      && Playable(j, moves) && |moves| <= Weight(j)
      && var t := Play(j, moves).s;
         t.snd.at.Running? && t.snd.pending == [] && t.snd.waiting == map[] && t.rcv.got == t.taken == s.taken
  {
    FreshInvariant();
    InvariantAfter(FRESH_SESSION, run);
    hide After, Invariant, DistinctKeys;
    moves := RunSettles(Joint(After(FRESH_SESSION, run), queued));
  }

  lemma {:induction false} LostNeverFires(j: Joint, moves: seq<Move>)
    requires Invariant(j.s) && j.s.lost != {} && Playable(j, moves)
    ensures Play(j, moves).s.snd.fired == j.s.snd.fired
    decreases |moves|
  {
    hide Invariant, Next, FreshTake;
    if moves != [] {
      if moves[0].Work? {
        NothingTaken(j.s, moves[0].l);
        InvariantStep(j.s, moves[0].l);
        LostBlocksStep(j.s, moves[0].l);
      }
      LostNeverFires(Moved(j, moves[0]), moves[1..]);
    }
  }

  lemma NothingTaken(s: Session, l: Label)
    requires Undisturbed(l)
    ensures FreshTake(s, l)
  {
  }

  // ----- A receiver that has ended

  /** Every awaited buffer has its acknowledgement under way. */
  ghost predicate AllAnswered(s: Session) {
    s.snd.pending == [] && forall k :: k in s.snd.waiting ==> k in AcksOf(Replies(s))
  }

  lemma OnlyLastIsNoAck(s: Session)
    requires WellFormed(s) && RepliesAreAcks(s)
    ensures |Replies(s)| > 1 ==> Replies(s)[0].AckData?
  {
    assert |Replies(s)| > 1 ==> Replies(s)[0] == s.rcv.replies[s.repliesRead];
  }

  lemma FirstIsAck(r: seq<DataChannelResponse>, k: Sequence)
    requires k in AcksOf(r) && (|r| > 1 ==> r[0].AckData?)
    ensures r != [] && r[0].AckData? && AcksOf(r) == [r[0].ack] + AcksOf(r[1..])
  {
    AcksOfDrop(r);
    AcksOfOne(r[0]);
    assert |r| == 1 ==> r == [r[0]];
  }

  lemma OldestEchoIsAwaited(s: Session)
    requires Invariant(s)
    ensures Replies(s) != [] && Replies(s)[0].AckData? ==> Replies(s)[0].ack in s.snd.waiting
  {
    hide Covered, CloseIsLast, ReceiptsHonoured, RepliesAreAcks, EchoOf, Sound;
    if Replies(s) != [] {
      FirstReply(s);
      EchoIsAwaited(s);
    }
  }

  lemma NextAnswer(s: Session)
    requires Invariant(s) && AllAnswered(s) && s.snd.waiting != map[]
    ensures Replies(s) != [] && Replies(s)[0].AckData? && Replies(s)[0].ack in s.snd.waiting
    ensures AcksOf(Replies(s)) == [Replies(s)[0].ack] + AcksOf(Replies(s)[1..])
  {
    OnlyLastIsNoAck(s);
    hide Invariant, AcksOf, Replies;
    var k :| k in s.snd.waiting;
    FirstIsAck(Replies(s), k);
    OldestEchoIsAwaited(s);
  }

  /** What reading the acknowledgement of `q` does to a flush. */
  lemma AckEffect(s: Session, q: Sequence)
    requires s.snd.at.Flushing? && q in s.snd.waiting && Enabled(s, Sender(S.Respond(AckData(q))))
    ensures var t := Next(s, Sender(S.Respond(AckData(q))));
      && t.rcv == s.rcv && t.snd.pending == s.snd.pending && t.snd.waiting == s.snd.waiting - {q}
      && Replies(t) == Replies(s)[1..]
      && (if t.snd.pending == [] && t.snd.waiting == map[] then t.snd.fired == s.snd.fired + [s.snd.at.done]
          else t.snd.fired == s.snd.fired && t.snd.at == S.Flushing(s.snd.at.done, false))
  {
    var t := Next(s, Sender(S.Respond(AckData(q))));
    assert t.rcv == s.rcv && t.repliesRead == s.repliesRead + 1;
  }

  /** A flushed sender reads an acknowledgement. */
  lemma AnswerRead(s: Session)
    requires Invariant(s) && AllAnswered(s) && s.snd.waiting != map[] && s.rcv.at.Ended?
    requires s.snd.at.Flushing? && s.snd.at.synced
    ensures Replies(s) != [] && Replies(s)[0].AckData? && Enabled(s, Sender(S.Respond(Replies(s)[0])))
    ensures var t := Next(s, Sender(S.Respond(Replies(s)[0])));
      && Invariant(t) && AllAnswered(t) && t.rcv == s.rcv && |Replies(t)| < |Replies(s)|
      && (if t.snd.waiting == map[] then t.snd.fired == s.snd.fired + [s.snd.at.done]
          else t.snd.fired == s.snd.fired && t.snd.at == S.Flushing(s.snd.at.done, false))
  {
    hide Invariant, AcksOf, Replies, Next;
    NextAnswer(s);
    InvariantStep(s, Sender(S.Respond(Replies(s)[0])));
    AckEffect(s, Replies(s)[0].ack);
  }

  lemma SyncEffect(s: Session)
    requires s.snd.at.Flushing? && !s.snd.at.synced
    ensures Enabled(s, Sender(S.Sync(true)))
    ensures var t := Next(s, Sender(S.Sync(true)));
      && t.rcv == s.rcv && t.repliesRead == s.repliesRead && t.snd.pending == s.snd.pending
      && t.snd.waiting == s.snd.waiting && t.snd.fired == s.snd.fired
      && t.snd.at == S.Flushing(s.snd.at.done, true)
  {
  }

  lemma SyncRead(s: Session)
    requires Invariant(s) && AllAnswered(s) && s.snd.waiting != map[] && s.rcv.at.Ended?
    requires s.snd.at.Flushing? && !s.snd.at.synced
    ensures Enabled(s, Sender(S.Sync(true)))
    ensures var t := Next(s, Sender(S.Sync(true)));
      && Invariant(t) && AllAnswered(t) && t.rcv == s.rcv && Replies(t) == Replies(s)
      && t.snd.waiting == s.snd.waiting && t.snd.fired == s.snd.fired
      && t.snd.at == S.Flushing(s.snd.at.done, true)
  {
    hide Invariant, AcksOf, Next, Enabled;
    SyncEffect(s);
    InvariantStep(s, Sender(S.Sync(true)));
  }

  /** The sender reads the acknowledgements that are left. */
  lemma {:induction false} FinishAfterEnd(j: Joint) returns (moves: seq<Move>)
    requires Invariant(j.s) && AllAnswered(j.s) && j.s.snd.waiting != map[] && j.s.rcv.at.Ended?
    requires j.s.snd.at.Flushing?
    ensures Playable(j, moves) && Play(j, moves).s.snd.fired == j.s.snd.fired + [j.s.snd.at.done]
    decreases |Replies(j.s)|, j.s.snd.at.Flushing? && !j.s.snd.at.synced
  {
    hide Invariant, AllAnswered, Next, Enabled, AcksOf;
    var m;
    if j.s.snd.at.synced {
      AnswerRead(j.s);
      m := Work(Sender(S.Respond(Replies(j.s)[0])));
    } else {
      SyncRead(j.s);
      m := Work(Sender(S.Sync(true)));
    }
    var k := Moved(j, m);
    if k.s.snd.waiting == map[] {
      moves := [m];
    } else {
      var rest := FinishAfterEnd(k);
      moves := [m] + rest;
    }
  }

  /** Something is still to be sent, or awaited without an acknowledgement under way. */
  ghost predicate Unanswered(s: Session) {
    && s.rcv.at.Ended? && (s.snd.at.Flushing? || s.snd.at.Stopped?)
    && (s.snd.pending != [] || exists k :: k in s.snd.waiting && k !in AcksOf(Replies(s)))
  }

  /** The oldest reply of an ended receiver. */
  lemma OldestReply(s: Session, r: DataChannelResponse)
    requires Invariant(s) && s.rcv.at.Ended? && Enabled(s, Sender(S.Respond(r)))
    ensures r.AckData? || r.CloseResponse?
    ensures r.AckData? ==> r.ack in s.snd.waiting && AcksOf(Replies(s)) == [r.ack] + AcksOf(Replies(s)[1..])
    ensures r.AckData? ==> r.ack !in AcksOf(Replies(s)[1..])
  {
    hide Covered, CloseIsLast, PipeOf, InOrder, Placed, ReceiptsHonoured;
    FirstReply(s);
    EchoIsAwaited(s);
    AcksOfDrop(Replies(s));
    AcksOfOne(r);
    hide AcksOf;
    var rest := AcksOf(Replies(s)[1..]);
    if r.AckData? {
      assert EchoOf(s) == [r.ack] + rest;
      assert ViewOf(s).echo == EchoOf(s);
      forall i | 0 <= i < |rest| ensures rest[i] != r.ack {
        assert EchoOf(s)[i + 1] == rest[i];
      }
    }
  }

  lemma CloseEffect(s: Session)
    requires Enabled(s, Sender(S.Respond(CloseResponse)))
    ensures var t := Next(s, Sender(S.Respond(CloseResponse)));
      && t.snd.at.Stopped? && t.rcv == s.rcv && t.snd.pending == s.snd.pending
      && t.snd.waiting == s.snd.waiting && t.snd.fired == s.snd.fired && Replies(t) == Replies(s)[1..]
  {
  }

  lemma UnansweredRespond(s: Session, r: DataChannelResponse)
    requires Invariant(s) && Unanswered(s) && Enabled(s, Sender(S.Respond(r)))
    ensures var t := Next(s, Sender(S.Respond(r))); Unanswered(t) && t.snd.fired == s.snd.fired
  {
    OldestReply(s, r);
    NotStopped(s, S.Respond(r));
    hide Invariant, Next, Enabled, AcksOf;
    AcksShrink(Replies(s));
    if r.AckData? {
      AckEffect(s, r.ack);
    } else {
      CloseEffect(s);
    }
    hide Replies;
    var t := Next(s, Sender(S.Respond(r)));
    if s.snd.pending == [] {
      var k :| k in s.snd.waiting && k !in AcksOf(Replies(s));
      assert k in t.snd.waiting && k !in AcksOf(Replies(t));
    }
  }

  lemma NotStopped(s: Session, e: S.Event)
    requires Unanswered(s) && Enabled(s, Sender(e))
    ensures s.snd.at.Flushing?
  {
  }

  lemma AcksShrink(r: seq<DataChannelResponse>)
    requires r != []
    ensures forall k :: k in AcksOf(r[1..]) ==> k in AcksOf(r)
  {
    AcksOfDrop(r);
  }

  lemma UnansweredSend(s: Session)
    requires Invariant(s) && Unanswered(s) && Enabled(s, Sender(S.Send(S.Fed)))
    ensures var t := Next(s, Sender(S.Send(S.Fed))); Unanswered(t) && t.snd.fired == s.snd.fired
  {
    hide Covered, CloseIsLast, PipeOf, AcksOf;
    FrontIsNew(ViewOf(s));
    var k := s.snd.pending[0].Sequence();
    assert k !in EchoOf(s);
    var t := Next(s, Sender(S.Send(S.Fed)));
    assert k in t.snd.waiting && Replies(t) == Replies(s);
  }

  lemma UnansweredStep(s: Session, l: Label)
    requires Invariant(s) && Unanswered(s) && Enabled(s, l) && Undisturbed(l)
    ensures var t := Next(s, l); Unanswered(t) && t.snd.fired == s.snd.fired
  {
    if l.Sender? && l.se.Respond? {
      UnansweredRespond(s, l.se.response);
    } else if l.Sender? && l.se.Send? {
      UnansweredSend(s);
    } else {
      UnansweredWrite(s, l);
    }
  }

  lemma UnansweredWrite(s: Session, l: Label)
    requires Unanswered(s) && Enabled(s, l) && l.Sender? && (l.se.Drain? || l.se == S.Sync(true))
    ensures var t := Next(s, l); Unanswered(t) && t.snd.fired == s.snd.fired
  {
    hide AcksOf;
    var t := Next(s, l);
    assert t.rcv == s.rcv && t.snd.pending == s.snd.pending && t.snd.waiting == s.snd.waiting;
    assert Replies(t) == Replies(s);
  }

  lemma {:induction false} UnansweredNeverFires(j: Joint, moves: seq<Move>)
    requires Invariant(j.s) && Unanswered(j.s) && Playable(j, moves)
    ensures Play(j, moves).s.snd.fired == j.s.snd.fired
    decreases |moves|
  {
    hide Invariant, Unanswered, Next, FreshTake;
    if moves != [] {
      if moves[0].Work? {
        NothingTaken(j.s, moves[0].l);
        InvariantStep(j.s, moves[0].l);
        UnansweredStep(j.s, moves[0].l);
      }
      UnansweredNeverFires(Moved(j, moves[0]), moves[1..]);
    }
  }

  // ----- A receiver whose application is gone

  /** Its last reply says so, and a sender at work has not read it yet. */
  ghost predicate Announced(s: Session) {
    s.rcv.at == R.Ended(R.Finished) ==>
      && s.rcv.replies != [] && s.rcv.replies[|s.rcv.replies| - 1] == CloseResponse
      && (Sending(s) ==> s.repliesRead < |s.rcv.replies|)
  }

  lemma SenderStaysAnnounced(s: Session, e: S.Event)
    requires WellFormed(s) && RepliesAreAcks(s) && Announced(s)
    ensures Announced(Next(s, Sender(e)))
  {
    hide S.Step;
    if s.rcv.at == R.Ended(R.Finished) && Enabled(s, Sender(e)) {
      OfferedIsSending(s, e);
      if e.Respond? && s.repliesRead == |s.rcv.replies| - 1 {
        assert e.response == CloseResponse;
        CloseStops(s);
      }
    }
  }

  lemma OfferedIsSending(s: Session, e: S.Event)
    requires Enabled(s, Sender(e))
    ensures Sending(s)
  {
  }

  lemma ReceiverStaysAnnounced(s: Session, e: R.Event)
    requires WellFormed(s) && Announced(s)
    ensures Announced(Next(s, Receiver(e)))
  {
  }

  lemma {:induction false} AlwaysAnnounced(run: seq<Label>)
    requires DistinctKeys(After(FRESH_SESSION, run).taken)
    ensures Announced(After(FRESH_SESSION, run)) && Invariant(After(FRESH_SESSION, run))
  {
    FreshInvariant();
    InvariantAfter(FRESH_SESSION, run);
    if run != [] {
      hide Announced, Invariant, Next, DistinctKeys;
      var s, l := After(FRESH_SESSION, run[..|run| - 1]), run[|run| - 1];
      TakenGrows(s, l);
      AlwaysAnnounced(run[..|run| - 1]);
      InvariantParts(s);
      match l
      case Sender(e) => SenderStaysAnnounced(s, e);
      case Receiver(e) => ReceiverStaysAnnounced(s, e);
    }
  }

  lemma InvariantParts(s: Session)
    requires Invariant(s)
    ensures WellFormed(s) && RepliesAreAcks(s)
  {
  }

  /** What the sender reads next from such a receiver. */
  lemma NextReply(s: Session)
    requires Invariant(s) && Announced(s) && s.rcv.at == R.Ended(R.Finished) && Sending(s)
    ensures Replies(s) != []
    ensures Replies(s)[0] == CloseResponse || (Replies(s)[0].AckData? && Replies(s)[0].ack in s.snd.waiting)
  {
    assert Replies(s)[0] == s.rcv.replies[s.repliesRead];
    OldestEchoIsAwaited(s);
    hide Sound, Covered, CloseIsLast, ReceiptsHonoured;
  }

  lemma AckKeepsSending(s: Session, q: Sequence)
    requires Sending(s) && q in s.snd.waiting && Enabled(s, Sender(S.Respond(AckData(q))))
    ensures var t := Next(s, Sender(S.Respond(AckData(q))));
      Sending(t) && t.rcv == s.rcv && |Replies(t)| < |Replies(s)|
  {
  }

  /** The sender hears of it: reading what is there, it stops as closed by the other side. */
  lemma {:induction false} ClosingIsHeard(j: Joint) returns (moves: seq<Move>)
    requires Invariant(j.s) && Announced(j.s) && j.s.rcv.at == R.Ended(R.Finished) && Sending(j.s)
    ensures Playable(j, moves) && Play(j, moves).s.snd.at == S.Stopped(S.ClosedByOtherSide)
    decreases |Replies(j.s)|, j.s.snd.at.Flushing? && !j.s.snd.at.synced
  {
    hide Invariant, Announced, Next, Enabled, Sending, Replies;
    var m;
    if j.s.snd.at.Flushing? && !j.s.snd.at.synced {
      SyncEffect(j.s);
      InvariantStep(j.s, Sender(S.Sync(true)));
      InvariantParts(j.s);
      SenderStaysAnnounced(j.s, S.Sync(true));
      SyncKeepsReplies(j.s);
      m := Work(Sender(S.Sync(true)));
    } else {
      NextReply(j.s);
      var r := Replies(j.s)[0];
      RespondIsOffered(j.s);
      InvariantStep(j.s, Sender(S.Respond(r)));
      InvariantParts(j.s);
      SenderStaysAnnounced(j.s, S.Respond(r));
      if r.AckData? {
        AckKeepsSending(j.s, r.ack);
      } else {
        CloseStops(j.s);
      }
      m := Work(Sender(S.Respond(r)));
    }
    var k := Moved(j, m);
    if k.s.snd.at == S.Stopped(S.ClosedByOtherSide) {
      moves := [m];
    } else {
      var rest := ClosingIsHeard(k);
      moves := [m] + rest;
    }
  }

  lemma SyncKeepsReplies(s: Session)
    requires s.snd.at.Flushing? && !s.snd.at.synced
    ensures Replies(Next(s, Sender(S.Sync(true)))) == Replies(s) && Sending(Next(s, Sender(S.Sync(true))))
  {
  }

  lemma RespondIsOffered(s: Session)
    requires Sending(s) && !(s.snd.at.Flushing? && !s.snd.at.synced) && Replies(s) != []
    ensures Enabled(s, Sender(S.Respond(Replies(s)[0])))
  {
  }

  lemma CloseStops(s: Session)
    requires Enabled(s, Sender(S.Respond(CloseResponse)))
    ensures Next(s, Sender(S.Respond(CloseResponse))).snd.at == S.Stopped(S.ClosedByOtherSide)
  {
  }

  /** In every session whose receiver ended because its application was gone, a sender that is still at
      work comes to know, in `run` and in a flush alike. */
  lemma FinishedIsHeard(run: seq<Label>, queued: nat) returns (moves: seq<Move>)
    requires var s := After(FRESH_SESSION, run);
      DistinctKeys(s.taken) && s.rcv.at == R.Ended(R.Finished) && (s.snd.at.Running? || s.snd.at.Flushing?)
    ensures var j := Joint(After(FRESH_SESSION, run), queued);
      Playable(j, moves) && Play(j, moves).s.snd.at == S.Stopped(S.ClosedByOtherSide)
  {
    AlwaysAnnounced(run);
    hide After, Invariant, Announced, DistinctKeys;
    moves := ClosingIsHeard(Joint(After(FRESH_SESSION, run), queued));
  }

  // ----- Exactly when a flush ends

  ghost predicate CanFire(j: Joint) {
    exists moves :: Playable(j, moves) && Play(j, moves).s.snd.fired != j.s.snd.fired
  }

  /** A flush in progress can be completed exactly when no buffer has been lost and, if the receiver has
      already ended, all that is awaited is answered and nothing is left to send. */
  lemma FlushEndsIffNothingLost(j: Joint)
    requires Invariant(j.s) && j.s.snd.at.Flushing? && (j.s.snd.pending != [] || j.s.snd.waiting != map[])
    ensures CanFire(j) <==> j.s.lost == {} && (j.s.rcv.at.Ended? ==> AllAnswered(j.s))
  {
    hide Invariant, Playable, Play, AcksOf;
    if j.s.lost != {} {
      forall moves | Playable(j, moves) ensures Play(j, moves).s.snd.fired == j.s.snd.fired {
        LostNeverFires(j, moves);
      }
    } else if !j.s.rcv.at.Ended? {
      var moves := FlushCompletes(j);
      assert Playable(j, moves) && Play(j, moves).s.snd.fired != j.s.snd.fired;
    } else if AllAnswered(j.s) {
      var moves := FinishAfterEnd(j);
      assert Playable(j, moves) && Play(j, moves).s.snd.fired != j.s.snd.fired;
    } else {
      forall moves | Playable(j, moves) ensures Play(j, moves).s.snd.fired == j.s.snd.fired {
        UnansweredNeverFires(j, moves);
      }
    }
  }
}
