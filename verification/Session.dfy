/** One data connection: a sender handler, a receiver handler, and two lossless first-in first-out
    streams between them. Every step of the pair refines one operation of `Pipeline`. */
module Session {
  import opened Protocol
  import opened Sequences
  import opened Pipeline
  import S = SenderHandler
  import R = ReceiverHandler

  /** A stream is what was written to it and how far it has been read. `taken`, `lost` and
      `receipts` are history: the buffers taken from the control queue, the buffers that will
      never arrive, and for every completed flush what had been taken by then. */
  datatype Session = Session(
    snd: S.Sender, rcv: R.Receiver, requestsRead: nat, repliesRead: nat,
    taken: seq<TupleBuffer>, lost: set<TupleBuffer>, receipts: seq<seq<TupleBuffer>>)

  const FRESH_SESSION := Session(S.FRESH_SENDER, R.FRESH_RECEIVER, 0, 0, [], {}, [])

  datatype Label = Sender(se: S.Event) | Receiver(re: R.Event)

  ghost predicate WellFormed(s: Session) {
    && s.requestsRead <= |s.snd.socket|
    && s.repliesRead <= |s.rcv.replies|
    && (forall r :: r in s.rcv.replies ==> !r.NAckData?)
  }

  /** What of a stream is still to be read. */
  function Unread<T>(written: seq<T>, read: nat): seq<T> {
    if read <= |written| then written[read..] else []
  }

  function Requests(s: Session): seq<DataChannelRequest> { Unread(s.snd.socket, s.requestsRead) }

  function Replies(s: Session): seq<DataChannelResponse> { Unread(s.rcv.replies, s.repliesRead) }

  /** A step is possible when its handler waits for it and its stream provides it. */
  predicate Enabled(s: Session, l: Label) {
    match l
    case Sender(e) =>
      && S.Offered(s.snd, e)
      && (e.Respond? ==> Replies(s) != [] && Replies(s)[0] == e.response)
    case Receiver(e) =>
      && R.Offered(s.rcv.at, e)
      && (e.Arrives? ==> Requests(s) != [] && Requests(s)[0] == e.request)
  }

  /** A buffer that stops existing in this step: a feed dropped part-way, or a receiver that ends
      while it holds one. */
  function NewlyLost(s: Session, l: Label): set<TupleBuffer> {
    match l
    case Sender(e) => if e.Send? && e.feed.Dropped? && s.snd.pending != [] then {s.snd.pending[0]} else {}
    case Receiver(e) => if s.rcv.at.Holding? && !e.Enqueues? then {s.rcv.at.buffer} else {}
  }

  function Next(s: Session, l: Label): Session {
    if !Enabled(s, l) then s
    else
      match l
      case Sender(e) =>
        var snd := S.Step(s.snd, e);
        var taken := if e.Take? && e.message.DataMessage? then s.taken + [e.message.buffer] else s.taken;
        s.(snd := snd, taken := taken, lost := s.lost + NewlyLost(s, l),
           repliesRead := if e.Respond? then s.repliesRead + 1 else s.repliesRead,
           receipts := if |snd.fired| > |s.snd.fired| then s.receipts + [taken] else s.receipts)
      case Receiver(e) =>
        s.(rcv := R.Step(s.rcv, e), lost := s.lost + NewlyLost(s, l),
           requestsRead := if e.Arrives? then s.requestsRead + 1 else s.requestsRead)
  }

  function Held(p: R.Place): seq<TupleBuffer> { if p.Holding? then [p.buffer] else [] }

  function Owed(p: R.Place): seq<Sequence> { if p.Acking? then [p.key] else [] }

  function PipeOf(s: Session): seq<TupleBuffer> {
    Held(s.rcv.at) + (DataOf(Requests(s)) + DataOf(s.snd.outbox))
  }

  function EchoOf(s: Session): seq<Sequence> { AcksOf(Replies(s)) + Owed(s.rcv.at) }

  function ViewOf(s: Session): View {
    View(s.rcv.got, PipeOf(s), s.snd.pending, EchoOf(s), s.snd.waiting, s.taken, s.lost)
  }

  /** The operation of the pipeline that a step performs. */
  function OpOf(s: Session, l: Label): Op {
    if !Enabled(s, l) then Stutter
    else
      match l
      case Sender(Take(DataMessage(b), _)) => Accept(b)
      case Sender(Send(Fed)) => Launch
      case Sender(Send(Dropped)) => Strand
      case Sender(Respond(AckData(_))) => Confirm
      case Receiver(Enqueues) => Deliver
      case Receiver(e) =>
        if s.rcv.at.Holding? then LoseFront
        else if s.rcv.at.Acking? && e != R.AckWritten(true) then LoseEcho
        else Stutter
      case _ => Stutter
  }

  lemma DataOfDrop(r: seq<DataChannelRequest>)
    requires r != []
    ensures DataOf(r) == DataOf([r[0]]) + DataOf(r[1..])
  {
    hide DataOf, AcksOf;
    assert r == [r[0]] + r[1..];
    DataOfConcat([r[0]], r[1..]);
  }

  lemma AcksOfDrop(r: seq<DataChannelResponse>)
    requires r != []
    ensures AcksOf(r) == AcksOf([r[0]]) + AcksOf(r[1..])
  {
    hide DataOf, AcksOf;
    assert r == [r[0]] + r[1..];
    AcksOfConcat([r[0]], r[1..]);
  }

  ghost predicate FreshTake(s: Session, l: Label) {
    l.Sender? && l.se.Take? && l.se.message.DataMessage? ==>
      forall c :: c in s.taken ==> c.Sequence() != l.se.message.buffer.Sequence()
  }

  /** Writing `sent`, the front of the outbox, moves nothing in the pipe. */
  lemma WrittenKeepsPipe(s: Session, sent: seq<DataChannelRequest>, rest: seq<DataChannelRequest>,
                         more: seq<DataChannelRequest>)
    requires s.requestsRead <= |s.snd.socket| && s.snd.outbox == sent + rest && DataOf(more) == []
    ensures DataOf(Unread(s.snd.socket + sent + more, s.requestsRead)) + DataOf(rest) ==
            DataOf(Requests(s)) + DataOf(s.snd.outbox)
  {
    hide DataOf, AcksOf;
    DataOfConcat(sent, rest);
    assert Unread(s.snd.socket + sent + more, s.requestsRead) == Requests(s) + sent + more;
    DataOfConcat(Requests(s) + sent, more);
    DataOfConcat(Requests(s), sent);
  }

  lemma {:induction false} DrainRefines(s: Session, n: nat)
    requires WellFormed(s) && Enabled(s, Sender(S.Drain(n)))
    ensures ViewOf(Next(s, Sender(S.Drain(n)))) == Apply(ViewOf(s), OpOf(s, Sender(S.Drain(n))))
  {
    hide DataOf, AcksOf;
    var out := s.snd.outbox;
    assert out == out[..n] + out[n..];
    assert s.snd.socket + out[..n] == s.snd.socket + out[..n] + [];
    DataOfNothing();
    WrittenKeepsPipe(s, out[..n], out[n..], []);
    assert PipeOf(Next(s, Sender(S.Drain(n)))) == PipeOf(s);
  }

  lemma SyncRefines(s: Session, ok: bool)
    requires WellFormed(s) && Enabled(s, Sender(S.Sync(ok)))
    ensures ViewOf(Next(s, Sender(S.Sync(ok)))) == Apply(ViewOf(s), OpOf(s, Sender(S.Sync(ok))))
  {
    hide DataOf, AcksOf;
    if ok {
      var out := s.snd.outbox;
      assert out == out + [];
      assert s.snd.socket + out == s.snd.socket + out + [];
      DataOfNothing();
      WrittenKeepsPipe(s, out, [], []);
    }
    assert PipeOf(Next(s, Sender(S.Sync(ok)))) == PipeOf(s);
  }

  lemma TerminateRefines(s: Session, written: bool)
    requires WellFormed(s) && Enabled(s, Sender(S.Take(Terminate, written)))
    ensures var l := Sender(S.Take(Terminate, written)); ViewOf(Next(s, l)) == Apply(ViewOf(s), OpOf(s, l))
  {
    hide DataOf, AcksOf;
    if written {
      DataOfNothing();
      var out := s.snd.outbox;
      assert out == out + [];
      DataOfOne(Close);
      WrittenKeepsPipe(s, out, [], [Close]);
    }
    assert PipeOf(Next(s, Sender(S.Take(Terminate, written)))) == PipeOf(s);
  }

  lemma FedRefines(s: Session)
    requires WellFormed(s) && Enabled(s, Sender(S.Send(S.Fed)))
    ensures ViewOf(Next(s, Sender(S.Send(S.Fed)))) == Apply(ViewOf(s), Launch)
  {
    hide DataOf, AcksOf;
    var b := s.snd.pending[0];
    var t := Next(s, Sender(S.Send(S.Fed)));
    DataOfConcat(s.snd.outbox, [Data(b)]);
    DataOfOne(Data(b));
    assert t.snd.outbox == s.snd.outbox + [Data(b)];
    assert PipeOf(t) == PipeOf(s) + [b];
  }

  lemma RefusedRefines(s: Session)
    requires WellFormed(s) && Enabled(s, Sender(S.Send(S.Refused)))
    requires s.snd.pending[0].Sequence() !in s.snd.waiting
    ensures ViewOf(Next(s, Sender(S.Send(S.Refused)))) == Apply(ViewOf(s), Stutter)
  {
    hide DataOf, AcksOf;
    var w := s.snd.waiting - {s.snd.pending[0].Sequence()};
    assert w == s.snd.waiting;
    assert S.SendPending(s.snd, S.Refused) == s.snd;
    assert Next(s, Sender(S.Send(S.Refused))).snd == S.Resume(s.snd);
    assert PipeOf(Next(s, Sender(S.Send(S.Refused)))) == PipeOf(s);
  }

  lemma DroppedRefines(s: Session)
    requires WellFormed(s) && Enabled(s, Sender(S.Send(S.Dropped)))
    ensures ViewOf(Next(s, Sender(S.Send(S.Dropped)))) == Apply(ViewOf(s), Strand)
  {
    hide DataOf, AcksOf;
    assert PipeOf(Next(s, Sender(S.Send(S.Dropped)))) == PipeOf(s);
  }

  lemma {:induction false} SendRefines(s: Session, feed: S.Feed)
    requires WellFormed(s) && Sound(ViewOf(s)) && Enabled(s, Sender(S.Send(feed)))
    ensures ViewOf(Next(s, Sender(S.Send(feed)))) == Apply(ViewOf(s), OpOf(s, Sender(S.Send(feed))))
  {
    hide PipeOf, EchoOf, Sound, Apply;
    match feed
    case Fed => FedRefines(s);
    case Refused => FrontIsNew(ViewOf(s)); RefusedRefines(s);
    case Dropped => DroppedRefines(s);
  }

  /** The oldest unread reply, when it is an acknowledgement, is the oldest echo. */
  lemma FirstReply(s: Session)
    requires WellFormed(s) && Replies(s) != []
    ensures !Replies(s)[0].NAckData?
    ensures Replies(s)[0].AckData? ==> EchoOf(s) != [] && EchoOf(s)[0] == Replies(s)[0].ack
    ensures AcksOf(Unread(s.rcv.replies, s.repliesRead + 1)) + Owed(s.rcv.at) ==
            if Replies(s)[0].AckData? then EchoOf(s)[1..] else EchoOf(s)
  {
    hide DataOf, AcksOf;
    var r := Replies(s)[0];
    assert r == s.rcv.replies[s.repliesRead];
    AcksOfDrop(Replies(s));
    assert Unread(s.rcv.replies, s.repliesRead + 1) == Replies(s)[1..];
    AcksOfOne(r);
  }

  lemma RespondRefines(s: Session, r: DataChannelResponse)
    requires WellFormed(s) && Enabled(s, Sender(S.Respond(r)))
    requires EchoOf(s) != [] ==> EchoOf(s)[0] in s.snd.waiting
    ensures ViewOf(Next(s, Sender(S.Respond(r)))) == Apply(ViewOf(s), OpOf(s, Sender(S.Respond(r))))
  {
    hide DataOf, AcksOf;
    FirstReply(s);
    assert PipeOf(Next(s, Sender(S.Respond(r)))) == PipeOf(s);
  }

  lemma ArrivesRefines(s: Session, q: DataChannelRequest)
    requires WellFormed(s) && Enabled(s, Receiver(R.Arrives(q)))
    ensures ViewOf(Next(s, Receiver(R.Arrives(q)))) == Apply(ViewOf(s), OpOf(s, Receiver(R.Arrives(q))))
  {
    hide DataOf, AcksOf;
    var t := Next(s, Receiver(R.Arrives(q)));
    DataOfDrop(Requests(s));
    assert Requests(t) == Requests(s)[1..];
    DataOfOne(q);
    assert DataOf(Requests(s)) == Held(t.rcv.at) + DataOf(Requests(t));
    assert PipeOf(t) == PipeOf(s);
    assert EchoOf(t) == EchoOf(s);
  }

  lemma EnqueuesRefines(s: Session)
    requires WellFormed(s) && Enabled(s, Receiver(R.Enqueues))
    ensures ViewOf(Next(s, Receiver(R.Enqueues))) == Apply(ViewOf(s), OpOf(s, Receiver(R.Enqueues)))
  {
    hide DataOf, AcksOf;
    var t := Next(s, Receiver(R.Enqueues));
    assert PipeOf(s) == [s.rcv.at.buffer] + PipeOf(t);
    assert EchoOf(t) == EchoOf(s) + [s.rcv.at.buffer.Sequence()];
  }

  lemma RepliesGrow(s: Session, r: DataChannelResponse)
    requires s.repliesRead <= |s.rcv.replies|
    ensures AcksOf(Unread(s.rcv.replies + [r], s.repliesRead)) ==
            AcksOf(Replies(s)) + if r.AckData? then [r.ack] else []
  {
    hide DataOf, AcksOf;
    assert Unread(s.rcv.replies + [r], s.repliesRead) == Replies(s) + [r];
    AcksOfConcat(Replies(s), [r]);
    AcksOfOne(r);
  }

  lemma AckRefines(s: Session, ok: bool)
    requires WellFormed(s) && Enabled(s, Receiver(R.AckWritten(ok)))
    ensures ViewOf(Next(s, Receiver(R.AckWritten(ok)))) == Apply(ViewOf(s), OpOf(s, Receiver(R.AckWritten(ok))))
  {
    hide DataOf, AcksOf;
    var t := Next(s, Receiver(R.AckWritten(ok)));
    RepliesGrow(s, AckData(s.rcv.at.key));
    assert PipeOf(t) == PipeOf(s);
    assert EchoOf(t) == if ok then EchoOf(s) else EchoOf(s)[..|EchoOf(s)| - 1];
  }

  lemma QueueGoneRefines(s: Session, replied: bool)
    requires WellFormed(s) && Enabled(s, Receiver(R.QueueGone(replied)))
    ensures ViewOf(Next(s, Receiver(R.QueueGone(replied)))) == Apply(ViewOf(s), OpOf(s, Receiver(R.QueueGone(replied))))
  {
    hide DataOf, AcksOf;
    var t := Next(s, Receiver(R.QueueGone(replied)));
    RepliesGrow(s, CloseResponse);
    assert PipeOf(s) == [s.rcv.at.buffer] + PipeOf(t);
    assert EchoOf(t) == EchoOf(s);
  }

  lemma EndRefines(s: Session, e: R.Event)
    requires WellFormed(s) && Enabled(s, Receiver(e)) && (e.Attached? || e.ReadFails? || e.Cancels?)
    ensures ViewOf(Next(s, Receiver(e))) == Apply(ViewOf(s), OpOf(s, Receiver(e)))
  {
    hide DataOf, AcksOf;
    var t := Next(s, Receiver(e));
    assert PipeOf(s) == Held(s.rcv.at) + PipeOf(t);
    assert EchoOf(s) == EchoOf(t) + Owed(s.rcv.at);
  }

  lemma ReceiverRefines(s: Session, e: R.Event)
    requires WellFormed(s) && Sound(ViewOf(s)) && Enabled(s, Receiver(e))
    ensures ViewOf(Next(s, Receiver(e))) == Apply(ViewOf(s), OpOf(s, Receiver(e)))
  {
    hide DataOf, AcksOf, Sound, OpOf, Apply, ViewOf, Next;
    match e
    case Arrives(q) => ArrivesRefines(s, q);
    case Enqueues => EnqueuesRefines(s);
    case AckWritten(ok) => AckRefines(s, ok);
    case QueueGone(replied) => QueueGoneRefines(s, replied);
    case _ => EndRefines(s, e);
  }

  /** The steps that touch no stream: taking a buffer or a flush, and giving up. */
  lemma QuietRefines(s: Session, e: S.Event)
    requires WellFormed(s) && Enabled(s, Sender(e)) && FreshTake(s, Sender(e))
    requires e.ReaderEnded? || e.ReaderFailed? || e.QueueClosed? || e.Cancel? || (e.Take? && !e.message.Terminate?)
    ensures ViewOf(Next(s, Sender(e))) == Apply(ViewOf(s), OpOf(s, Sender(e)))
  {
    hide DataOf, AcksOf;
  }

  lemma EchoIsAwaited(s: Session)
    requires Sound(ViewOf(s))
    ensures EchoOf(s) != [] ==> EchoOf(s)[0] in s.snd.waiting
  {
    hide DataOf, AcksOf, EchoOf, PipeOf;
    assert ViewOf(s).echo == EchoOf(s);
  }

  lemma SenderRefines(s: Session, e: S.Event)
    requires WellFormed(s) && Sound(ViewOf(s)) && Enabled(s, Sender(e)) && FreshTake(s, Sender(e))
    ensures ViewOf(Next(s, Sender(e))) == Apply(ViewOf(s), OpOf(s, Sender(e)))
  {
    hide DataOf, AcksOf, Sound, OpOf, Apply, ViewOf, Next;
    match e
    case Respond(r) => EchoIsAwaited(s); RespondRefines(s, r);
    case Send(feed) => SendRefines(s, feed);
    case Drain(n) => DrainRefines(s, n);
    case Sync(ok) => SyncRefines(s, ok);
    case Take(m, written) => if m.Terminate? { TerminateRefines(s, written); } else { QuietRefines(s, e); }
    case _ => QuietRefines(s, e);
  }

  lemma StepWellFormed(s: Session, l: Label)
    requires WellFormed(s)
    ensures WellFormed(Next(s, l))
  {
    hide S.Step, R.Step;
    match l
    case Sender(e) => S.WritesComeFromOutbox(s.snd, e);
    case Receiver(e) => R.RepliesOnlyGrow(s.rcv, e);
  }

  lemma StepPossible(s: Session, l: Label)
    requires WellFormed(s) && FreshTake(s, l)
    ensures Possible(ViewOf(s), OpOf(s, l))
  {
    if Enabled(s, l) && l.Sender? && l.se.Respond? {
      FirstReply(s);
    }
  }

  lemma DisabledStutters(s: Session, l: Label)
    requires !Enabled(s, l)
    ensures Next(s, l) == s && Apply(ViewOf(s), OpOf(s, l)) == ViewOf(s)
  {
  }

  /** Every step of a session is one operation of the pipeline. */
  lemma {:induction false} StepRefines(s: Session, l: Label)
    requires WellFormed(s) && Sound(ViewOf(s)) && FreshTake(s, l)
    ensures WellFormed(Next(s, l))
    ensures Possible(ViewOf(s), OpOf(s, l))
    ensures ViewOf(Next(s, l)) == Apply(ViewOf(s), OpOf(s, l))
  {
    hide DataOf, AcksOf, Sound, OpOf, Apply, ViewOf, Next;
    StepWellFormed(s, l);
    StepPossible(s, l);
    if Enabled(s, l) {
      match l
      case Receiver(e) => ReceiverRefines(s, e);
      case Sender(e) => SenderRefines(s, e);
    } else {
      DisabledStutters(s, l);
    }
  }
}
