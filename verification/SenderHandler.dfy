/** The sending side of a data channel: `ChannelHandler` with its nested `run` and `flush` loops.

    `Sender` and `Step` give the handler as a state machine over what the awaited `select!`
    arms may produce; the class is the handler itself, and `Run` is proved to be that machine. */
module SenderHandler {
  import opened Protocol
  import opened Sequences

  datatype Failure = ClosedByOtherSide | ConnectionLost | ProtocolError(unknown: Sequence) | Cancelled | Terminated

  /** Where the handler is suspended. In a flush, `synced` tells whether the writer has been
      flushed since the loop condition was last evaluated. */
  datatype Location = Running | Flushing(done: nat, synced: bool) | Stopped(why: Failure)

  /** `outbox` holds frames fed to the writer and not yet written; `socket` is everything written so
      far; `fired` lists the flush requests whose completion was signalled. */
  datatype Sender = Sender(
    pending: seq<TupleBuffer>, waiting: map<Sequence, TupleBuffer>,
    outbox: seq<DataChannelRequest>, socket: seq<DataChannelRequest>,
    fired: seq<nat>, at: Location)

  const FRESH_SENDER := Sender([], map[], [], [], [], Running)

  /** How one `feed` ends: accepted, refused, or its future dropped because another arm was taken. */
  datatype Feed = Fed | Refused | Dropped

  datatype Event =
    | Respond(response: DataChannelResponse)
    | ReaderEnded
    | ReaderFailed
    | Take(message: ControlMessage, written: bool) // written: did a Close reach the socket
    | QueueClosed
    | Cancel
    | Send(feed: Feed)
    | Drain(frames: nat) // the writer empties part of its buffer on its own
    | Sync(ok: bool)     // writer.flush() completes

  /** The events the suspended handler is waiting for. A feed into an empty writer is accepted at once, so
      only one that finds frames in the writer can be dropped. */
  predicate Offered(s: Sender, e: Event) {
    match s.at
    case Stopped(_) => false
    case Flushing(_, false) => e.Sync? || (e.Drain? && e.frames <= |s.outbox|)
    case _ =>
      match e
      case Sync(_) => false
      case Drain(n) => n <= |s.outbox|
      case Take(_, _) => s.at.Running?
      case QueueClosed => s.at.Running?
      case Send(feed) =>
        s.pending != [] && |s.waiting| < MAX_PENDING_ACKS && (feed.Dropped? ==> s.outbox != [])
      case _ => true
  }

  /** Back at the head of the loop: a flush with nothing left to send or await is done. */
  function Resume(s: Sender): (r: Sender)
    ensures r.pending == s.pending && r.waiting == s.waiting && r.outbox == s.outbox && r.socket == s.socket
    ensures r.at.Flushing? ==> s.pending != [] || s.waiting != map[]
    ensures r.fired != s.fired ==> r.at.Running? && s.pending == [] && s.waiting == map[]
  {
    if !s.at.Flushing? then s
    else if s.pending == [] && s.waiting == map[] then s.(fired := s.fired + [s.at.done], at := Running)
    else s.(at := Flushing(s.at.done, false))
  }

  function HandleResponse(s: Sender, r: DataChannelResponse): Sender {
    match r
    case CloseResponse => s.(at := Stopped(ClosedByOtherSide))
    case NAckData(q) =>
      if q in s.waiting then s.(waiting := s.waiting - {q}, pending := s.pending + [s.waiting[q]])
      else s.(at := Stopped(ProtocolError(q)))
    case AckData(q) =>
      if q in s.waiting then s.(waiting := s.waiting - {q})
      else s.(at := Stopped(ProtocolError(q)))
  }

  function SendPending(s: Sender, feed: Feed): Sender
    requires s.pending != []
  {
    var b := s.pending[0];
    match feed
    case Fed => s.(pending := s.pending[1..], waiting := s.waiting[b.Sequence() := b], outbox := s.outbox + [Data(b)])
    case Refused => s.(waiting := s.waiting - {b.Sequence()})
    case Dropped => s.(pending := s.pending[1..], waiting := s.waiting[b.Sequence() := b])
  }

  function HandleRequest(s: Sender, m: ControlMessage, written: bool): Sender {
    match m
    case DataMessage(b) => s.(pending := s.pending + [b])
    case Flush(done) => Resume(s.(at := Flushing(done, false)))
    case Terminate =>
      (if written then s.(socket := s.socket + s.outbox + [Close], outbox := []) else s)
      .(at := Stopped(Terminated))
  }

  function Step(s: Sender, e: Event): Sender {
    if !Offered(s, e) then s
    else
      match e
      case Respond(r) => Resume(HandleResponse(s, r))
      case ReaderEnded => s.(at := Stopped(ClosedByOtherSide))
      case ReaderFailed => s.(at := Stopped(ConnectionLost))
      case Take(m, written) => HandleRequest(s, m, written)
      case QueueClosed => s.(at := Stopped(Cancelled))
      case Cancel => s.(at := Stopped(Cancelled))
      case Send(feed) => Resume(SendPending(s, feed))
      case Drain(n) => s.(socket := s.socket + s.outbox[..n], outbox := s.outbox[n..])
      case Sync(ok) =>
        if ok then s.(socket := s.socket + s.outbox, outbox := [], at := Flushing(s.at.done, true))
        else s.(at := Stopped(ConnectionLost))
  }

  function After(s: Sender, script: seq<Event>): Sender {
    if script == [] then s
    else Step(After(s, script[..|script| - 1]), script[|script| - 1])
  }

  lemma FlushTaken(s: Sender, e: Event)
    requires s.at.Running? && e.Take? && e.message.Flush?
    ensures Step(s, e) == Resume(s.(at := Flushing(e.message.done, false)))
  {
  }

  /** What a step writes comes from the outbox, but for the `Close` of a terminating sender. */
  lemma WritesComeFromOutbox(s: Sender, e: Event)
    ensures var t := Step(s, e);
      && s.socket <= t.socket
      && (forall i :: |s.socket| <= i < |t.socket| ==>
            t.socket[i] in s.outbox ||
            (t.socket[i].Close? && i == |t.socket| - 1 && t.outbox == [] && t.at == Stopped(Terminated)))
      && (forall q :: q in t.outbox ==> q in s.outbox || q.Data?)
      && (s.at.Stopped? ==> t == s)
  {
  }

  /** In a flush whose writer has been flushed, the writer is empty. */
  predicate SyncedIsEmpty(s: Sender) { s.at.Flushing? && s.at.synced ==> s.outbox == [] }

  lemma StaysSynced(s: Sender, e: Event)
    requires SyncedIsEmpty(s)
    ensures SyncedIsEmpty(Step(s, e))
    ensures s.at.Flushing? && Offered(s, e) && e.Send? ==> !e.feed.Dropped?
  {
  }

  /** The frames an event hands to the writer. */
  function Frames(s: Sender, e: Event): seq<DataChannelRequest> {
    if !Offered(s, e) then []
    else if e == Send(Fed) then [Data(s.pending[0])]
    else if e.Take? && e.message.Terminate? && e.written then [Close]
    else []
  }

  function FramesOf(s: Sender, script: seq<Event>): seq<DataChannelRequest> {
    if script == [] then []
    else FramesOf(s, script[..|script| - 1]) + Frames(After(s, script[..|script| - 1]), script[|script| - 1])
  }

  lemma StreamStep(s: Sender, e: Event)
    ensures var t := Step(s, e); t.socket + t.outbox == s.socket + s.outbox + Frames(s, e)
  {
    if Offered(s, e) && e.Drain? {
      assert s.outbox == s.outbox[..e.frames] + s.outbox[e.frames..];
    }
  }

  /** What was written, followed by what the writer holds, is what was handed to it, in order: the
      writer neither loses nor reorders, however and whenever it drains. */
  lemma {:induction false} StreamIsFrames(s: Sender, script: seq<Event>)
    ensures var t := After(s, script); t.socket + t.outbox == s.socket + s.outbox + FramesOf(s, script)
  {
    if script != [] {
      var init := script[..|script| - 1];
      StreamIsFrames(s, init);
      StreamStep(After(s, init), script[|script| - 1]);
      hide Step, Frames;
    }
  }

  lemma AfterNothing(s: Sender, script: seq<Event>)
    ensures After(s, script[..0]) == s
  {
  }

  lemma AfterNext(s: Sender, script: seq<Event>, i: nat)
    requires i < |script|
    ensures After(s, script[..i + 1]) == Step(After(s, script[..i]), script[i])
  {
    assert script[..i + 1][..i] == script[..i];
  }

  lemma StoppedStays(s: Sender, e: Event)
    requires s.at.Stopped?
    ensures Step(s, e) == s
  {
  }

  lemma {:induction false} AfterStopped(s: Sender, script: seq<Event>, i: nat)
    requires i <= |script|
    requires After(s, script[..i]).at.Stopped?
    ensures After(s, script) == After(s, script[..i])
    decreases |script|
  {
    hide Step;
    if i < |script| {
      var init := script[..|script| - 1];
      assert init[..i] == script[..i];
      AfterStopped(s, init, i);
      StoppedStays(After(s, init), script[|script| - 1]);
    } else {
      assert script[..i] == script;
    }
  }

  /** The run is over once the handler stopped or the script is used up. */
  lemma AfterEnd(s: Sender, script: seq<Event>, i: nat)
    requires i <= |script| && (After(s, script[..i]).at.Stopped? || i == |script|)
    ensures After(s, script) == After(s, script[..i])
  {
    hide After;
    if i == |script| {
      assert script[..i] == script;
    } else {
      AfterStopped(s, script, i);
    }
  }

  /** The handler as the source has it: two containers changed in place by nested loops. */
  class ChannelHandler {
    var pendingWrites: seq<TupleBuffer>
    var waitForAck: map<Sequence, TupleBuffer>
    var outbox: seq<DataChannelRequest>
    var socket: seq<DataChannelRequest>
    var fired: seq<nat>

    constructor ()
      ensures State(Running) == FRESH_SENDER
    {
      pendingWrites, waitForAck := [], map[];
      outbox, socket, fired := [], [], [];
    }

    ghost function State(at: Location): Sender
      reads this
    {
      Sender(pendingWrites, waitForAck, outbox, socket, fired, at)
    }

    method TakeResponse(r: DataChannelResponse, ghost at: Location) returns (failure: Option<Failure>)
      modifies this`pendingWrites, this`waitForAck
      ensures State(if failure.Some? then Stopped(failure.value) else at) == HandleResponse(old(State(at)), r)
      ensures |waitForAck| <= |old(waitForAck)|
    {
      match r
      case CloseResponse => failure := Some(ClosedByOtherSide);
      case NAckData(q) =>
        if q in waitForAck {
          pendingWrites := pendingWrites + [waitForAck[q]];
          waitForAck := waitForAck - {q};
          failure := None;
        } else {
          failure := Some(ProtocolError(q));
        }
      case AckData(q) =>
        if q in waitForAck {
          waitForAck := waitForAck - {q};
          failure := None;
        } else {
          failure := Some(ProtocolError(q));
        }
    }

    method SendFront(feed: Feed, ghost at: Location)
      requires pendingWrites != []
      modifies this`pendingWrites, this`waitForAck, this`outbox
      ensures State(at) == SendPending(old(State(at)), feed)
      ensures |waitForAck| <= |old(waitForAck)| + 1
    {
      var next := pendingWrites[0];
      var key := next.Sequence();
      waitForAck := waitForAck[key := next];
      pendingWrites := pendingWrites[1..];
      match feed
      case Fed => outbox := outbox + [Data(waitForAck[key])];
      case Refused =>
        pendingWrites := [waitForAck[key]] + pendingWrites;
        waitForAck := waitForAck - {key};
      case Dropped =>
    }

    /** Waits for the first offered event; the writer may drain meanwhile. */
    method Await(script: seq<Event>, start: nat, at: Location, ghost origin: Sender) returns (i: nat)
      requires start <= |script|
      requires State(at) == After(origin, script[..start])
      modifies this`outbox, this`socket
      ensures start <= i <= |script|
      ensures State(at) == After(origin, script[..i])
      ensures i < |script| ==> Offered(State(at), script[i]) && !script[i].Drain?
      ensures i < |script| ==> After(origin, script[..i + 1]) == Step(State(at), script[i])
    {
      hide After;
      i := start;
      while i < |script|
        invariant start <= i <= |script|
        invariant State(at) == After(origin, script[..i])
      {
        var e := script[i];
        AfterNext(origin, script, i);
        var offered := Offered(Sender(pendingWrites, waitForAck, outbox, socket, fired, at), e);
        if offered && !e.Drain? {
          return;
        }
        if offered {
          outbox, socket := outbox[e.frames..], socket + outbox[..e.frames];
        }
        i := i + 1;
      }
    }

    /** One `select!` inside `flush`: a response, a cancellation, or the next buffer. */
    method FlushArm(e: Event, done: nat) returns (failure: Option<Failure>)
      requires Offered(State(Flushing(done, true)), e) && !e.Drain?
      requires |waitForAck| <= MAX_PENDING_ACKS
      modifies this`pendingWrites, this`waitForAck, this`outbox
      ensures Step(old(State(Flushing(done, true))), e) ==
              if failure.Some? then State(Stopped(failure.value)) else Resume(State(Flushing(done, false)))
      ensures |waitForAck| <= MAX_PENDING_ACKS
    {
      match e
      case Cancel => failure := Some(Cancelled);
      case ReaderEnded => failure := Some(ClosedByOtherSide);
      case ReaderFailed => failure := Some(ConnectionLost);
      case Respond(r) => failure := TakeResponse(r, Flushing(done, true));
      case Send(feed) => SendFront(feed, Flushing(done, true)); failure := None;
    }

    /** One turn of the flush loop after its writer flush: wait for an arm and take it. `stop` says
        where the handler is suspended or has ended; without it the loop goes round again. */
    method FlushSelect(script: seq<Event>, start: nat, done: nat, ghost origin: Sender)
      returns (i: nat, stop: Option<Location>)
      requires start <= |script|
      requires State(Flushing(done, true)) == After(origin, script[..start])
      requires |waitForAck| <= MAX_PENDING_ACKS
      modifies this`pendingWrites, this`waitForAck, this`outbox, this`socket
      ensures TurnEnds(script, start, i, done, stop, origin)
      ensures |waitForAck| <= MAX_PENDING_ACKS
    {
      hide After;
      i := Await(script, start, Flushing(done, true), origin);
      stop := Some(Flushing(done, true));
      if i < |script| {
        ghost var before := State(Flushing(done, true));
        var failure := FlushArm(script[i], done);
        assert After(origin, script[..i + 1]) == Step(before, script[i]);
        i, stop := i + 1, if failure.Some? then Some(Stopped(failure.value)) else None;
      }
    }

    ghost predicate TurnEnds(script: seq<Event>, start: nat, i: nat, done: nat, stop: Option<Location>, origin: Sender)
      reads this
    {
      && start <= i <= |script|
      && After(origin, script[..i]) ==
         (if stop.Some? then State(stop.value) else Resume(State(Flushing(done, false))))
      && (stop.None? ==> start < i)
      && (stop.Some? && stop.value.Flushing? ==> i == |script|)
    }

    method FlushTurn(script: seq<Event>, start: nat, done: nat, ghost origin: Sender)
      returns (i: nat, stop: Option<Location>)
      requires start <= |script|
      requires State(Flushing(done, false)) == After(origin, script[..start])
      requires |waitForAck| <= MAX_PENDING_ACKS
      modifies this`pendingWrites, this`waitForAck, this`outbox, this`socket
      ensures TurnEnds(script, start, i, done, stop, origin)
      ensures |waitForAck| <= MAX_PENDING_ACKS
    {
      hide After;
      i := Await(script, start, Flushing(done, false), origin);
      stop := Some(Flushing(done, false));
      if i < |script| {
        ghost var before := State(Flushing(done, false));
        var ok := script[i].ok;
        i := i + 1;
        if ok {
          outbox, socket := [], socket + outbox;
          assert State(Flushing(done, true)) == Step(before, script[i - 1]);
          i, stop := FlushSelect(script, i, done, origin);
        } else {
          stop := Some(Stopped(ConnectionLost));
        }
      }
    }

    /** `flush`: send and await until both containers are empty. Ends at `Running` when it is done,
        at `Stopped` when it failed, and at `Flushing` when the script ran out first. */
    method FlushAll(script: seq<Event>, start: nat, done: nat, ghost origin: Sender)
      returns (i: nat, at: Location)
      requires 0 < start <= |script|
      requires Resume(State(Flushing(done, false))) == After(origin, script[..start])
      requires |waitForAck| <= MAX_PENDING_ACKS
      modifies this
      ensures start <= i <= |script|
      ensures State(at) == After(origin, script[..i])
      ensures at.Flushing? ==> i == |script|
      ensures |waitForAck| <= MAX_PENDING_ACKS
    {
      i := start;
      while pendingWrites != [] || waitForAck != map[]
        invariant start <= i <= |script|
        invariant Resume(State(Flushing(done, false))) == After(origin, script[..i])
        invariant |waitForAck| <= MAX_PENDING_ACKS
        decreases |script| - i
      {
        var stop;
        i, stop := FlushTurn(script, i, done, origin);
        if stop.Some? {
          return i, stop.value;
        }
      }
      fired := fired + [done];
      at := Running;
    }

    /** One arm of the `select!` in `run`, other than a flush request. */
    method RunArm(e: Event) returns (failure: Option<Failure>)
      requires Offered(State(Running), e) && !e.Drain? && !(e.Take? && e.message.Flush?)
      requires |waitForAck| <= MAX_PENDING_ACKS
      modifies this
      ensures Step(old(State(Running)), e) ==
              State(if failure.Some? then Stopped(failure.value) else Running)
      ensures |waitForAck| <= MAX_PENDING_ACKS
    {
      failure := None;
      match e
      case Cancel => failure := Some(Cancelled);
      case QueueClosed => failure := Some(Cancelled);
      case ReaderEnded => failure := Some(ClosedByOtherSide);
      case ReaderFailed => failure := Some(ConnectionLost);
      case Respond(r) => failure := TakeResponse(r, Running);
      case Send(feed) => SendFront(feed, Running);
      case Take(DataMessage(b), _) => pendingWrites := pendingWrites + [b];
      case Take(Terminate, written) =>
        if written {
          outbox, socket := [], socket + outbox + [Close];
        }
        failure := Some(Terminated);
    }

    /** One turn of the `run` loop: wait for an arm and take it. */
    method RunTurn(script: seq<Event>, start: nat, ghost origin: Sender) returns (i: nat, at: Location)
      requires start < |script|
      requires State(Running) == After(origin, script[..start])
      requires |waitForAck| <= MAX_PENDING_ACKS
      modifies this
      ensures start < i <= |script|
      ensures State(at) == After(origin, script[..i])
      ensures at.Flushing? ==> i == |script|
      ensures |waitForAck| <= MAX_PENDING_ACKS
    {
      hide After, Step, Offered, Resume;
      at := Running;
      i := Await(script, start, Running, origin);
      if i < |script| {
        var e := script[i];
        i := i + 1;
        if e.Take? && e.message.Flush? {
          FlushTaken(State(Running), e);
          i, at := FlushAll(script, i, e.message.done, origin);
        } else {
          ghost var before := State(Running);
          var failure := RunArm(e);
          at := if failure.Some? then Stopped(failure.value) else Running;
          assert State(at) == Step(before, e);
        }
      }
    }

    /** `run`, driven by what its environment produces, is the state machine. */
    method Run(script: seq<Event>) returns (at: Location)
      requires |waitForAck| <= MAX_PENDING_ACKS
      modifies this
      ensures State(at) == After(old(State(Running)), script)
      ensures |waitForAck| <= MAX_PENDING_ACKS
    {
      ghost var origin := State(Running);
      AfterNothing(origin, script);
      hide After;
      at := Running;
      var i := 0;
      while at.Running? && i < |script|
        invariant 0 <= i <= |script|
        invariant State(at) == After(origin, script[..i])
        invariant at.Flushing? ==> i == |script|
        invariant |waitForAck| <= MAX_PENDING_ACKS
        decreases |script| - i
      {
        i, at := RunTurn(script, i, origin);
      }
      AfterEnd(origin, script, i);
    }
  }

  /** A sender with the history of what it took from its queue and what was acknowledged. */
  datatype Ledger = Ledger(sender: Sender, taken: seq<TupleBuffer>, acked: seq<TupleBuffer>)

  function Record(l: Ledger, e: Event): Ledger {
    var s := l.sender;
    var takes := Offered(s, e) && e.Take? && e.message.DataMessage?;
    var acks := Offered(s, e) && e.Respond? && e.response.AckData? && e.response.ack in s.waiting;
    Ledger(Step(s, e),
           if takes then l.taken + [e.message.buffer] else l.taken,
           if acks then l.acked + [s.waiting[e.response.ack]] else l.acked)
  }

  function LedgerAfter(script: seq<Event>): Ledger {
    if script == [] then Ledger(FRESH_SENDER, [], [])
    else Record(LedgerAfter(script[..|script| - 1]), script[|script| - 1])
  }

  ghost predicate Balanced(l: Ledger) {
    Accounted(l.sender.pending, l.sender.waiting, l.taken, l.acked)
  }

  ghost predicate Accounted(pending: seq<TupleBuffer>, waiting: map<Sequence, TupleBuffer>,
                            taken: seq<TupleBuffer>, acked: seq<TupleBuffer>)
  {
    && (forall k :: k in waiting ==> waiting[k].Sequence() == k)
    && multiset(taken) == multiset(pending) + multiset(waiting.Values) + multiset(acked)
    && |waiting| <= MAX_PENDING_ACKS
  }

  lemma DistinctKeysMeansOnce(s: seq<TupleBuffer>)
    requires DistinctKeys(s)
    ensures forall b :: multiset(s)[b] <= 1
    ensures forall b, c :: b in s && c in s && b.Sequence() == c.Sequence() ==> b == c
  {
    if s != [] {
      var init, last := s[..|s| - 1], s[|s| - 1];
      DistinctKeysMeansOnce(init);
      assert s == init + [last];
      assert last !in init;
    }
  }

  lemma ValuesInsert(m: map<Sequence, TupleBuffer>, k: Sequence, b: TupleBuffer)
    requires k !in m && forall q :: q in m ==> m[q] != b
    ensures multiset(m[k := b].Values) == multiset(m.Values) + multiset{b}
  {
    var n := m[k := b];
    assert n[k] == b && forall q :: q in m ==> n[q] == m[q];
    assert n.Values == m.Values + {b};
    assert b !in m.Values;
  }

  lemma ValuesRemove(m: map<Sequence, TupleBuffer>, k: Sequence)
    requires k in m && forall q :: q in m ==> m[q].Sequence() == q
    ensures multiset(m.Values) == multiset((m - {k}).Values) + multiset{m[k]}
  {
    var rest := m - {k};
    assert rest[k := m[k]] == m;
    ValuesInsert(rest, k, m[k]);
  }

  /** The front buffer is not also awaiting an acknowledgement, and may start to. */
  lemma AccountedLaunch(pending: seq<TupleBuffer>, waiting: map<Sequence, TupleBuffer>,
                        taken: seq<TupleBuffer>, acked: seq<TupleBuffer>)
    requires Accounted(pending, waiting, taken, acked) && DistinctKeys(taken)
    requires pending != [] && |waiting| < MAX_PENDING_ACKS
    ensures pending[0].Sequence() !in waiting
    ensures Accounted(pending[1..], waiting[pending[0].Sequence() := pending[0]], taken, acked)
  {
    var b := pending[0];
    DistinctKeysMeansOnce(taken);
    assert pending == [b] + pending[1..];
    assert b in multiset(pending) && b in multiset(taken);
    forall q | q in waiting
      ensures q != b.Sequence()
    {
      var c := waiting[q];
      assert c in waiting.Values && c in multiset(taken);
      assert multiset(taken)[b] == 1;
    }
    ValuesInsert(waiting, b.Sequence(), b);
  }

  lemma AccountedRemoval(pending: seq<TupleBuffer>, waiting: map<Sequence, TupleBuffer>,
                         taken: seq<TupleBuffer>, acked: seq<TupleBuffer>, q: Sequence)
    requires Accounted(pending, waiting, taken, acked) && q in waiting
    ensures Accounted(pending, waiting - {q}, taken, acked + [waiting[q]])
    ensures Accounted(pending + [waiting[q]], waiting - {q}, taken, acked)
  {
    ValuesRemove(waiting, q);
  }

  lemma BalancedSend(l: Ledger, feed: Feed)
    requires Balanced(l) && DistinctKeys(l.taken) && Offered(l.sender, Send(feed))
    ensures Balanced(Record(l, Send(feed)))
  {
    var s := l.sender;
    AccountedLaunch(s.pending, s.waiting, l.taken, l.acked);
    assert s.waiting - {s.pending[0].Sequence()} == s.waiting;
  }

  lemma BalancedResponse(l: Ledger, r: DataChannelResponse)
    requires Balanced(l) && Offered(l.sender, Respond(r))
    ensures Balanced(Record(l, Respond(r)))
  {
    var s, after := l.sender, Record(l, Respond(r));
    if r.AckData? && r.ack in s.waiting {
      AccountedRemoval(s.pending, s.waiting, l.taken, l.acked, r.ack);
      assert after.acked == l.acked + [s.waiting[r.ack]];
    } else if r.NAckData? && r.nack in s.waiting {
      AccountedRemoval(s.pending, s.waiting, l.taken, l.acked, r.nack);
      assert after.acked == l.acked;
    } else {
      assert after.sender.pending == s.pending && after.acked == l.acked;
    }
  }

  lemma {:induction false} BalancedStep(l: Ledger, e: Event)
    requires Balanced(l) && DistinctKeys(l.taken)
    ensures Balanced(Record(l, e))
  {
    if Offered(l.sender, e) && e.Respond? {
      BalancedResponse(l, e.response);
    } else if Offered(l.sender, e) && e.Send? {
      BalancedSend(l, e.feed);
    }
  }

  /** Whatever the other side answers and however the feeds end, every buffer taken is in exactly
      one place: still pending, awaiting its acknowledgement, or acknowledged; and the window
      of unacknowledged buffers is never exceeded. */
  lemma {:induction false} Conservation(script: seq<Event>)
    requires DistinctKeys(LedgerAfter(script).taken)
    ensures Balanced(LedgerAfter(script))
  {
    if script != [] {
      var before := LedgerAfter(script[..|script| - 1]);
      assert before.taken <= LedgerAfter(script).taken;
      Conservation(script[..|script| - 1]);
      BalancedStep(before, script[|script| - 1]);
    }
  }

  /** The ledger only watches: its sender is the state machine the class is proved to be. */
  lemma {:induction false} LedgerWatches(script: seq<Event>)
    ensures LedgerAfter(script).sender == After(FRESH_SENDER, script)
  {
    if script != [] {
      LedgerWatches(script[..|script| - 1]);
    }
  }
}
