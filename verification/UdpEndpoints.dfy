/** The two endpoints of the UDP channel as objects. Their methods are what the tasks do to the shared
    maps and semaphores; a whole `send_message` or `receive_message` is a run of the system in which no
    other task got a turn. */
module UdpEndpoints {
  import opened Protocol
  import opened UdpChannel
  import opened UdpRecovery

  // ----- Whole calls

  /** The window is full; or the message is stored and in flight, and its permit is kept unless the
      write fails. */
  function AfterSend(s: Sender, number: nat, data: string, now: int, written: bool): Sender {
    if s.available == 0 then s
    else
      var t := Track(Remember(s, number, data), number, data, now);
      if written then t.(available := s.available - 1) else t
  }

  function SendRun(id: nat, free: bool, number: nat, data: string, now: int, written: bool): seq<Label> {
    if free then [Call(id, number, data), Acquire(id), StoreMessage(id)] + [PutInFlight(id, now), Write(id, written)]
    else [Call(id, number, data), WindowFull(id)]
  }

  /** An undisturbed call runs through exactly these steps of the interleaved system. */
  lemma SendIsRun(w: World, id: nat, number: nat, data: string, now: int, written: bool)
    requires id !in w.sends
    ensures var t := After(w, SendRun(id, w.snd.available > 0, number, data, now, written));
      && t.snd == AfterSend(w.snd, number, data, now, written)
      && t.sends == w.sends && t.rcv == w.rcv && t.pushed == w.pushed && t.receives == w.receives
      && t.overwritten == w.overwritten + (if w.snd.available > 0 && number in w.snd.inFlight then 1 else 0)
      && t.failedWrites == w.failedWrites + (if w.snd.available > 0 && !written then 1 else 0)
      && t.inbox == w.inbox && t.toSender == w.toSender
      && t.given == w.given + {(number, data)}
      && t.confirmed == w.confirmed + (if w.snd.available > 0 && written then {(number, data)} else {})
      && t.toReceiver ==
         w.toReceiver + if w.snd.available > 0 && written then {Datagram(number, data)} else {}
  {
    hide After;
    if w.snd.available == 0 {
      TwoSteps(w, Call(id, number, data), WindowFull(id));
      assert (w.sends[id := SendCall(number, data, Numbered)] - {id}) == w.sends;
    } else {
      var first := [Call(id, number, data), Acquire(id), StoreMessage(id)];
      var second := [PutInFlight(id, now), Write(id, written)];
      AfterConcat(w, first, second);
      StoredRun(w, id, number, data);
      TrackedRun(After(w, first), id, now, written);
      assert w.sends[id := SendCall(number, data, Stored)] - {id} == w.sends;
    }
  }

  lemma StoredRun(w: World, id: nat, number: nat, data: string)
    requires id !in w.sends && w.snd.available > 0
    ensures After(w, [Call(id, number, data), Acquire(id), StoreMessage(id)]) ==
            w.(sends := w.sends[id := SendCall(number, data, Stored)],
               numbers := w.numbers + [number], given := w.given + {(number, data)},
               stored := w.stored + [(number, data)],
               snd := Remember(w.snd, number, data).(available := w.snd.available - 1))
  {
    hide After;
    ThreeSteps(w, Call(id, number, data), Acquire(id), StoreMessage(id));
    var a := Step(w, Call(id, number, data));
    assert a == w.(sends := w.sends[id := SendCall(number, data, Numbered)],
                   numbers := w.numbers + [number], given := w.given + {(number, data)});
    var b := Step(a, Acquire(id));
    assert b == a.(sends := b.sends, snd := w.snd.(available := w.snd.available - 1));
    assert b.sends == w.sends[id := SendCall(number, data, Permitted)];
    var c := Step(b, StoreMessage(id));
    assert c == b.(sends := c.sends, snd := Remember(b.snd, number, data), stored := w.stored + [(number, data)]);
    assert c.sends == w.sends[id := SendCall(number, data, Stored)];
  }

  lemma TrackedRun(w: World, id: nat, now: int, written: bool)
    requires AtStage(w, id, Stored)
    ensures var c, t := w.sends[id], After(w, [PutInFlight(id, now), Write(id, written)]);
      && t == w.(sends := w.sends - {id}, snd := t.snd, overwritten := t.overwritten,
                 timers := w.timers + [Timer(c.number, now, false)],
                 emitted := w.emitted + (if written then [Datagram(c.number, c.data)] else []),
                 failedWrites := t.failedWrites, confirmed := t.confirmed, toReceiver := t.toReceiver)
      && t.overwritten == w.overwritten + (if c.number in w.snd.inFlight then 1 else 0)
      && t.failedWrites == w.failedWrites + (if written then 0 else 1)
      && t.snd == Track(w.snd, c.number, c.data, now).(
                    available := if written then w.snd.available else w.snd.available + 1)
      && t.confirmed == w.confirmed + (if written then {(c.number, c.data)} else {})
      && t.toReceiver == w.toReceiver + if written then {Datagram(c.number, c.data)} else {}
  {
    TwoSteps(w, PutInFlight(id, now), Write(id, written));
    hide After;
    assert Step(w, PutInFlight(id, now)).sends - {id} == w.sends - {id};
  }

  lemma ReceiveIsRun(w: World, id: nat, m: Message, acked: bool)
    requires id !in w.receives && m in w.toReceiver
    ensures var t := After(w, ReceiveRun(id, m, acked));
      && t.rcv == AfterReceive(w.rcv, m, acked)
      && t.receives == w.receives && t.snd == w.snd && t.confirmed == w.confirmed && t.inbox == w.inbox
      && t.sends == w.sends
      && t.pushed == w.pushed + (if m.kind.DATA? && w.rcv.available > 0 then [m] else [])
      && t.toSender == w.toSender +
           (if !m.kind.DATA? then {}
            else if w.rcv.available == 0 then {Message(FLOW_CONTROL, 0, Some("BUFFER_FULL"))}
            else if acked then {Message(ACK, m.number, None)} else {})
  {
    hide After;
    if m.kind.DATA? && w.rcv.available > 0 {
      AcceptedRun(w, id, m, acked);
    } else {
      RefusedRun(w, id, m, acked);
    }
  }

  lemma Absent(w: World, id: nat, acked: bool)
    requires id !in w.receives
    ensures Step(w, RecordSeq(id)) == w && Step(w, PushBuffer(id)) == w && Step(w, WriteAck(id, acked)) == w
  {
  }

  /** What a message that is not kept makes the receiver send. */
  function Refusal(m: Message): set<Message> {
    if m.kind.DATA? then {Message(FLOW_CONTROL, 0, Some("BUFFER_FULL"))} else {}
  }

  lemma Refuse(w: World, id: nat, m: Message)
    requires id !in w.receives && m in w.toReceiver && !(m.kind.DATA? && w.rcv.available > 0)
    ensures Step(w, Arrive(id, m)) == w.(toSender := w.toSender + Refusal(m))
  {
    assert w.toSender + {} == w.toSender;
  }

  lemma RefusedRun(w: World, id: nat, m: Message, acked: bool)
    requires id !in w.receives && m in w.toReceiver && !(m.kind.DATA? && w.rcv.available > 0)
    ensures After(w, ReceiveRun(id, m, acked)) == w.(toSender := w.toSender + Refusal(m))
  {
    hide After, Step;
    FourSteps(w, Arrive(id, m), RecordSeq(id), PushBuffer(id), WriteAck(id, acked));
    Refuse(w, id, m);
    Absent(Step(w, Arrive(id, m)), id, acked);
  }

  // ----- A number used twice

  /** Any number used twice can lose a message for good: both calls return Ok, the network brings the
      first datagram only, and its acknowledgement settles the second message. It is neither in flight
      nor received, and one slot of the window is gone although nothing is in flight. */
  lemma ReusedNumberLosesMessage(q: nat, d: string, e: string, window: nat, room: nat) returns (run: seq<Label>)
    requires window >= 2 && room >= 1 && d != e
    ensures var w := After(Init(window, room), run);
      && w.given == {(q, d), (q, e)} && (q, d) in w.confirmed && (q, e) in w.confirmed
      && w.snd.inFlight == map[] && w.sends == map[] && Datagram(q, e) !in w.pushed
      && w.snd.available == window - 1 && w.failedWrites == 0
  {
    hide After;
    var w := Init(window, room);
    var a := SendRun(0, true, q, d, 0, true);
    SendIsRun(w, 0, q, d, 0, true);
    var b := SendRun(0, true, q, e, 0, true);
    SendIsRun(After(w, a), 0, q, e, 0, true);
    AfterConcat(w, a, b);
    var m := Datagram(q, d);
    var c := ReceiveRun(0, m, true);
    AcceptedRun(After(w, a + b), 0, m, true);
    AfterConcat(w, a + b, c);
    var ack := Message(ACK, q, None);
    var u := After(w, a + b + c);
    TwoSteps(u, Hear(ack), Work(true));
    AfterConcat(w, a + b + c, [Hear(ack), Work(true)]);
    run := a + b + c + [Hear(ack), Work(true)];
    assert u.snd.inFlight.Keys == {q} && ack in u.toSender && u.inbox == [];
    TakeOnly(u, q, ack);
  }

  lemma TakeOnly(u: World, q: nat, ack: Message)
    requires ack == Message(ACK, q, None) && ack in u.toSender && u.inbox == [] && u.snd.inFlight.Keys == {q}
    ensures var t := Step(Step(u, Hear(ack)), Work(true));
      && t.snd.inFlight == map[] && t.snd.available == u.snd.available + 1
      && t.sends == u.sends && t.pushed == u.pushed && t.confirmed == u.confirmed && t.given == u.given
      && t.failedWrites == u.failedWrites
  {
    var t := Step(Step(u, Hear(ack)), Work(true));
    assert t.snd == Acknowledge(u.snd, q);
    assert t.snd.inFlight.Keys == {};
  }

  // ----- The endpoints

  lemma RetransmissionsNext(s: Sender, order: seq<nat>, q: nat)
    requires q in s.inFlight && forall p :: p in order ==> p in s.inFlight
    ensures Retransmissions(s, order + [q]) == Retransmissions(s, order) + [Datagram(q, s.inFlight[q].data)]
  {
    assert (order + [q])[..|order|] == order;
  }

  lemma RetransmissionsNone(s: Sender)
    ensures Retransmissions(s, []) == []
  {
  }

  datatype SendResult = SendOk(msg: Message) | WindowIsFull | WriteFailed

  class UdpSender {
    var available: nat
    var sentMessages: map<nat, string>
    var inFlight: map<nat, InFlight>
    var nextSeq: nat

    constructor (window: nat)
      ensures State() == Sender(window, map[], map[], 1)
    {
      available, sentMessages, inFlight, nextSeq := window, map[], map[], 1;
    }

    ghost function State(): Sender
      reads this
    {
      Sender(available, sentMessages, inFlight, nextSeq)
    }

    /** `written` says whether the socket takes the datagram. */
    method SendMessage(number: nat, data: string, now: int, written: bool) returns (r: SendResult)
      modifies this
      ensures State() == AfterSend(old(State()), number, data, now, written)
      ensures r == if old(available) == 0 then WindowIsFull
                   else if written then SendOk(Datagram(number, data)) else WriteFailed
    {
      if available == 0 {
        return WindowIsFull;
      }
      available := available - 1;
      sentMessages := sentMessages[number := data];
      inFlight := inFlight[number := InFlight(data, now, 0)];
      if !written {
        available := available + 1;
        return WriteFailed;
      }
      r := SendOk(Datagram(number, data));
    }

    /** The number is used up even if the message is not sent. */
    method SendMessageAutoSeq(data: string, now: int, written: bool) returns (r: SendResult, number: nat)
      modifies this
      ensures number == old(nextSeq) && nextSeq == number + 1
      ensures State() == AfterSend(old(State()).(nextSeq := number + 1), number, data, now, written)
      ensures r.SendOk? <==> old(available) > 0 && written
    {
      number := nextSeq;
      nextSeq := nextSeq + 1;
      r := SendMessage(number, data, now, written);
    }

    /** An acknowledgement: only the first one for a number in flight frees a slot. */
    method HandleAck(number: nat)
      modifies this
      ensures State() == Acknowledge(old(State()), number)
      ensures available + |inFlight| == old(available + |inFlight|)
    {
      if number in inFlight {
        assert (inFlight - {number}).Keys == inFlight.Keys - {number};
        inFlight := inFlight - {number};
        available := available + 1;
      }
    }

    /** A retransmission request: the message stored under its number, or nothing. That is what the worker
        of the interleaved system writes when it finds this request at the front of its queue. */
    method HandleRequest(number: nat) returns (reply: Option<Message>)
      ensures reply.Some? <==> number in sentMessages
      ensures reply.Some? ==> reply.value == Datagram(number, sentMessages[number])
      ensures forall w: World :: w.snd == State() && w.inbox != [] && w.inbox[0] == Message(RQST, number, None) ==>
        Step(w, Work(true)).emitted == w.emitted + if reply.Some? then [reply.value] else []
    {
      reply := None;
      if number in sentMessages {
        reply := Some(Datagram(number, sentMessages[number]));
      }
    }

    /** One round of the timeout task: a walk over the map that marks what timed out and collects it. */
    method CollectTimedOut(now: int, timeout: int) returns (batch: seq<Message>, order: seq<nat>)
      modifies this`inFlight
      ensures WalkOrder(old(State()), order, now, timeout)
      ensures State() == Scan(old(State()), now, timeout)
      ensures batch == Retransmissions(old(State()), order)
    {
      batch, order := [], [];
      ghost var was := State();
      RetransmissionsNone(was);
      hide Retransmissions;
      var rest := inFlight.Keys;
      while rest != {}
        invariant rest <= was.inFlight.Keys
        invariant inFlight == map q | q in was.inFlight ::
                    if q in rest then was.inFlight[q] else Scan(was, now, timeout).inFlight[q]
        invariant forall q :: q in order <==>
                    q in was.inFlight && q !in rest && TimedOut(was.inFlight[q], now, timeout)
        invariant forall i, j :: 0 <= i < j < |order| ==> order[i] != order[j]
        invariant batch == Retransmissions(was, order)
        decreases rest
      {
        var q :| q in rest;
        rest := rest - {q};
        if TimedOut(inFlight[q], now, timeout) {
          batch := batch + [Datagram(q, inFlight[q].data)];
          RetransmissionsNext(was, order, q);
          order := order + [q];
          inFlight := inFlight[q := Touch(inFlight[q], now)];
        }
      }
    }
  }

  datatype ReceiveResult = Accepted(ack: Message) | NotData | BufferIsFull(reply: Message) | AckFailed

  class UdpReceiver {
    var available: nat
    var receivedSeqs: set<nat>
    var buffer: seq<Message>

    constructor (room: nat)
      ensures State() == Receiver(room, {}, [])
    {
      available, receivedSeqs, buffer := room, {}, [];
    }

    ghost function State(): Receiver
      reads this
    {
      Receiver(available, receivedSeqs, buffer)
    }

    method ReceiveMessage(m: Message, acked: bool) returns (r: ReceiveResult)
      modifies this
      ensures State() == AfterReceive(old(State()), m, acked)
      ensures r == if !m.kind.DATA? then NotData
                   else if old(available) == 0 then BufferIsFull(Message(FLOW_CONTROL, 0, Some("BUFFER_FULL")))
                   else if acked then Accepted(Message(ACK, m.number, None)) else AckFailed
    {
      if !m.kind.DATA? {
        return NotData;
      }
      if available == 0 {
        return BufferIsFull(Message(FLOW_CONTROL, 0, Some("BUFFER_FULL")));
      }
      available := available - 1;
      receivedSeqs := receivedSeqs + {m.number};
      buffer := buffer + [m];
      if !acked {
        available := available + 1;
        return AckFailed;
      }
      r := Accepted(Message(ACK, m.number, None));
    }

    method ReceiveFromBuffer() returns (m: Option<Message>)
      modifies this
      ensures old(buffer) == [] ==> m == None && State() == old(State())
      ensures old(buffer) != [] ==>
        m.Some? && [m.value] + buffer == old(buffer)
        && available == old(available) + 1 && receivedSeqs == old(receivedSeqs)
    {
      if buffer == [] {
        return None;
      }
      m := Some(buffer[0]);
      buffer := buffer[1..];
      available := available + 1;
    }
  }
}
