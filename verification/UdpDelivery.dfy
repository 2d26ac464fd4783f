/** What the UDP channel delivers, in every interleaving and over a network that loses, repeats and
    reorders datagrams. */
module UdpDelivery {
  import opened Protocol
  import opened UdpChannel
  import opened UdpNumbers

  // ----- The receive buffer

  /** Calls that have reserved room and not yet pushed. */
  function Reserving(receives: map<nat, ReceiveCall>): set<nat> {
    set id | id in receives && (receives[id].stage.Reserved? || receives[id].stage.Recorded?)
  }

  ghost predicate BufferBalanced(w: World, room: nat) {
    && w.rcv.available + |Reserving(w.receives)| + |w.rcv.buffer| == room + w.failedAcks
    && w.consumed + w.rcv.buffer == w.pushed
  }

  lemma ReservingUpdate(receives: map<nat, ReceiveCall>, id: nat, c: ReceiveCall)
    ensures Reserving(receives[id := c]) ==
            if c.stage.Pushed? then Reserving(receives) - {id} else Reserving(receives) + {id}
    ensures Reserving(receives - {id}) == Reserving(receives) - {id}
  {
  }

  lemma ArriveKeepsBuffer(w: World, id: nat, m: Message, room: nat)
    requires BufferBalanced(w, room)
    ensures BufferBalanced(ReceiveStep(w, Arrive(id, m)), room)
  {
    ReservingUpdate(w.receives, id, ReceiveCall(m, Reserved));
  }

  lemma RecordKeepsBuffer(w: World, id: nat, room: nat)
    requires BufferBalanced(w, room)
    ensures BufferBalanced(ReceiveStep(w, RecordSeq(id)), room)
  {
    if AtReceiveStage(w, id, Reserved) {
      ReservingUpdate(w.receives, id, w.receives[id].(stage := Recorded));
      assert Reserving(w.receives) + {id} == Reserving(w.receives);
    }
  }

  lemma PushKeepsBuffer(w: World, id: nat, room: nat)
    requires BufferBalanced(w, room)
    ensures BufferBalanced(ReceiveStep(w, PushBuffer(id)), room)
  {
    if AtReceiveStage(w, id, Recorded) {
      ReservingUpdate(w.receives, id, w.receives[id].(stage := Pushed));
      assert w.consumed + (w.rcv.buffer + [w.receives[id].msg]) == w.pushed + [w.receives[id].msg];
    }
  }

  lemma AckKeepsBuffer(w: World, id: nat, ok: bool, room: nat)
    requires BufferBalanced(w, room)
    ensures BufferBalanced(ReceiveStep(w, WriteAck(id, ok)), room)
  {
    if AtReceiveStage(w, id, Pushed) {
      ReservingUpdate(w.receives, id, w.receives[id]);
      assert Reserving(w.receives) - {id} == Reserving(w.receives);
    }
  }

  lemma ReceiveKeepsBuffer(w: World, l: Label, room: nat)
    requires BufferBalanced(w, room)
    ensures BufferBalanced(ReceiveStep(w, l), room)
  {
    match l {
      case Arrive(id, m) => ArriveKeepsBuffer(w, id, m, room);
      case RecordSeq(id) => RecordKeepsBuffer(w, id, room);
      case PushBuffer(id) => PushKeepsBuffer(w, id, room);
      case WriteAck(id, ok) => AckKeepsBuffer(w, id, ok, room);
      case Consume =>
        if w.rcv.buffer != [] {
          assert w.consumed + [w.rcv.buffer[0]] + w.rcv.buffer[1..] == w.consumed + w.rcv.buffer;
        }
      case _ =>
    }
  }

  lemma OthersKeepBuffer(w: World, l: Label, room: nat)
    requires BufferBalanced(w, room) && (OfSender(l) || OfTask(l))
    ensures BufferBalanced(Step(w, l), room)
  {
  }

  lemma InitialBuffer(window: nat, room: nat)
    ensures BufferBalanced(Init(window, room), room)
  {
  }

  /** Room is conserved: free, reserved by a call that has not pushed, or occupied, with one slot too many
      for every acknowledgement that could not be written; and the application gets what was pushed,
      in the order it was pushed. */
  lemma {:induction false} BufferConservation(run: seq<Label>, window: nat, room: nat)
    ensures BufferBalanced(After(Init(window, room), run), room)
  {
    hide BufferBalanced, SendStep, TaskStep, ReceiveStep;
    if run == [] {
      InitialBuffer(window, room);
    } else {
      var w, l := After(Init(window, room), run[..|run| - 1]), run[|run| - 1];
      BufferConservation(run[..|run| - 1], window, room);
      if OfSender(l) || OfTask(l) {
        OthersKeepBuffer(w, l, room);
      } else {
        ReceiveKeepsBuffer(w, l, room);
      }
    }
  }

  // ----- Payloads

  /** A DATA datagram with a payload some call gave for its number. */
  predicate Genuine(m: Message, given: set<(nat, string)>) {
    m.kind.DATA? && m.data.Some? && (m.number, m.data.value) in given
  }

  ghost predicate Payloads(w: World) {
    && (forall id :: id in w.sends ==> (w.sends[id].number, w.sends[id].data) in w.given)
    && (forall q :: q in w.snd.sentMessages ==> (q, w.snd.sentMessages[q]) in w.given)
    && (forall q :: q in w.snd.inFlight ==> (q, w.snd.inFlight[q].data) in w.given)
    && (forall m :: m in w.resend ==> Genuine(m, w.given))
    && (forall m :: m in w.toReceiver ==> Genuine(m, w.given))
    && (forall id :: id in w.receives ==> Genuine(w.receives[id].msg, w.given))
    && (forall m :: m in w.pushed ==> Genuine(m, w.given))
    && w.confirmed <= w.given
  }

  lemma {:induction false} RetransmissionsAre(s: Sender, order: seq<nat>)
    requires forall q :: q in order ==> q in s.inFlight
    ensures forall m :: m in Retransmissions(s, order) <==>
              m.kind.DATA? && m.number in order && m == Datagram(m.number, s.inFlight[m.number].data)
  {
    if order != [] {
      var n := |order| - 1;
      assert order == order[..n] + [order[n]];
      RetransmissionsAre(s, order[..n]);
    }
  }

  lemma SendKeepsPayloads(w: World, l: Label)
    requires Payloads(w) && OfSender(l)
    ensures Payloads(SendStep(w, l))
  {
    assert w.given <= SendStep(w, l).given;
  }

  lemma TaskKeepsPayloads(w: World, l: Label)
    requires Payloads(w) && OfTask(l)
    ensures Payloads(TaskStep(w, l))
  {
    if l.Walk? {
      WalkKeepsPayloads(w, l.now, l.timeout, l.order);
    }
  }

  lemma WalkKeepsPayloads(w: World, now: int, timeout: int, order: seq<nat>)
    requires Payloads(w)
    ensures Payloads(TaskStep(w, Walk(now, timeout, order)))
  {
    if w.resend == [] && WalkOrder(w.snd, order, now, timeout) {
      RetransmissionsAre(w.snd, order);
      hide Retransmissions;
    }
  }

  lemma ReceiveKeepsPayloads(w: World, l: Label)
    requires Payloads(w)
    ensures Payloads(ReceiveStep(w, l))
  {
  }

  // ----- Acknowledgements

  function Numbers(ms: seq<Message>): set<nat> { set m | m in ms :: m.number }

  ghost predicate Acknowledged(w: World) {
    && (forall m :: m in w.toSender && m.kind.ACK? ==> m.number in Numbers(w.pushed))
    && (forall m :: m in w.inbox && m.kind.ACK? ==> m.number in Numbers(w.pushed))
    && (forall m :: m in w.pushed ==> m.number in w.rcv.receivedSeqs)
    && (forall id :: id in w.receives && !w.receives[id].stage.Reserved? ==>
          w.receives[id].msg.number in w.rcv.receivedSeqs)
    && (forall id :: id in w.receives && w.receives[id].stage.Pushed? ==> w.receives[id].msg in w.pushed)
    && (forall id :: id in w.sends && (w.sends[id].stage.Stored? || w.sends[id].stage.Tracked?) ==>
          w.sends[id].number in w.snd.sentMessages)
    && (forall id :: id in w.sends && w.sends[id].stage.Tracked? ==>
          w.sends[id].number in w.snd.inFlight || w.sends[id].number in Numbers(w.pushed))
    && (forall c :: c in w.confirmed ==>
          c.0 in w.snd.sentMessages && (c.0 in w.snd.inFlight || c.0 in Numbers(w.pushed)))
  }

  lemma SendKeepsAcknowledged(w: World, l: Label)
    requires Acknowledged(w) && OfSender(l)
    ensures Acknowledged(SendStep(w, l))
  {
  }

  lemma TaskKeepsAcknowledged(w: World, l: Label)
    requires Acknowledged(w) && OfTask(l)
    ensures Acknowledged(TaskStep(w, l))
  {
    if l.Work? && w.inbox != [] {
      assert w.inbox[0] in w.inbox;
    }
  }

  lemma PushKeepsAcknowledged(w: World, id: nat)
    requires Acknowledged(w)
    ensures Acknowledged(ReceiveStep(w, PushBuffer(id)))
  {
    var t := ReceiveStep(w, PushBuffer(id));
    assert forall m :: m in w.pushed ==> m in t.pushed;
    assert Numbers(w.pushed) <= Numbers(t.pushed);
  }

  lemma ReceiveKeepsAcknowledged(w: World, l: Label)
    requires Acknowledged(w)
    ensures Acknowledged(ReceiveStep(w, l))
  {
    if l.PushBuffer? {
      PushKeepsAcknowledged(w, l.id);
    } else {
      assert ReceiveStep(w, l).pushed == w.pushed;
    }
  }

  ghost predicate Inv(w: World) { Payloads(w) && Acknowledged(w) }

  lemma InitialInv(window: nat, room: nat)
    ensures Inv(Init(window, room))
  {
  }

  lemma {:induction false} StepInv(w: World, l: Label)
    requires Inv(w)
    ensures Inv(Step(w, l))
  {
    hide Payloads, Acknowledged, SendStep, TaskStep, ReceiveStep;
    if OfSender(l) {
      SendKeepsPayloads(w, l);
      SendKeepsAcknowledged(w, l);
    } else if OfTask(l) {
      TaskKeepsPayloads(w, l);
      TaskKeepsAcknowledged(w, l);
    } else {
      ReceiveKeepsPayloads(w, l);
      ReceiveKeepsAcknowledged(w, l);
    }
  }

  lemma {:induction false} RunInv(w: World, run: seq<Label>)
    requires Inv(w)
    ensures Inv(After(w, run))
  {
    hide Inv, Step;
    if run != [] {
      RunInv(w, run[..|run| - 1]);
      StepInv(After(w, run[..|run| - 1]), run[|run| - 1]);
    }
  }

  // ----- End to end

  /** Every DATA datagram ever sent, first time or again, carries a payload given for its number; every
      acknowledgement ever sent is for a message that was pushed; and a number whose `send_message` returned
      Ok is still in flight or has been received and pushed. */
  lemma NoConfirmedNumberIsLost(run: seq<Label>, window: nat, room: nat)
    ensures var w := After(Init(window, room), run);
      && (forall m :: m in w.toReceiver ==> Genuine(m, w.given))
      && (forall m :: m in w.toSender && m.kind.ACK? ==> m.number in Numbers(w.pushed))
      && (forall c :: c in w.confirmed ==>
            c.0 in w.snd.inFlight || (c.0 in w.rcv.receivedSeqs && c.0 in Numbers(w.pushed)))
  {
    InitialInv(window, room);
    RunInv(Init(window, room), run);
    var w := After(Init(window, room), run);
    forall q | q in Numbers(w.pushed) ensures q in w.rcv.receivedSeqs {
      var m :| m in w.pushed && m.number == q;
    }
  }

  /** The message is in flight under its own payload, or was pushed at the receiver. */
  predicate Safe(w: World, c: (nat, string)) {
    (c.0 in w.snd.inFlight && w.snd.inFlight[c.0].data == c.1) || Datagram(c.0, c.1) in w.pushed
  }

  /** With one payload per number the message itself is safe once `send_message` returned Ok. */
  lemma NoConfirmedMessageIsLost(run: seq<Label>, window: nat, room: nat, c: (nat, string))
    requires var w := After(Init(window, room), run); c in w.confirmed && Functional(w.given)
    ensures Safe(After(Init(window, room), run), c)
  {
    InitialInv(window, room);
    RunInv(Init(window, room), run);
    hide After;
    var w := After(Init(window, room), run);
    if c.0 !in w.snd.inFlight {
      var m :| m in w.pushed && m.number == c.0;
      assert Genuine(m, w.given);
    } else {
      assert (c.0, w.snd.inFlight[c.0].data) in w.given;
    }
  }

  /** And it can be asked for ever after: a retransmission request is answered with that very message. */
  lemma ConfirmedMessageIsResent(run: seq<Label>, window: nat, room: nat, c: (nat, string))
    requires var w := After(Init(window, room), run);
      && c in w.confirmed && Functional(w.given)
      && w.inbox != [] && w.inbox[0] == Message(RQST, c.0, None)
    ensures var w := After(Init(window, room), run);
      && Step(w, Work(true)).emitted == w.emitted + [Datagram(c.0, c.1)]
      && Datagram(c.0, c.1) in Step(w, Work(true)).toReceiver
  {
    InitialInv(window, room);
    RunInv(Init(window, room), run);
    hide After;
    var w := After(Init(window, room), run);
    assert c.0 in w.snd.sentMessages && (c.0, w.snd.sentMessages[c.0]) in w.given;
  }
}
