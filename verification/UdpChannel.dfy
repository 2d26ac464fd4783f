/** The UDP channel with flow control: a sender whose window is a semaphore, a receiver whose buffer
    is a semaphore, and the tasks that share their state. Every step below is one critical section
    or one datagram; between any two steps any other task may run. */
module UdpChannel {
  import opened Protocol

  datatype Kind = DATA | RQST | ACK | FLOW_CONTROL

  datatype Message = Message(kind: Kind, number: nat, data: Option<string>)

  datatype InFlight = InFlight(data: string, sentTime: int, retransmits: nat)

  /** What the tasks of the sender share. */
  datatype Sender = Sender(
    available: nat, sentMessages: map<nat, string>, inFlight: map<nat, InFlight>, nextSeq: nat)

  /** What the tasks of the receiver share. `buffer` is the queue the application consumes. */
  datatype Receiver = Receiver(available: nat, receivedSeqs: set<nat>, buffer: seq<Message>)

  function Datagram(number: nat, data: string): Message { Message(DATA, number, Some(data)) }

  // ----- Critical sections of the sender

  function Remember(s: Sender, number: nat, data: string): Sender {
    s.(sentMessages := s.sentMessages[number := data])
  }

  function Track(s: Sender, number: nat, data: string, now: int): Sender {
    s.(inFlight := s.inFlight[number := InFlight(data, now, 0)])
  }

  function Acknowledge(s: Sender, number: nat): Sender {
    if number in s.inFlight then s.(inFlight := s.inFlight - {number}, available := s.available + 1) else s
  }

  predicate TimedOut(f: InFlight, now: int, timeout: int) { now - f.sentTime > timeout }

  function Touch(f: InFlight, now: int): InFlight { InFlight(f.data, now, f.retransmits + 1) }

  function Scan(s: Sender, now: int, timeout: int): Sender {
    s.(inFlight := map q | q in s.inFlight ::
         if TimedOut(s.inFlight[q], now, timeout) then Touch(s.inFlight[q], now) else s.inFlight[q])
  }

  /** `order` lists exactly the entries that timed out, in the order the map was walked. */
  predicate WalkOrder(s: Sender, order: seq<nat>, now: int, timeout: int) {
    && (forall q :: q in order ==> q in s.inFlight && TimedOut(s.inFlight[q], now, timeout))
    && (forall q :: q in s.inFlight && TimedOut(s.inFlight[q], now, timeout) ==> q in order)
    && (forall i, j :: 0 <= i < j < |order| ==> order[i] != order[j])
  }

  function Retransmissions(s: Sender, order: seq<nat>): seq<Message>
    requires forall q :: q in order ==> q in s.inFlight
  {
    if order == [] then []
    else
      var n := |order| - 1;
      assert order[n] in order;
      Retransmissions(s, order[..n]) + [Datagram(order[n], s.inFlight[order[n]].data)]
  }

  // ----- The whole system

  /** A call of `send_message`: it has a number, a permit, has stored its message, has put it in flight. */
  datatype SendStage = Numbered | Permitted | Stored | Tracked

  datatype SendCall = SendCall(number: nat, data: string, stage: SendStage)

  /** A call of `receive_message` for a DATA message: it has reserved room, recorded the number, pushed. */
  datatype ReceiveStage = Reserved | Recorded | Pushed

  datatype ReceiveCall = ReceiveCall(msg: Message, stage: ReceiveStage)

  /** A number was put in flight, or collected because it timed out, at this time. */
  datatype Timer = Timer(number: nat, time: int, collected: bool)

  function Collected(order: seq<nat>, now: int): seq<Timer> {
    seq(|order|, i requires 0 <= i < |order| => Timer(order[i], now, true))
  }

  /** `toReceiver` and `toSender` hold every datagram ever sent; a receive step may pick any of them any
      number of times, or never: that is loss, duplication and reordering. The rest is history: `emitted` is
      every datagram the sender wrote, in order; `stored` what its calls stored; `timers` when a number was
      put in flight or collected by the timeout task; `numbers` the number of every call. */
  datatype World = World(
    snd: Sender, sends: map<nat, SendCall>, inbox: seq<Message>, resend: seq<Message>,
    rcv: Receiver, receives: map<nat, ReceiveCall>,
    toReceiver: set<Message>, toSender: set<Message>,
    emitted: seq<Message>, stored: seq<(nat, string)>, timers: seq<Timer>,
    numbers: seq<nat>, given: set<(nat, string)>, confirmed: set<(nat, string)>, failedWrites: nat, overwritten: nat,
    pushed: seq<Message>, consumed: seq<Message>, failedAcks: nat)

  /** `window` and `room` are the two configured sizes; numbers start at 1. */
  function Init(window: nat, room: nat): World {
    World(Sender(window, map[], map[], 1), map[], [], [], Receiver(room, {}, []), map[],
          {}, {}, [], [], [], [], {}, {}, 0, 0, [], [], 0)
  }

  datatype Label =
    | Call(id: nat, number: nat, data: string)
    | CallAuto(id: nat, data: string)
    | Acquire(id: nat)
    | WindowFull(id: nat)
    | StoreMessage(id: nat)
    | PutInFlight(id: nat, now: int)
    | Write(id: nat, ok: bool)
    | Hear(m: Message)
    | Work(ok: bool)
    | Walk(now: int, timeout: int, order: seq<nat>)
    | Resend(ok: bool)
    | AskAgain(number: nat)
    | Arrive(id: nat, m: Message)
    | RecordSeq(id: nat)
    | PushBuffer(id: nat)
    | WriteAck(id: nat, ok: bool)
    | Consume

  const INBOX_CAPACITY: nat := 100

  predicate AtStage(w: World, id: nat, stage: SendStage) { id in w.sends && w.sends[id].stage == stage }

  predicate AtReceiveStage(w: World, id: nat, stage: ReceiveStage) {
    id in w.receives && w.receives[id].stage == stage
  }

  function SendStep(w: World, l: Label): World {
    match l
    case Call(id, q, d) =>
      if id in w.sends then w
      else w.(sends := w.sends[id := SendCall(q, d, Numbered)], numbers := w.numbers + [q], given := w.given + {(q, d)})
    case CallAuto(id, d) =>
      if id in w.sends then w
      else w.(sends := w.sends[id := SendCall(w.snd.nextSeq, d, Numbered)], numbers := w.numbers + [w.snd.nextSeq],
              given := w.given + {(w.snd.nextSeq, d)}, snd := w.snd.(nextSeq := w.snd.nextSeq + 1))
    case Acquire(id) =>
      if AtStage(w, id, Numbered) && w.snd.available > 0 then
        w.(sends := w.sends[id := w.sends[id].(stage := Permitted)], snd := w.snd.(available := w.snd.available - 1))
      else w
    case WindowFull(id) => if AtStage(w, id, Numbered) then w.(sends := w.sends - {id}) else w
    case StoreMessage(id) =>
      if AtStage(w, id, Permitted) then
        w.(sends := w.sends[id := w.sends[id].(stage := Stored)],
           snd := Remember(w.snd, w.sends[id].number, w.sends[id].data),
           stored := w.stored + [(w.sends[id].number, w.sends[id].data)])
      else w
    case PutInFlight(id, now) =>
      if AtStage(w, id, Stored) then
        w.(sends := w.sends[id := w.sends[id].(stage := Tracked)],
           snd := Track(w.snd, w.sends[id].number, w.sends[id].data, now),
           timers := w.timers + [Timer(w.sends[id].number, now, false)],
           overwritten := w.overwritten + if w.sends[id].number in w.snd.inFlight then 1 else 0)
      else w
    case Write(id, ok) =>
      if !AtStage(w, id, Tracked) then w
      else if ok then
        w.(sends := w.sends - {id}, toReceiver := w.toReceiver + {Datagram(w.sends[id].number, w.sends[id].data)},
           emitted := w.emitted + [Datagram(w.sends[id].number, w.sends[id].data)],
           confirmed := w.confirmed + {(w.sends[id].number, w.sends[id].data)})
      else
        w.(sends := w.sends - {id}, snd := w.snd.(available := w.snd.available + 1),
           failedWrites := w.failedWrites + 1)
    case _ => w
  }

  /** The socket reader, the worker that serves its queue, and the timeout task. */
  function TaskStep(w: World, l: Label): World {
    match l
    case Hear(m) =>
      if m in w.toSender && (m.kind.RQST? || m.kind.ACK?) && |w.inbox| < INBOX_CAPACITY
      then w.(inbox := w.inbox + [m]) else w
    case Work(ok) =>
      if w.inbox == [] then w
      else
        var m := w.inbox[0];
        if m.kind.ACK? then w.(inbox := w.inbox[1..], snd := Acknowledge(w.snd, m.number))
        else if m.kind.RQST? && ok && m.number in w.snd.sentMessages then
          w.(inbox := w.inbox[1..], toReceiver := w.toReceiver + {Datagram(m.number, w.snd.sentMessages[m.number])},
             emitted := w.emitted + [Datagram(m.number, w.snd.sentMessages[m.number])])
        else w.(inbox := w.inbox[1..])
    case Walk(now, timeout, order) =>
      if w.resend == [] && WalkOrder(w.snd, order, now, timeout) then
        w.(snd := Scan(w.snd, now, timeout), resend := Retransmissions(w.snd, order),
           timers := w.timers + Collected(order, now))
      else w
    case Resend(ok) =>
      if w.resend == [] then w
      else w.(resend := w.resend[1..], toReceiver := if ok then w.toReceiver + {w.resend[0]} else w.toReceiver,
              emitted := if ok then w.emitted + [w.resend[0]] else w.emitted)
    case _ => w
  }

  function ReceiveStep(w: World, l: Label): World {
    match l
    case AskAgain(q) => w.(toSender := w.toSender + {Message(RQST, q, None)})
    case Arrive(id, m) =>
      if m !in w.toReceiver || !m.kind.DATA? || id in w.receives then w
      else if w.rcv.available == 0 then
        w.(toSender := w.toSender + {Message(FLOW_CONTROL, 0, Some("BUFFER_FULL"))})
      else w.(receives := w.receives[id := ReceiveCall(m, Reserved)],
              rcv := w.rcv.(available := w.rcv.available - 1))
    case RecordSeq(id) =>
      if AtReceiveStage(w, id, Reserved) then
        w.(receives := w.receives[id := w.receives[id].(stage := Recorded)],
           rcv := w.rcv.(receivedSeqs := w.rcv.receivedSeqs + {w.receives[id].msg.number}))
      else w
    case PushBuffer(id) =>
      if AtReceiveStage(w, id, Recorded) then
        w.(receives := w.receives[id := w.receives[id].(stage := Pushed)],
           rcv := w.rcv.(buffer := w.rcv.buffer + [w.receives[id].msg]),
           pushed := w.pushed + [w.receives[id].msg])
      else w
    case WriteAck(id, ok) =>
      if !AtReceiveStage(w, id, Pushed) then w
      else if ok then
        w.(receives := w.receives - {id}, toSender := w.toSender + {Message(ACK, w.receives[id].msg.number, None)})
      else
        w.(receives := w.receives - {id}, rcv := w.rcv.(available := w.rcv.available + 1),
           failedAcks := w.failedAcks + 1)
    case Consume =>
      if w.rcv.buffer == [] then w
      else w.(rcv := w.rcv.(buffer := w.rcv.buffer[1..], available := w.rcv.available + 1),
              consumed := w.consumed + [w.rcv.buffer[0]])
    case _ => w
  }

  predicate OfSender(l: Label) {
    l.Call? || l.CallAuto? || l.Acquire? || l.WindowFull? || l.StoreMessage? || l.PutInFlight? || l.Write?
  }

  predicate OfTask(l: Label) { l.Hear? || l.Work? || l.Walk? || l.Resend? }

  function Step(w: World, l: Label): World {
    if OfSender(l) then SendStep(w, l) else if OfTask(l) then TaskStep(w, l) else ReceiveStep(w, l)
  }

  function After(w: World, run: seq<Label>): World {
    if run == [] then w else Step(After(w, run[..|run| - 1]), run[|run| - 1])
  }

  // ----- Runs

  lemma {:induction false} AfterConcat(w: World, a: seq<Label>, b: seq<Label>)
    ensures After(w, a + b) == After(After(w, a), b)
  {
    hide Step;
    if b == [] {
      assert a + b == a;
    } else {
      AfterConcat(w, a, b[..|b| - 1]);
      assert (a + b)[..|a + b| - 1] == a + b[..|b| - 1];
    }
  }

  lemma AfterNone(w: World)
    ensures After(w, []) == w
  {
  }

  lemma AfterOne(w: World, l: Label)
    ensures After(w, [l]) == Step(w, l)
  {
    assert [l][..0] == [];
    assert After(w, []) == w;
  }

  lemma AfterMore(w: World, run: seq<Label>, l: Label)
    ensures After(w, run + [l]) == Step(After(w, run), l)
  {
    AfterConcat(w, run, [l]);
    AfterOne(After(w, run), l);
  }

  lemma TwoSteps(w: World, a: Label, b: Label)
    ensures After(w, [a, b]) == Step(Step(w, a), b)
  {
    hide Step;
    AfterOne(w, a);
    AfterMore(w, [a], b);
    assert [a] + [b] == [a, b];
  }

  lemma ThreeSteps(w: World, a: Label, b: Label, c: Label)
    ensures After(w, [a, b, c]) == Step(Step(Step(w, a), b), c)
  {
    hide Step;
    TwoSteps(w, a, b);
    AfterMore(w, [a, b], c);
    assert [a, b] + [c] == [a, b, c];
  }

  lemma FourSteps(w: World, a: Label, b: Label, c: Label, d: Label)
    ensures After(w, [a, b, c, d]) == Step(Step(Step(Step(w, a), b), c), d)
  {
    hide Step;
    ThreeSteps(w, a, b, c);
    AfterMore(w, [a, b, c], d);
    assert [a, b, c] + [d] == [a, b, c, d];
  }

  // ----- A whole call of `receive_message`

  /** Room is reserved, the number recorded, the message pushed; a failed acknowledgement gives the room
      back although the message stays in the buffer. */
  function AfterReceive(r: Receiver, m: Message, acked: bool): Receiver {
    if !m.kind.DATA? || r.available == 0 then r
    else Receiver(if acked then r.available - 1 else r.available, r.receivedSeqs + {m.number}, r.buffer + [m])
  }

  function ReceiveRun(id: nat, m: Message, acked: bool): seq<Label> {
    [Arrive(id, m), RecordSeq(id), PushBuffer(id), WriteAck(id, acked)]
  }

  lemma Reserve(w: World, id: nat, m: Message)
    requires id !in w.receives && m in w.toReceiver && m.kind.DATA? && w.rcv.available > 0
    ensures Step(w, Arrive(id, m)) ==
            w.(receives := w.receives[id := ReceiveCall(m, Reserved)],
               rcv := w.rcv.(available := w.rcv.available - 1))
  {
  }

  lemma Proceed(w: World, id: nat)
    requires id in w.receives
    ensures w.receives[id].stage.Reserved? ==>
              Step(w, RecordSeq(id)) ==
              w.(receives := w.receives[id := ReceiveCall(w.receives[id].msg, Recorded)],
                 rcv := w.rcv.(receivedSeqs := w.rcv.receivedSeqs + {w.receives[id].msg.number}))
    ensures w.receives[id].stage.Recorded? ==>
              Step(w, PushBuffer(id)) ==
              w.(receives := w.receives[id := ReceiveCall(w.receives[id].msg, Pushed)],
                 rcv := w.rcv.(buffer := w.rcv.buffer + [w.receives[id].msg]),
                 pushed := w.pushed + [w.receives[id].msg])
  {
  }

  lemma Finish(w: World, id: nat, acked: bool)
    requires id in w.receives && w.receives[id].stage.Pushed?
    ensures Step(w, WriteAck(id, acked)) ==
            w.(receives := w.receives - {id},
               toSender := if acked then w.toSender + {Message(ACK, w.receives[id].msg.number, None)} else w.toSender,
               rcv := if acked then w.rcv else w.rcv.(available := w.rcv.available + 1),
               failedAcks := if acked then w.failedAcks else w.failedAcks + 1)
  {
  }

  lemma AcceptedRun(w: World, id: nat, m: Message, acked: bool)
    requires id !in w.receives && m in w.toReceiver && m.kind.DATA? && w.rcv.available > 0
    ensures After(w, ReceiveRun(id, m, acked)) ==
            w.(rcv := AfterReceive(w.rcv, m, acked), pushed := w.pushed + [m],
               toSender := if acked then w.toSender + {Message(ACK, m.number, None)} else w.toSender,
               failedAcks := if acked then w.failedAcks else w.failedAcks + 1)
  {
    hide After, Step;
    FourSteps(w, Arrive(id, m), RecordSeq(id), PushBuffer(id), WriteAck(id, acked));
    var a := Step(w, Arrive(id, m));
    Reserve(w, id, m);
    var b := Step(a, RecordSeq(id));
    Proceed(a, id);
    var c := Step(b, PushBuffer(id));
    Proceed(b, id);
    Finish(c, id, acked);
    assert c.receives - {id} == w.receives;
  }

  // ----- The send window

  /** Calls that hold a permit for a message not yet in flight. */
  function Holding(sends: map<nat, SendCall>): set<nat> {
    set id | id in sends && (sends[id].stage.Permitted? || sends[id].stage.Stored?)
  }

  ghost predicate WindowBalanced(w: World, window: nat) {
    w.snd.available + |Holding(w.sends)| + |w.snd.inFlight| + w.overwritten == window + w.failedWrites
  }

  lemma HoldingUpdate(sends: map<nat, SendCall>, id: nat, c: SendCall)
    ensures Holding(sends[id := c]) ==
            if c.stage.Permitted? || c.stage.Stored? then Holding(sends) + {id} else Holding(sends) - {id}
    ensures Holding(sends - {id}) == Holding(sends) - {id}
  {
  }

  lemma CallKeepsWindow(w: World, l: Label, window: nat)
    requires WindowBalanced(w, window) && (l.Call? || l.CallAuto?)
    ensures WindowBalanced(SendStep(w, l), window)
  {
    if l.id !in w.sends {
      HoldingUpdate(w.sends, l.id, SendStep(w, l).sends[l.id]);
      assert Holding(w.sends) - {l.id} == Holding(w.sends);
    }
  }

  lemma TrackKeepsWindow(w: World, l: Label, window: nat)
    requires WindowBalanced(w, window) && l.PutInFlight?
    ensures WindowBalanced(SendStep(w, l), window)
  {
    if AtStage(w, l.id, Stored) {
      var c := w.sends[l.id];
      HoldingUpdate(w.sends, l.id, c.(stage := Tracked));
      TrackSize(w.snd, c.number, c.data, l.now);
    }
  }

  /** Acquiring a permit and storing the message. */
  lemma AdvanceKeepsWindow(w: World, l: Label, window: nat)
    requires WindowBalanced(w, window) && (l.Acquire? || l.StoreMessage?)
    ensures WindowBalanced(SendStep(w, l), window)
  {
    if l.id in w.sends {
      var c := w.sends[l.id];
      HoldingUpdate(w.sends, l.id, c.(stage := Permitted));
      HoldingUpdate(w.sends, l.id, c.(stage := Stored));
      assert c.stage.Permitted? ==> Holding(w.sends) + {l.id} == Holding(w.sends);
    }
  }

  /** Giving up on the window and writing to the socket. */
  lemma LeaveKeepsWindow(w: World, l: Label, window: nat)
    requires WindowBalanced(w, window) && (l.WindowFull? || l.Write?)
    ensures WindowBalanced(SendStep(w, l), window)
  {
    if l.id in w.sends && l.id !in Holding(w.sends) {
      HoldingUpdate(w.sends, l.id, w.sends[l.id]);
      assert Holding(w.sends) - {l.id} == Holding(w.sends);
    }
  }

  lemma SendKeepsWindow(w: World, l: Label, window: nat)
    requires WindowBalanced(w, window) && OfSender(l)
    ensures WindowBalanced(SendStep(w, l), window)
  {
    hide WindowBalanced, SendStep;
    if l.Call? || l.CallAuto? {
      CallKeepsWindow(w, l, window);
    } else if l.PutInFlight? {
      TrackKeepsWindow(w, l, window);
    } else if l.Acquire? || l.StoreMessage? {
      AdvanceKeepsWindow(w, l, window);
    } else {
      LeaveKeepsWindow(w, l, window);
    }
  }

  lemma TrackSize(s: Sender, q: nat, d: string, now: int)
    ensures |Track(s, q, d, now).inFlight| == |s.inFlight| + if q in s.inFlight then 0 else 1
  {
    var t := Track(s, q, d, now);
    assert t.inFlight.Keys == s.inFlight.Keys + {q};
  }

  lemma TaskKeepsWindow(w: World, l: Label, window: nat)
    requires WindowBalanced(w, window)
    ensures WindowBalanced(TaskStep(w, l), window)
  {
    match l
    case Work(ok) =>
      if w.inbox != [] && w.inbox[0].kind.ACK? && w.inbox[0].number in w.snd.inFlight {
        var q := w.inbox[0].number;
        assert (w.snd.inFlight - {q}).Keys == w.snd.inFlight.Keys - {q};
      }
    case Walk(now, timeout, order) =>
      assert Scan(w.snd, now, timeout).inFlight.Keys == w.snd.inFlight.Keys;
    case _ =>
  }

  /** In every interleaving, permits are conserved: a permit is available, held by a call on its way, or
      occupied by a message in flight; a message put in flight under a number still in flight loses one,
      a failed write gains one. */
  lemma {:induction false} WindowConservation(run: seq<Label>, window: nat, room: nat)
    ensures WindowBalanced(After(Init(window, room), run), window)
  {
    hide WindowBalanced, SendStep, TaskStep, ReceiveStep;
    if run == [] {
      InitialWindow(window, room);
    } else {
      var w, l := After(Init(window, room), run[..|run| - 1]), run[|run| - 1];
      WindowConservation(run[..|run| - 1], window, room);
      if OfSender(l) {
        SendKeepsWindow(w, l, window);
      } else if OfTask(l) {
        TaskKeepsWindow(w, l, window);
      } else {
        ReceiveKeepsWindow(w, l, window);
      }
    }
  }

  lemma InitialWindow(window: nat, room: nat)
    ensures WindowBalanced(Init(window, room), window)
  {
  }

  lemma ReceiveKeepsWindow(w: World, l: Label, window: nat)
    requires WindowBalanced(w, window)
    ensures WindowBalanced(ReceiveStep(w, l), window)
  {
  }

  /** Without failed writes the window is never exceeded, whatever numbers are used. */
  lemma WindowHolds(run: seq<Label>, window: nat, room: nat)
    ensures var w := After(Init(window, room), run);
      w.failedWrites == 0 ==> |Holding(w.sends)| + |w.snd.inFlight| <= window
  {
    WindowConservation(run, window, room);
  }
}
