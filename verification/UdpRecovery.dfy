/** What the UDP channel can still do from any state it can reach: a message in flight is never stuck. */
module UdpRecovery {
  import opened Protocol
  import opened UdpChannel
  import opened UdpDelivery

  // ----- Runs without calls, in which the timeout task reads one time

  /** No call of the sender moves, and the timeout task does not look. */
  ghost predicate Timeless(run: seq<Label>) {
    forall i :: 0 <= i < |run| ==> !OfSender(run[i]) && !run[i].Walk?
  }

  /** No call of the sender moves, and the timeout task reads `now`. */
  ghost predicate AtTime(run: seq<Label>, now: int, timeout: int) {
    forall i :: 0 <= i < |run| ==>
      !OfSender(run[i]) && (run[i].Walk? ==> run[i].now == now && run[i].timeout == timeout)
  }

  /** What such a run leaves alone. */
  ghost predicate SendersRest(w: World, t: World) {
    && t.sends == w.sends && t.numbers == w.numbers && t.given == w.given && t.confirmed == w.confirmed
    && t.overwritten == w.overwritten && t.failedWrites == w.failedWrites
    && t.snd.inFlight.Keys <= w.snd.inFlight.Keys
  }

  lemma RestStep(w: World, l: Label)
    requires !OfSender(l)
    ensures SendersRest(w, Step(w, l))
  {
  }

  lemma {:induction false} SendersRestDuring(w: World, run: seq<Label>)
    requires forall i :: 0 <= i < |run| ==> !OfSender(run[i])
    ensures SendersRest(w, After(w, run))
  {
    if run != [] {
      hide Step;
      SendersRestDuring(w, run[..|run| - 1]);
      RestStep(After(w, run[..|run| - 1]), run[|run| - 1]);
    }
  }

  // ----- Sending what the timeout task collected

  lemma {:induction false} SendAllCollected(w: World) returns (run: seq<Label>)
    ensures After(w, run) == w.(resend := [], toReceiver := w.toReceiver + (set m | m in w.resend),
                                emitted := w.emitted + w.resend)
    ensures Timeless(run)
    decreases |w.resend|
  {
    hide After;
    if w.resend == [] {
      run := [];
      AfterNone(w);
      assert w.toReceiver + (set m | m in w.resend) == w.toReceiver && w.emitted + w.resend == w.emitted;
    } else {
      var t := Step(w, Resend(true));
      AfterOne(w, Resend(true));
      var rest := SendAllCollected(t);
      run := [Resend(true)] + rest;
      AfterConcat(w, [Resend(true)], rest);
      assert w.resend == [w.resend[0]] + w.resend[1..];
      assert w.toReceiver + (set m | m in w.resend) == t.toReceiver + set m | m in t.resend;
      assert w.emitted + w.resend == t.emitted + t.resend;
    }
  }

  // ----- Timing out

  lemma {:induction false} Enumerate(s: set<nat>) returns (order: seq<nat>)
    ensures forall q :: q in order <==> q in s
    ensures forall i, j :: 0 <= i < j < |order| ==> order[i] != order[j]
  {
    if s == {} {
      order := [];
    } else {
      var q :| q in s;
      var rest := Enumerate(s - {q});
      order := rest + [q];
    }
  }

  /** Once `q` has waited longer than the timeout, the timeout task sends its payload again. */
  lemma Retransmit(w: World, q: nat, now: int, timeout: int) returns (run: seq<Label>)
    requires q in w.snd.inFlight && TimedOut(w.snd.inFlight[q], now, timeout)
    ensures AtTime(run, now, timeout)
    ensures var t := After(w, run);
      && t.snd.inFlight.Keys == w.snd.inFlight.Keys
      && t == w.(snd := t.snd, resend := [], toReceiver := t.toReceiver, emitted := t.emitted, timers := t.timers)
      && Datagram(q, w.snd.inFlight[q].data) in t.toReceiver
  {
    hide After;
    var first := SendAllCollected(w);
    var v := After(w, first);
    var order := Enumerate(set p | p in v.snd.inFlight && TimedOut(v.snd.inFlight[p], now, timeout));
    var walk := Walk(now, timeout, order);
    assert WalkOrder(v.snd, order, now, timeout);
    AfterMore(w, first, walk);
    var u := After(w, first + [walk]);
    RetransmissionsAre(v.snd, order);
    assert q in order && Datagram(q, w.snd.inFlight[q].data) in u.resend;
    var last := SendAllCollected(u);
    run := first + [walk] + last;
    AfterConcat(w, first + [walk], last);
  }

  // ----- Making room at the receiver

  lemma ConsumeOne(w: World)
    requires w.rcv.buffer != []
    ensures var t := Step(w, Consume); t.rcv.available > 0 && t.snd == w.snd && t.toReceiver == w.toReceiver
  {
  }

  /** A call that has reserved room pushes its message. */
  lemma FinishPush(w: World, id: nat) returns (run: seq<Label>)
    requires id in Reserving(w.receives)
    ensures Timeless(run)
    ensures var t := After(w, run); t.rcv.buffer != [] && t.snd == w.snd && t.toReceiver == w.toReceiver
  {
    hide After, Step;
    Proceed(w, id);
    if w.receives[id].stage.Reserved? {
      var a := Step(w, RecordSeq(id));
      Proceed(a, id);
      run := [RecordSeq(id), PushBuffer(id)];
      TwoSteps(w, RecordSeq(id), PushBuffer(id));
    } else {
      run := [PushBuffer(id)];
      AfterOne(w, PushBuffer(id));
    }
  }

  /** The receiver frees a slot by finishing a call it has begun and by consuming. */
  lemma MakeRoom(w: World, room: nat) returns (run: seq<Label>)
    requires BufferBalanced(w, room) && room > 0
    ensures Timeless(run)
    ensures var t := After(w, run);
      && t.rcv.available > 0 && t.snd == w.snd && t.toReceiver == w.toReceiver
  {
    hide After, Step, Reserving;
    if w.rcv.available > 0 {
      run := [];
      AfterNone(w);
    } else if w.rcv.buffer != [] {
      run := [Consume];
      ConsumeOne(w);
      AfterOne(w, Consume);
    } else {
      assert |Reserving(w.receives)| > 0;
      var id :| id in Reserving(w.receives);
      var first := FinishPush(w, id);
      run := first + [Consume];
      ConsumeOne(After(w, first));
      AfterMore(w, first, Consume);
    }
  }

  // ----- Receiving and acknowledging

  lemma {:induction false} FreshId(s: set<nat>) returns (id: nat)
    ensures forall x :: x in s ==> x < id
  {
    if s == {} {
      id := 0;
    } else {
      var x :| x in s;
      var rest := FreshId(s - {x});
      id := if x < rest then rest else x + 1;
      assert forall y :: y in s ==> y == x || y in s - {x};
    }
  }

  lemma Deliver(w: World, m: Message) returns (run: seq<Label>)
    requires m in w.toReceiver && m.kind.DATA? && w.rcv.available > 0
    ensures Timeless(run)
    ensures var t := After(w, run);
      t.snd == w.snd && m in t.pushed && Message(ACK, m.number, None) in t.toSender
  {
    var id := FreshId(w.receives.Keys);
    run := ReceiveRun(id, m, true);
    AcceptedRun(w, id, m, true);
  }

  lemma {:induction false} ServeQueue(w: World) returns (run: seq<Label>)
    ensures Timeless(run)
    ensures var t := After(w, run);
      && t.inbox == [] && t.pushed == w.pushed && t.toSender == w.toSender
      && t.snd.inFlight.Keys <= w.snd.inFlight.Keys
    decreases |w.inbox|
  {
    hide After;
    if w.inbox == [] {
      run := [];
      AfterNone(w);
    } else {
      var t := Step(w, Work(false));
      AfterOne(w, Work(false));
      var rest := ServeQueue(t);
      run := [Work(false)] + rest;
      AfterConcat(w, [Work(false)], rest);
    }
  }

  lemma TakeAck(w: World, q: nat) returns (run: seq<Label>)
    requires Message(ACK, q, None) in w.toSender
    ensures Timeless(run)
    ensures var t := After(w, run); q !in t.snd.inFlight && t.pushed == w.pushed
  {
    var first := ServeQueue(w);
    var v := After(w, first);
    var ack := Message(ACK, q, None);
    run := first + [Hear(ack), Work(true)];
    AfterConcat(w, first, [Hear(ack), Work(true)]);
    hide After;
    TwoSteps(v, Hear(ack), Work(true));
    var u := Step(v, Hear(ack));
    assert u.inbox == [ack];
  }

  // ----- Nothing in flight is ever stuck

  /** The run brings the message in flight under `q` to the receiver and its acknowledgement back. */
  ghost predicate Recovered(w: World, run: seq<Label>, q: nat)
    requires q in w.snd.inFlight
  {
    var t := After(w, run);
    q !in t.snd.inFlight && Datagram(q, w.snd.inFlight[q].data) in t.pushed
  }

  lemma Recover(w: World, room: nat, q: nat, now: int, timeout: int) returns (run: seq<Label>)
    requires BufferBalanced(w, room) && room > 0
    requires q in w.snd.inFlight && TimedOut(w.snd.inFlight[q], now, timeout)
    ensures AtTime(run, now, timeout) && Recovered(w, run, q)
  {
    hide After, TimedOut;
    var m := Datagram(q, w.snd.inFlight[q].data);
    var a := Retransmit(w, q, now, timeout);
    var u := After(w, a);
    assert BufferBalanced(u, room);
    var b := MakeRoom(u, room);
    AfterConcat(w, a, b);
    var c := Deliver(After(u, b), m);
    AfterConcat(w, a + b, c);
    var d := TakeAck(After(w, a + b + c), q);
    AfterConcat(w, a + b + c, d);
    run := a + b + c + d;
  }

  ghost predicate Closed(w: World) {
    w.rcv.available == 0 && w.rcv.buffer == [] && w.receives == map[] && w.pushed == []
  }

  lemma {:induction false} StaysClosed(run: seq<Label>, window: nat)
    ensures Closed(After(Init(window, 0), run))
  {
    if run != [] {
      StaysClosed(run[..|run| - 1], window);
    }
  }

  lemma NoRoomNoRecovery(run: seq<Label>, more: seq<Label>, window: nat, q: nat)
    requires q in After(Init(window, 0), run).snd.inFlight
    ensures !Recovered(After(Init(window, 0), run), more, q)
  {
    hide After;
    AfterConcat(Init(window, 0), run, more);
    StaysClosed(run + more, window);
  }

  /** In every state the system can reach, whatever was lost so far: a message in flight can still be
      delivered and acknowledged, exactly if the receiver was configured with any room at all. No other
      call has to move for that, and the timeout task reads only times after `since`, for any `since`:
      the clock need not run backwards. */
  lemma RecoverableIffRoom(run: seq<Label>, window: nat, room: nat, q: nat, since: int, timeout: int)
    requires q in After(Init(window, room), run).snd.inFlight
    ensures (exists more, now ::
               since <= now && AtTime(more, now, timeout) && Recovered(After(Init(window, room), run), more, q))
            <==> room > 0
  {
    hide After, BufferBalanced, Recovered, AtTime;
    var w := After(Init(window, room), run);
    if room > 0 {
      BufferConservation(run, window, room);
      var enough := w.snd.inFlight[q].sentTime + timeout + 1;
      var now := if since <= enough then enough else since;
      var more := Recover(w, room, q, now, timeout);
      assert since <= now && AtTime(more, now, timeout) && Recovered(w, more, q);
    } else {
      forall more ensures !Recovered(w, more, q) {
        NoRoomNoRecovery(run, more, window, q);
      }
    }
  }
}
