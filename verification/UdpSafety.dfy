/** Exactly when a message whose `send_message` returned Ok is safe: what the callers must give. */
module UdpSafety {
  import opened Protocol
  import opened UdpChannel
  import opened UdpNumbers
  import opened UdpDelivery
  import opened UdpRecovery
  import opened UdpEndpoints

  /** In this run, if the calls give nothing but `given`, every confirmed message is safe. */
  ghost predicate KeepsSafe(run: seq<Label>, window: nat, room: nat, given: set<(nat, string)>) {
    var w := After(Init(window, room), run);
    w.given <= given ==> forall c :: c in w.confirmed ==> Safe(w, c)
  }

  // ----- One payload per number suffices

  lemma OnePayloadIsSafe(run: seq<Label>, window: nat, room: nat, given: set<(nat, string)>)
    requires Functional(given)
    ensures KeepsSafe(run, window, room, given)
  {
    hide After;
    var w := After(Init(window, room), run);
    if w.given <= given {
      assert Functional(w.given);
      forall c | c in w.confirmed ensures Safe(w, c) {
        NoConfirmedMessageIsLost(run, window, room, c);
      }
    }
  }

  // ----- Two payloads for one number

  /** With two slots the second call overwrites the first message before anything arrives. */
  lemma OverwrittenInWindow(q: nat, d: string, e: string, window: nat, room: nat) returns (run: seq<Label>)
    requires window >= 2 && d != e
    ensures !KeepsSafe(run, window, room, {(q, d), (q, e)})
  {
    hide After;
    var w := Init(window, room);
    var a, b := SendRun(0, true, q, d, 0, true), SendRun(0, true, q, e, 0, true);
    SendIsRun(w, 0, q, d, 0, true);
    SendIsRun(After(w, a), 0, q, e, 0, true);
    AfterConcat(w, a, b);
    run := a + b;
    assert (q, d) in After(w, run).confirmed && !Safe(After(w, run), (q, d));
  }

  /** A failed write whose message is delivered all the same gains a slot. */
  lemma GainSlot(q: nat, d: string, window: nat, room: nat) returns (run: seq<Label>)
    requires window >= 1 && room >= 1
    ensures var w := After(Init(window, room), run);
      && w.given == {(q, d)} && w.sends == map[] && w.snd.inFlight == map[] && w.snd.available == window + 1
  {
    hide After;
    var w := Init(window, room);
    var a := SendRun(0, true, q, d, 0, false);
    SendIsRun(w, 0, q, d, 0, false);
    var u := After(w, a);
    BufferConservation(a, window, room);
    var b := Recover(u, room, q, 2, 1);
    SendersRestDuring(u, b);
    AfterConcat(w, a, b);
    run := a + b;
    var v := After(w, run);
    assert v.snd.inFlight.Keys == {};
    WindowConservation(run, window, room);
    assert Holding(v.sends) == {};
  }

  /** Then both calls find a slot, even in a window of one. */
  lemma OverwrittenAfterFailure(q: nat, d: string, e: string, window: nat, room: nat) returns (run: seq<Label>)
    requires window >= 1 && room >= 1 && d != e
    ensures !KeepsSafe(run, window, room, {(q, d), (q, e)})
  {
    hide After;
    var w := Init(window, room);
    var first := GainSlot(q, d, window, room);
    var u := After(w, first);
    NothingForeignPushed(first, window, room, q, e);
    var a, b := SendRun(0, true, q, e, 0, true), SendRun(0, true, q, d, 0, true);
    SendIsRun(u, 0, q, e, 0, true);
    SendIsRun(After(u, a), 0, q, d, 0, true);
    AfterConcat(u, a, b);
    AfterConcat(w, first, a + b);
    run := first + (a + b);
    assert (q, e) in After(w, run).confirmed && !Safe(After(w, run), (q, e));
  }

  lemma NothingForeignPushed(run: seq<Label>, window: nat, room: nat, q: nat, e: string)
    requires (q, e) !in After(Init(window, room), run).given
    ensures Datagram(q, e) !in After(Init(window, room), run).pushed
  {
    InitialInv(window, room);
    RunInv(Init(window, room), run);
    hide After;
  }

  // ----- A window of one and no room

  /** At most one call ever gets past the window, and nothing comes back. */
  ghost predicate Lone(w: World) {
    && Closed(w)
    && (forall m :: m in w.toSender ==> !m.kind.ACK?) && (forall m :: m in w.inbox ==> !m.kind.ACK?)
    && w.snd.available <= 1
    && (forall i, j :: Busy(w, i) && Busy(w, j) ==> i == j)
    && (w.snd.available > 0 ==> w.confirmed == {} && forall i :: !Busy(w, i))
    && (w.confirmed != {} ==> forall i :: !Busy(w, i))
    && (forall i :: Busy(w, i) && w.sends[i].stage.Tracked? ==>
          w.sends[i].number in w.snd.inFlight && w.snd.inFlight[w.sends[i].number].data == w.sends[i].data)
    && (forall c :: c in w.confirmed ==> c.0 in w.snd.inFlight && w.snd.inFlight[c.0].data == c.1)
  }

  predicate Busy(w: World, id: nat) { id in w.sends && !w.sends[id].stage.Numbered? }

  lemma SendKeepsLone(w: World, l: Label)
    requires Lone(w) && OfSender(l)
    ensures Lone(SendStep(w, l))
  {
    var t := SendStep(w, l);
    assert forall i :: i != l.id ==> (Busy(t, i) <==> Busy(w, i));
    assert Busy(w, l.id) ==> w.confirmed == {} && w.snd.available == 0;
  }

  lemma TaskKeepsLone(w: World, l: Label)
    requires Lone(w) && OfTask(l)
    ensures Lone(TaskStep(w, l))
  {
    var t := TaskStep(w, l);
    assert forall i :: Busy(t, i) <==> Busy(w, i);
  }

  lemma ReceiveKeepsLone(w: World, l: Label)
    requires Lone(w)
    ensures Lone(ReceiveStep(w, l))
  {
    var t := ReceiveStep(w, l);
    assert forall i :: Busy(t, i) <==> Busy(w, i);
  }

  lemma {:induction false} StaysLone(run: seq<Label>)
    ensures Lone(After(Init(1, 0), run))
  {
    if run != [] {
      hide Lone, SendStep, TaskStep, ReceiveStep;
      var w, l := After(Init(1, 0), run[..|run| - 1]), run[|run| - 1];
      StaysLone(run[..|run| - 1]);
      if OfSender(l) {
        SendKeepsLone(w, l);
      } else if OfTask(l) {
        TaskKeepsLone(w, l);
      } else {
        ReceiveKeepsLone(w, l);
      }
    }
  }

  // ----- The exact condition

  lemma ConflictIsUnsafe(given: set<(nat, string)>, window: nat, room: nat) returns (run: seq<Label>)
    requires !Functional(given) && window >= 1 && (window >= 2 || room >= 1)
    ensures !KeepsSafe(run, window, room, given)
  {
    var c, d :| c in given && d in given && c.0 == d.0 && c != d;
    assert {(c.0, c.1), (c.0, d.1)} <= given;
    hide After;
    if window >= 2 {
      run := OverwrittenInWindow(c.0, c.1, d.1, window, room);
    } else {
      run := OverwrittenAfterFailure(c.0, c.1, d.1, window, room);
    }
  }

  /** If the callers give nothing but `given`, every message whose `send_message` returned Ok is in flight
      under its own payload or was received, in every interleaving and whatever the network does, exactly
      if `given` has one payload per number; or if the configuration lets at most one message out for
      good: no window, or a window of one and a receiver without room. */
  lemma ConfirmedIsSafeIffOnePayload(given: set<(nat, string)>, window: nat, room: nat)
    ensures (forall run :: KeepsSafe(run, window, room, given)) <==>
            Functional(given) || window == 0 || (window == 1 && room == 0)
  {
    hide KeepsSafe, Functional;
    if Functional(given) {
      forall run ensures KeepsSafe(run, window, room, given) {
        OnePayloadIsSafe(run, window, room, given);
      }
    } else if window == 0 || (window == 1 && room == 0) {
      forall run ensures KeepsSafe(run, window, room, given) {
        SmallIsSafe(run, window, room, given);
      }
    } else {
      var run := ConflictIsUnsafe(given, window, room);
    }
  }

  lemma SmallIsSafe(run: seq<Label>, window: nat, room: nat, given: set<(nat, string)>)
    requires window == 0 || (window == 1 && room == 0)
    ensures KeepsSafe(run, window, room, given)
  {
    if window == 0 {
      NoWindowStaysIdle(run, room);
    } else {
      StaysLone(run);
    }
    hide After;
  }
}
