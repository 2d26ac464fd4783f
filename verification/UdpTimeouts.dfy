/** When the timeout task of the UDP sender sends a message again. The history `timers` records when a
    number was put in flight and when it was collected; nothing here looks at the times the task keeps. */
module UdpTimeouts {
  import opened Protocol
  import opened UdpChannel

  /** When `q` was last put in flight or collected. */
  function LastTime(timers: seq<Timer>, q: nat): Option<int> {
    if timers == [] then None
    else
      var n := |timers| - 1;
      if timers[n].number == q then Some(timers[n].time) else LastTime(timers[..n], q)
  }

  /** How often `q` was collected since it was last put in flight. */
  function Collections(timers: seq<Timer>, q: nat): nat {
    if timers == [] then 0
    else
      var n := |timers| - 1;
      if timers[n].number != q then Collections(timers[..n], q)
      else if timers[n].collected then Collections(timers[..n], q) + 1 else 0
  }

  lemma OneMoreTimer(timers: seq<Timer>, t: Timer, q: nat)
    ensures LastTime(timers + [t], q) == if t.number == q then Some(t.time) else LastTime(timers, q)
    ensures Collections(timers + [t], q) ==
            if t.number != q then Collections(timers, q)
            else if t.collected then Collections(timers, q) + 1 else 0
  {
    assert (timers + [t])[..|timers|] == timers;
  }

  lemma {:induction false} ManyCollected(timers: seq<Timer>, order: seq<nat>, now: int, q: nat)
    requires forall i, j :: 0 <= i < j < |order| ==> order[i] != order[j]
    ensures var all := timers + Collected(order, now);
      && LastTime(all, q) == (if q in order then Some(now) else LastTime(timers, q))
      && Collections(all, q) == Collections(timers, q) + if q in order then 1 else 0
  {
    if order == [] {
      assert timers + Collected(order, now) == timers;
    } else {
      var n := |order| - 1;
      ManyCollected(timers, order[..n], now, q);
      assert order == order[..n] + [order[n]];
      var front := timers + Collected(order[..n], now);
      assert timers + Collected(order, now) == front + [Timer(order[n], now, true)];
      OneMoreTimer(front, Timer(order[n], now, true), q);
    }
  }

  // ----- The times the task keeps are those of the history

  ghost predicate Timed(w: World) {
    forall q :: q in w.snd.inFlight ==>
      && LastTime(w.timers, q) == Some(w.snd.inFlight[q].sentTime)
      && Collections(w.timers, q) == w.snd.inFlight[q].retransmits
  }

  lemma PutStaysTimed(w: World, id: nat, now: int)
    requires Timed(w)
    ensures Timed(SendStep(w, PutInFlight(id, now)))
  {
    hide LastTime, Collections;
    if AtStage(w, id, Stored) {
      var t := SendStep(w, PutInFlight(id, now));
      forall q | q in t.snd.inFlight
        ensures LastTime(t.timers, q) == Some(t.snd.inFlight[q].sentTime)
        ensures Collections(t.timers, q) == t.snd.inFlight[q].retransmits
      {
        OneMoreTimer(w.timers, Timer(w.sends[id].number, now, false), q);
      }
    }
  }

  lemma WalkStaysTimed(w: World, now: int, timeout: int, order: seq<nat>)
    requires Timed(w)
    ensures Timed(TaskStep(w, Walk(now, timeout, order)))
  {
    hide LastTime, Collections, Retransmissions;
    if w.resend == [] && WalkOrder(w.snd, order, now, timeout) {
      var t := TaskStep(w, Walk(now, timeout, order));
      forall q | q in t.snd.inFlight
        ensures LastTime(t.timers, q) == Some(t.snd.inFlight[q].sentTime)
        ensures Collections(t.timers, q) == t.snd.inFlight[q].retransmits
      {
        ManyCollected(w.timers, order, now, q);
      }
    }
  }

  lemma OtherStaysTimed(w: World, l: Label)
    requires Timed(w) && !l.PutInFlight? && !l.Walk?
    ensures Timed(Step(w, l)) && Step(w, l).timers == w.timers
  {
    hide LastTime, Collections;
  }

  lemma {:induction false} AlwaysTimed(run: seq<Label>, window: nat, room: nat)
    ensures Timed(After(Init(window, room), run))
  {
    if run != [] {
      hide Timed, SendStep, TaskStep, ReceiveStep;
      var w, l := After(Init(window, room), run[..|run| - 1]), run[|run| - 1];
      AlwaysTimed(run[..|run| - 1], window, room);
      if l.PutInFlight? {
        PutStaysTimed(w, l.id, l.now);
      } else if l.Walk? {
        WalkStaysTimed(w, l.now, l.timeout, l.order);
      } else {
        OtherStaysTimed(w, l);
      }
    }
  }

  // ----- What a walk sends

  /** More than `timeout` has passed since `q` was last put in flight or collected. */
  predicate Overdue(w: World, q: nat, now: int, timeout: int) {
    && q in w.snd.inFlight
    && LastTime(w.timers, q).Some? && now - LastTime(w.timers, q).value > timeout
  }

  /** `order` lists what is overdue, each number once. */
  ghost predicate Lists(order: seq<nat>, w: World, now: int, timeout: int) {
    && (forall q :: q in order <==> Overdue(w, q, now, timeout))
    && (forall i, j :: 0 <= i < j < |order| ==> order[i] != order[j])
  }

  lemma {:induction false} RetransmissionsAt(s: Sender, order: seq<nat>)
    requires forall q :: q in order ==> q in s.inFlight
    ensures |Retransmissions(s, order)| == |order|
    ensures forall i :: 0 <= i < |order| ==>
              Retransmissions(s, order)[i] == Datagram(order[i], s.inFlight[order[i]].data)
  {
    if order != [] {
      var n := |order| - 1;
      assert order[n] in order && forall i :: 0 <= i < n ==> order[..n][i] == order[i];
      RetransmissionsAt(s, order[..n]);
    }
  }

  /** In every reachable state, a walk at `now` collects the overdue numbers and sends their messages
      again, in the order of the walk, and nothing else; their waiting starts anew, and nothing else of the
      sender changes. There is no walk while messages of the last one are still to be sent. */
  lemma WalkResendsWhatIsOverdue(run: seq<Label>, window: nat, room: nat, now: int, timeout: int, order: seq<nat>)
    ensures var w := After(Init(window, room), run);
      var t := Step(w, Walk(now, timeout, order));
      if w.resend == [] && Lists(order, w, now, timeout) then
        && |t.resend| == |order|
        && (forall i :: 0 <= i < |order| ==>
              order[i] in w.snd.inFlight && t.resend[i] == Datagram(order[i], w.snd.inFlight[order[i]].data))
        && t.timers == w.timers + Collected(order, now)
        && t.snd.inFlight.Keys == w.snd.inFlight.Keys
        && (forall q :: q in w.snd.inFlight ==> t.snd.inFlight[q].data == w.snd.inFlight[q].data)
        && t.snd.available == w.snd.available && t.snd.sentMessages == w.snd.sentMessages
      else t == w
  {
    AlwaysTimed(run, window, room);
    hide After, LastTime, Collections, Retransmissions;
    var w := After(Init(window, room), run);
    assert Lists(order, w, now, timeout) <==> WalkOrder(w.snd, order, now, timeout) by {
      ListsAreWalks(w, now, timeout, order);
    }
    if Lists(order, w, now, timeout) {
      RetransmissionsAt(w.snd, order);
    }
  }

  lemma ListsAreWalks(w: World, now: int, timeout: int, order: seq<nat>)
    requires Timed(w)
    ensures Lists(order, w, now, timeout) <==> WalkOrder(w.snd, order, now, timeout)
  {
    hide LastTime, Collections;
    assert forall q :: Overdue(w, q, now, timeout) <==>
      q in w.snd.inFlight && TimedOut(w.snd.inFlight[q], now, timeout);
  }

  /** How often a message in flight has been sent again is what the task counts. */
  lemma RetransmitsAreCounted(run: seq<Label>, window: nat, room: nat, q: nat)
    requires q in After(Init(window, room), run).snd.inFlight
    ensures var w := After(Init(window, room), run); w.snd.inFlight[q].retransmits == Collections(w.timers, q)
  {
    AlwaysTimed(run, window, room);
    hide After;
  }

  // ----- Spacing

  /** The clock never ran backwards. */
  ghost predicate Ticking(timers: seq<Timer>) {
    forall i, j :: 0 <= i < j < |timers| ==> timers[i].time <= timers[j].time
  }

  ghost predicate Spaced(timers: seq<Timer>, timeout: int) {
    forall i, j :: 0 <= i < j < |timers| && timers[i].number == timers[j].number && timers[j].collected ==>
      timers[j].time - timers[i].time > timeout
  }

  lemma {:induction false} LastTimeIsLatest(timers: seq<Timer>, i: nat)
    requires Ticking(timers) && i < |timers|
    ensures LastTime(timers, timers[i].number).Some? && timers[i].time <= LastTime(timers, timers[i].number).value
  {
    var n := |timers| - 1;
    if timers[n].number != timers[i].number {
      LastTimeIsLatest(timers[..n], i);
    }
  }

  lemma WalkStaysSpaced(w: World, now: int, timeout: int, order: seq<nat>)
    requires Timed(w) && Spaced(w.timers, timeout) && Ticking(w.timers)
    ensures Spaced(TaskStep(w, Walk(now, timeout, order)).timers, timeout)
  {
    hide LastTime, Collections, Retransmissions;
    if w.resend == [] && WalkOrder(w.snd, order, now, timeout) {
      ListsAreWalks(w, now, timeout, order);
      var all, n := w.timers + Collected(order, now), |w.timers|;
      forall i, j | 0 <= i < j < |all| && all[i].number == all[j].number && all[j].collected
        ensures all[j].time - all[i].time > timeout
      {
        if n <= j {
          assert all[j] == Timer(order[j - n], now, true) && order[j - n] in order;
          assert Overdue(w, order[j - n], now, timeout);
          LastTimeIsLatest(w.timers, i);
        }
      }
    }
  }

  lemma PutStaysSpaced(w: World, id: nat, now: int, timeout: int)
    requires Spaced(w.timers, timeout)
    ensures Spaced(SendStep(w, PutInFlight(id, now)).timers, timeout)
  {
  }

  lemma TimersGrow(w: World, l: Label)
    ensures w.timers <= Step(w, l).timers
    ensures Ticking(Step(w, l).timers) ==> Ticking(w.timers)
  {
    var t := Step(w, l).timers;
    assert w.timers <= t;
    assert forall i :: 0 <= i < |w.timers| ==> t[i] == w.timers[i];
  }

  /** In every run with a clock that moves forward: when a number is collected, more than the timeout has
      passed since each time it was put in flight or collected before. */
  lemma {:induction false} CollectionsAreSpaced(run: seq<Label>, window: nat, room: nat, timeout: int)
    requires forall i :: 0 <= i < |run| && run[i].Walk? ==> run[i].timeout == timeout
    requires Ticking(After(Init(window, room), run).timers)
    ensures Spaced(After(Init(window, room), run).timers, timeout)
  {
    if run != [] {
      hide Timed, Ticking, Spaced, SendStep, TaskStep, ReceiveStep;
      var w, l := After(Init(window, room), run[..|run| - 1]), run[|run| - 1];
      TimersGrow(w, l);
      CollectionsAreSpaced(run[..|run| - 1], window, room, timeout);
      AlwaysTimed(run[..|run| - 1], window, room);
      if l.Walk? {
        WalkStaysSpaced(w, l.now, l.timeout, l.order);
      } else if l.PutInFlight? {
        PutStaysSpaced(w, l.id, l.now, timeout);
      } else {
        OtherStaysTimed(w, l);
      }
    }
  }
}
