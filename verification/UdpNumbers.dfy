/** What the numbers given to `send_message` decide: whether the slots of the window add up. */
module UdpNumbers {
  import opened Protocol
  import opened UdpChannel

  predicate NoRepeats(numbers: seq<nat>) { forall i, j :: 0 <= i < j < |numbers| ==> numbers[i] != numbers[j] }

  /** No number was given two payloads. */
  predicate Functional(given: set<(nat, string)>) {
    forall c, d :: c in given && d in given && c.0 == d.0 ==> c == d
  }

  // ----- Distinct numbers

  /** Every call has its own number, and no call still on its way to the window finds its number there. */
  ghost predicate Unrepeated(w: World) {
    && NoRepeats(w.numbers)
    && w.overwritten == 0
    && (forall id :: id in w.sends ==> w.sends[id].number in w.numbers)
    && (forall i, j :: i in w.sends && j in w.sends && i != j ==> w.sends[i].number != w.sends[j].number)
    && (forall q :: q in w.snd.inFlight ==> q in w.numbers)
    && (forall id :: id in w.sends && !w.sends[id].stage.Tracked? ==> w.sends[id].number !in w.snd.inFlight)
    && (forall c :: c in w.given ==> c.0 in w.numbers)
    && Functional(w.given)
  }

  lemma NumbersGrow(w: World, l: Label)
    ensures w.numbers <= Step(w, l).numbers
    ensures NoRepeats(Step(w, l).numbers) ==> NoRepeats(w.numbers)
    ensures NoRepeats(Step(w, l).numbers) && Step(w, l).numbers != w.numbers ==>
              Step(w, l).numbers[|w.numbers|] !in w.numbers
  {
    var t := Step(w, l).numbers;
    assert forall i :: 0 <= i < |w.numbers| ==> t[i] == w.numbers[i];
  }

  lemma CallKeepsUnrepeated(w: World, l: Label)
    requires Unrepeated(w) && (l.Call? || l.CallAuto?) && NoRepeats(Step(w, l).numbers)
    ensures Unrepeated(Step(w, l))
  {
    NumbersGrow(w, l);
  }

  lemma SendKeepsUnrepeated(w: World, l: Label)
    requires Unrepeated(w) && !l.Call? && !l.CallAuto? && OfSender(l)
    ensures Unrepeated(SendStep(w, l))
  {
    hide NoRepeats, Functional;
  }

  lemma TaskKeepsUnrepeated(w: World, l: Label)
    requires Unrepeated(w)
    ensures Unrepeated(TaskStep(w, l))
  {
    hide NoRepeats, Functional;
  }

  lemma ReceiveKeepsUnrepeated(w: World, l: Label)
    requires Unrepeated(w)
    ensures Unrepeated(ReceiveStep(w, l))
  {
    hide NoRepeats, Functional;
  }

  lemma {:induction false} DistinctNumbersStayApart(run: seq<Label>, window: nat, room: nat)
    requires NoRepeats(After(Init(window, room), run).numbers)
    ensures Unrepeated(After(Init(window, room), run))
  {
    if run != [] {
      hide Unrepeated, SendStep, TaskStep, ReceiveStep, NoRepeats;
      var w, l := After(Init(window, room), run[..|run| - 1]), run[|run| - 1];
      NumbersGrow(w, l);
      DistinctNumbersStayApart(run[..|run| - 1], window, room);
      if l.Call? || l.CallAuto? {
        CallKeepsUnrepeated(w, l);
      } else if OfSender(l) {
        SendKeepsUnrepeated(w, l);
      } else if OfTask(l) {
        TaskKeepsUnrepeated(w, l);
      } else {
        ReceiveKeepsUnrepeated(w, l);
      }
    }
  }

  /** A slot is free, held by a call on its way, or occupied; a failed write adds one. */
  ghost predicate SlotsAddUp(w: World, window: nat) {
    w.snd.available + |Holding(w.sends)| + |w.snd.inFlight| == window + w.failedWrites
  }

  /** Distinct numbers, chosen by the callers or drawn from the counter: no slot of the window is lost. */
  lemma DistinctNumbersConserveWindow(run: seq<Label>, window: nat, room: nat)
    requires NoRepeats(After(Init(window, room), run).numbers)
    ensures SlotsAddUp(After(Init(window, room), run), window)
  {
    WindowConservation(run, window, room);
    DistinctNumbersStayApart(run, window, room);
  }

  /** The first `n` positive numbers. */
  function Counted(n: nat): seq<nat> { seq(n, i => i + 1) }

  /** Calls that draw their number from the counter get 1, 2, 3, ... in the order in which they are made,
      in every interleaving: different numbers, none left out. */
  lemma {:induction false} AutomaticNumbersAreDistinct(run: seq<Label>, window: nat, room: nat)
    requires forall i :: 0 <= i < |run| ==> !run[i].Call?
    ensures var w := After(Init(window, room), run);
      w.numbers == Counted(|w.numbers|) && w.snd.nextSeq == |w.numbers| + 1 && NoRepeats(w.numbers)
  {
    if run != [] {
      var w, l := After(Init(window, room), run[..|run| - 1]), run[|run| - 1];
      AutomaticNumbersAreDistinct(run[..|run| - 1], window, room);
      hide After;
      CounterStep(w, l);
      hide Step;
      assert Counted(|w.numbers| + 1) == Counted(|w.numbers|) + [|w.numbers| + 1];
    }
  }

  lemma CounterStep(w: World, l: Label)
    requires !l.Call?
    ensures var t := Step(w, l);
      if l.CallAuto? && l.id !in w.sends then
        t.numbers == w.numbers + [w.snd.nextSeq] && t.snd.nextSeq == w.snd.nextSeq + 1
      else t.numbers == w.numbers && t.snd.nextSeq == w.snd.nextSeq
  {
  }

  // ----- Without a window

  ghost predicate Idle(w: World) {
    && w.snd.available == 0 && w.snd.inFlight == map[] && w.failedWrites == 0 && w.confirmed == {}
    && forall id :: id in w.sends ==> w.sends[id].stage.Numbered?
  }

  lemma {:induction false} NoWindowStaysIdle(run: seq<Label>, room: nat)
    ensures Idle(After(Init(0, room), run))
  {
    if run != [] {
      NoWindowStaysIdle(run[..|run| - 1], room);
      hide After;
      IdleStep(After(Init(0, room), run[..|run| - 1]), run[|run| - 1]);
    }
  }

  lemma IdleStep(w: World, l: Label)
    requires Idle(w)
    ensures Idle(Step(w, l))
  {
    if l.Walk? {
      assert Scan(w.snd, l.now, l.timeout).inFlight.Keys == {};
    }
  }

  // ----- A number used twice

  function Labels(numbers: seq<nat>): seq<Label> {
    if numbers == [] then []
    else
      var n := |numbers| - 1;
      Labels(numbers[..n]) + [Call(n, numbers[n], "")]
  }

  function Waiting(numbers: seq<nat>): map<nat, SendCall> {
    map id | 0 <= id < |numbers| :: SendCall(numbers[id], "", Numbered)
  }

  lemma OneMoreCall(w: World, numbers: seq<nat>, q: nat)
    requires w.sends == Waiting(numbers) && w.numbers == numbers
    ensures var t := Step(w, Call(|numbers|, q, ""));
      && t.numbers == numbers + [q] && t.sends == Waiting(numbers + [q])
      && t.snd == w.snd && t.overwritten == w.overwritten && t.failedWrites == w.failedWrites
  {
    assert |numbers| !in w.sends;
  }

  /** All calls have been made, none has gone on. */
  lemma {:induction false} AllCalled(numbers: seq<nat>, window: nat, room: nat)
    ensures var w := After(Init(window, room), Labels(numbers));
      && w.numbers == numbers && w.sends == Waiting(numbers)
      && w.snd == Init(window, room).snd && w.overwritten == 0 && w.failedWrites == 0
  {
    if numbers == [] {
      assert Waiting([]) == map[];
    } else {
      hide After, Step, Waiting;
      var n := |numbers| - 1;
      AllCalled(numbers[..n], window, room);
      AfterMore(Init(window, room), Labels(numbers[..n]), Call(n, numbers[n], ""));
      OneMoreCall(After(Init(window, room), Labels(numbers[..n])), numbers[..n], numbers[n]);
      assert numbers == numbers[..n] + [numbers[n]];
    }
  }

  /** A call that waits goes on until its message is in flight. */
  lemma GoOn(w: World, from: World, run: seq<Label>, id: nat)
    requires w == After(from, run) && AtStage(w, id, Numbered) && w.snd.available > 0
    ensures var t := After(from, run + [Acquire(id)] + [StoreMessage(id)] + [PutInFlight(id, 0)]);
      var q := w.sends[id].number;
      && t.numbers == w.numbers && t.failedWrites == w.failedWrites
      && t.sends == w.sends[id := w.sends[id].(stage := Tracked)]
      && t.snd.available == w.snd.available - 1 && t.snd.inFlight.Keys == w.snd.inFlight.Keys + {q}
      && t.overwritten == w.overwritten + if q in w.snd.inFlight then 1 else 0
  {
    hide After;
    AfterMore(from, run, Acquire(id));
    AfterMore(from, run + [Acquire(id)], StoreMessage(id));
    AfterMore(from, run + [Acquire(id)] + [StoreMessage(id)], PutInFlight(id, 0));
    var a := Step(w, Acquire(id));
    assert a.sends[id] == w.sends[id].(stage := Permitted);
    var b := Step(a, StoreMessage(id));
    assert b.sends[id] == w.sends[id].(stage := Stored) && b.snd.inFlight == w.snd.inFlight;
  }

  /** Two calls with one number: the first write fails, the second call overwrites its entry. */
  lemma RepeatLosesSlot(numbers: seq<nat>, i: nat, j: nat, window: nat, room: nat) returns (run: seq<Label>)
    requires i < j < |numbers| && numbers[i] == numbers[j] && window > 0
    ensures var w := After(Init(window, room), run); w.numbers == numbers && !SlotsAddUp(w, window)
  {
    var start := Init(window, room);
    AllCalled(numbers, window, room);
    var a := Labels(numbers);
    hide After;
    GoOn(After(start, a), start, a, i);
    var b := a + [Acquire(i)] + [StoreMessage(i)] + [PutInFlight(i, 0)];
    AfterMore(start, b, Write(i, false));
    var c := b + [Write(i, false)];
    var u := After(start, c);
    assert u.snd.available == window && numbers[i] in u.snd.inFlight;
    GoOn(u, start, c, j);
    run := c + [Acquire(j)] + [StoreMessage(j)] + [PutInFlight(j, 0)];
    hide SlotsAddUp;
    Miscount(run, window, room);
  }

  lemma Miscount(run: seq<Label>, window: nat, room: nat)
    requires After(Init(window, room), run).overwritten > 0
    ensures !SlotsAddUp(After(Init(window, room), run), window)
  {
    hide After;
    WindowConservation(run, window, room);
  }

  /** The slots add up in every interleaving of calls with these numbers exactly if no number occurs
      twice (or there is no window at all). */
  lemma SlotsAddUpIffNoRepeats(numbers: seq<nat>, window: nat, room: nat)
    ensures (forall run :: After(Init(window, room), run).numbers == numbers ==>
               SlotsAddUp(After(Init(window, room), run), window))
            <==> window == 0 || NoRepeats(numbers)
  {
    if window == 0 {
      forall run ensures SlotsAddUp(After(Init(window, room), run), window) {
        NoWindowStaysIdle(run, room);
        IdleAddsUp(After(Init(window, room), run));
      }
    } else if NoRepeats(numbers) {
      forall run | After(Init(window, room), run).numbers == numbers
        ensures SlotsAddUp(After(Init(window, room), run), window)
      {
        DistinctNumbersConserveWindow(run, window, room);
      }
    } else {
      var i, j :| 0 <= i < j < |numbers| && numbers[i] == numbers[j];
      var run := RepeatLosesSlot(numbers, i, j, window, room);
    }
  }

  lemma IdleAddsUp(w: World)
    requires Idle(w)
    ensures SlotsAddUp(w, 0)
  {
    assert Holding(w.sends) == {};
  }
}
