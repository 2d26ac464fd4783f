/** When the gap-detecting receiver asks again. The history `requests` records every request sent with its
    time; nothing here looks at the times the receiver keeps. */
module GapTimeouts {
  import opened Protocol
  import opened GapReceiver

  datatype Request = Request(number: nat, time: int)

  /** The requests of one turn, each with the clock read when it was recorded. */
  function Stamped(asked: seq<nat>, clock: nat -> int): seq<Request> {
    seq(|asked|, i requires 0 <= i < |asked| => Request(asked[i], clock(asked[i])))
  }

  /** Every request sent in a run, in order. */
  function Requests(turns: seq<Turn>, maxAttempts: nat, timeout: int): seq<Request> {
    if turns == [] then []
    else
      var front, t := turns[..|turns| - 1], turns[|turns| - 1];
      Requests(front, maxAttempts, timeout)
      + Stamped(Asked(After(front, maxAttempts, timeout).st, t, maxAttempts), t.clock)
  }

  function Numbers(requests: seq<Request>): seq<nat> {
    seq(|requests|, i requires 0 <= i < |requests| => requests[i].number)
  }

  lemma NumbersOfMore(requests: seq<Request>, asked: seq<nat>, clock: nat -> int)
    ensures Numbers(requests + Stamped(asked, clock)) == Numbers(requests) + asked
  {
  }

  /** They are the requests of the log, with their times. */
  lemma {:induction false} RequestsAreSent(turns: seq<Turn>, maxAttempts: nat, timeout: int)
    ensures Numbers(Requests(turns, maxAttempts, timeout)) == After(turns, maxAttempts, timeout).sent
  {
    if turns != [] {
      hide Step, Asked, Stamped, Numbers;
      var front, t := turns[..|turns| - 1], turns[|turns| - 1];
      RequestsAreSent(front, maxAttempts, timeout);
      var asked := Asked(After(front, maxAttempts, timeout).st, t, maxAttempts);
      NumbersOfMore(Requests(front, maxAttempts, timeout), asked, t.clock);
    } else {
      assert Numbers([]) == [];
    }
  }

  /** When `s` was last asked for. */
  function LastTime(requests: seq<Request>, s: nat): Option<int> {
    if requests == [] then None
    else
      var n := |requests| - 1;
      if requests[n].number == s then Some(requests[n].time) else LastTime(requests[..n], s)
  }

  lemma {:induction false} ManyStamped(requests: seq<Request>, asked: seq<nat>, clock: nat -> int, s: nat)
    ensures LastTime(requests + Stamped(asked, clock), s) ==
            if s in asked then Some(clock(s)) else LastTime(requests, s)
  {
    if asked == [] {
      assert requests + Stamped(asked, clock) == requests;
    } else {
      var n := |asked| - 1;
      ManyStamped(requests, asked[..n], clock, s);
      assert asked == asked[..n] + [asked[n]];
      var front := requests + Stamped(asked[..n], clock);
      var all := requests + Stamped(asked, clock);
      assert all == front + [Request(asked[n], clock(asked[n]))];
      assert all[..|all| - 1] == front;
    }
  }

  // ----- The times the receiver keeps are those of the history

  ghost predicate Timed(st: State, requests: seq<Request>) {
    forall s :: s in st.requests ==> LastTime(requests, s) == Some(st.requests[s])
  }

  lemma {:induction false} RequestTimes(st: State, missing: seq<nat>, clock: nat -> int)
    ensures var u := RequestAll(st, missing, clock);
      && (forall s :: s in u.requests <==> s in st.requests || s in missing)
      && (forall s :: s in u.requests ==> u.requests[s] == if s in missing then clock(s) else st.requests[s])
  {
    if missing != [] {
      var n := |missing| - 1;
      RequestTimes(st, missing[..n], clock);
      assert missing == missing[..n] + [missing[n]];
    }
  }

  /** What a turn asks for is not pending, and the rest of the pending requests keep their times. */
  lemma DetectTimes(st: State, t: Turn, maxAttempts: nat)
    ensures var u, asked := Detect(st, t, maxAttempts), Asked(st, t, maxAttempts);
      && (forall s :: s in asked ==> s !in st.requests)
      && (forall s :: s in u.requests <==> (s in st.requests && t.data != Some(s)) || s in asked)
      && (forall s :: s in u.requests ==> u.requests[s] == if s in asked then t.clock(s) else st.requests[s])
  {
    if t.data.Some? {
      var a, asked := Arrive(st, t.data.value), Asked(st, t, maxAttempts);
      if a.minSeq.Some? && a.maxSeq.Some? {
        MissingMembers(a, a.minSeq.value, a.maxSeq.value, maxAttempts);
      }
      hide Missing, RequestAll;
      assert forall s :: s in asked ==> s !in a.requests && s !in a.received;
      RequestTimes(a, asked, t.clock);
    }
  }

  lemma {:induction false} StepStaysTimed(st: State, requests: seq<Request>, t: Turn, maxAttempts: nat, timeout: int)
    requires Timed(st, requests)
    ensures Timed(Step(st, t, maxAttempts, timeout), requests + Stamped(Asked(st, t, maxAttempts), t.clock))
  {
    hide Detect, Asked, LastTime, Stamped;
    DetectTimes(st, t, maxAttempts);
    var u := Step(st, t, maxAttempts, timeout);
    forall s | s in u.requests
      ensures LastTime(requests + Stamped(Asked(st, t, maxAttempts), t.clock), s) == Some(u.requests[s])
    {
      ManyStamped(requests, Asked(st, t, maxAttempts), t.clock, s);
    }
  }

  lemma {:induction false} AlwaysTimed(turns: seq<Turn>, maxAttempts: nat, timeout: int)
    ensures Timed(After(turns, maxAttempts, timeout).st, Requests(turns, maxAttempts, timeout))
  {
    if turns != [] {
      hide Timed, Step, Asked, Stamped;
      var front := turns[..|turns| - 1];
      AlwaysTimed(front, maxAttempts, timeout);
      StepStaysTimed(After(front, maxAttempts, timeout).st, Requests(front, maxAttempts, timeout),
                     turns[|turns| - 1], maxAttempts, timeout);
    }
  }

  // ----- How long a request stays pending

  lemma AfterTurn(turns: seq<Turn>, t: Turn, maxAttempts: nat, timeout: int)
    ensures After(turns + [t], maxAttempts, timeout).st ==
            Step(After(turns, maxAttempts, timeout).st, t, maxAttempts, timeout)
  {
    hide Step, Asked;
    assert (turns + [t])[..|turns|] == turns;
  }

  /** In every reachable state: a pending request is still pending after a turn exactly if its number did
      not arrive in it and no more than the timeout has passed since the request was sent. */
  lemma PendingUntilArrivalOrTimeout(turns: seq<Turn>, t: Turn, maxAttempts: nat, timeout: int, s: nat)
    requires s in After(turns, maxAttempts, timeout).st.requests
    ensures var sent := LastTime(Requests(turns, maxAttempts, timeout), s);
      && sent.Some?
      && (s in After(turns + [t], maxAttempts, timeout).st.requests <==>
            t.data != Some(s) && t.now - sent.value <= timeout)
  {
    AlwaysTimed(turns, maxAttempts, timeout);
    AfterTurn(turns, t, maxAttempts, timeout);
    hide After, Requests, LastTime, Detect, Asked;
    DetectTimes(After(turns, maxAttempts, timeout).st, t, maxAttempts);
  }

  /** A request sent in a turn is pending after it, unless the turn itself took longer than the timeout. */
  lemma NewRequestIsPending(turns: seq<Turn>, t: Turn, maxAttempts: nat, timeout: int, s: nat)
    requires s in Asked(After(turns, maxAttempts, timeout).st, t, maxAttempts)
    ensures s in After(turns + [t], maxAttempts, timeout).st.requests <==> t.now - t.clock(s) <= timeout
  {
    AfterTurn(turns, t, maxAttempts, timeout);
    hide After, Detect, Asked;
    DetectTimes(After(turns, maxAttempts, timeout).st, t, maxAttempts);
  }

  // ----- Spacing

  ghost predicate Spaced(requests: seq<Request>, timeout: int) {
    forall i, j :: 0 <= i < j < |requests| && requests[i].number == requests[j].number ==>
      requests[j].time - requests[i].time > timeout
  }

  /** What is not pending and not received was asked for long ago, if at all. */
  ghost predicate LongAgo(st: State, requests: seq<Request>, now: int, timeout: int) {
    forall i :: 0 <= i < |requests| ==>
      || requests[i].number in st.received
      || (requests[i].number in st.requests && requests[i].time <= st.requests[requests[i].number])
      || now - requests[i].time > timeout
  }

  ghost predicate Ascending(m: seq<nat>) { forall i, j :: 0 <= i < j < |m| ==> m[i] < m[j] }

  lemma PrependAscends(x: nat, rest: seq<nat>)
    requires Ascending(rest) && forall y :: y in rest ==> x < y
    ensures Ascending([x] + rest)
  {
    var m := [x] + rest;
    assert forall i :: 0 < i < |m| ==> m[i] == rest[i - 1] && m[i] in rest;
  }

  lemma {:induction false} MissingAscends(st: State, low: nat, high: nat, maxAttempts: nat)
    ensures Ascending(Missing(st, low, high, maxAttempts))
    decreases high + 1 - low
  {
    hide Missing, Wanted, Ascending;
    if low <= high {
      var rest := Missing(st, low + 1, high, maxAttempts);
      MissingAscends(st, low + 1, high, maxAttempts);
      MissingMembers(st, low + 1, high, maxAttempts);
      MissingNext(st, low, high, maxAttempts);
      PrependAscends(low, rest);
    } else {
      NothingMissing(st, low, high, maxAttempts);
      NothingAscends();
    }
  }

  lemma NothingAscends()
    ensures Ascending([])
  {
  }

  /** What a turn asks for: not received, not pending, in ascending order. */
  lemma AskedAre(st: State, t: Turn, maxAttempts: nat)
    ensures var asked := Asked(st, t, maxAttempts);
      Ascending(asked) && forall s :: s in asked ==> s !in st.received && s !in st.requests
  {
    DetectTimes(st, t, maxAttempts);
    hide Missing, Ascending, Detect;
    NothingAscends();
    if t.data.Some? {
      var a := Arrive(st, t.data.value);
      if a.minSeq.Some? && a.maxSeq.Some? {
        MissingAscends(a, a.minSeq.value, a.maxSeq.value, maxAttempts);
        MissingMembers(a, a.minSeq.value, a.maxSeq.value, maxAttempts);
      }
    }
  }

  lemma NewAreSpaced(st: State, requests: seq<Request>, asked: seq<nat>, clock: nat -> int, now: int, timeout: int)
    requires Spaced(requests, timeout) && LongAgo(st, requests, now, timeout)
    requires forall s :: s in asked ==> s !in st.received && s !in st.requests && now <= clock(s)
    requires Ascending(asked)
    ensures Spaced(requests + Stamped(asked, clock), timeout)
  {
    var all, n := requests + Stamped(asked, clock), |requests|;
    forall i, j | 0 <= i < j < |all| && all[i].number == all[j].number
      ensures all[j].time - all[i].time > timeout
    {
      if n <= j {
        assert all[j] == Request(asked[j - n], clock(asked[j - n])) && asked[j - n] in asked;
      }
    }
  }

  /** After a turn that ended at `t.now`. */
  lemma StepLongAgo(st: State, requests: seq<Request>, t: Turn, before: int, maxAttempts: nat, timeout: nat)
    requires LongAgo(st, requests, before, timeout) && before <= t.now
    requires forall s :: before <= t.clock(s) <= t.now
    ensures LongAgo(Step(st, t, maxAttempts, timeout), requests + Stamped(Asked(st, t, maxAttempts), t.clock),
                    t.now, timeout)
  {
    var asked := Asked(st, t, maxAttempts);
    DetectTimes(st, t, maxAttempts);
    DetectReceives(st, t, maxAttempts);
    hide Detect, Asked;
    var u := Step(st, t, maxAttempts, timeout);
    var all, n := requests + Stamped(asked, t.clock), |requests|;
    forall i | 0 <= i < |all|
      ensures || all[i].number in u.received
              || (all[i].number in u.requests && all[i].time <= u.requests[all[i].number])
              || t.now - all[i].time > timeout
    {
      if n <= i {
        assert all[i] == Request(asked[i - n], t.clock(asked[i - n])) && asked[i - n] in asked;
      } else {
        assert all[i] == requests[i];
      }
    }
  }

  lemma DetectReceives(st: State, t: Turn, maxAttempts: nat)
    ensures Detect(st, t, maxAttempts).received == st.received + if t.data.Some? then {t.data.value} else {}
  {
    if t.data.Some? {
      hide Missing;
      RequestAllDoes(Arrive(st, t.data.value), Asked(st, t, maxAttempts), t.clock);
    }
  }

  lemma TickingFront(turns: seq<Turn>)
    requires Ticking(turns) && turns != []
    ensures Ticking(turns[..|turns| - 1])
  {
  }

  ghost function EndOf(turns: seq<Turn>): int
    requires turns != []
  {
    turns[|turns| - 1].now
  }

  lemma {:induction false} SpacedAndLongAgo(turns: seq<Turn>, maxAttempts: nat, timeout: nat)
    requires Ticking(turns)
    ensures Spaced(Requests(turns, maxAttempts, timeout), timeout)
    ensures turns != [] ==>
      LongAgo(After(turns, maxAttempts, timeout).st, Requests(turns, maxAttempts, timeout), EndOf(turns), timeout)
  {
    if turns != [] {
      var front, t := turns[..|turns| - 1], turns[|turns| - 1];
      TickingFront(turns);
      SpacedAndLongAgo(front, maxAttempts, timeout);
      var before := if front == [] then t.clock(0) else EndOf(front);
      assert forall s :: before <= t.clock(s) <= t.now;
      var st, requests := After(front, maxAttempts, timeout).st, Requests(front, maxAttempts, timeout);
      assert front == [] ==> requests == [];
      hide Ticking, Step, Asked, Stamped, Spaced, LongAgo, EndOf, Ascending;
      NoneLongAgo(st, before, timeout);
      AskedAre(st, t, maxAttempts);
      NewAreSpaced(st, requests, Asked(st, t, maxAttempts), t.clock, before, timeout);
      StepLongAgo(st, requests, t, before, maxAttempts, timeout);
      LastEnd(turns);
    }
  }

  lemma NoneLongAgo(st: State, now: int, timeout: int)
    ensures LongAgo(st, [], now, timeout)
  {
  }

  lemma LastEnd(turns: seq<Turn>)
    requires turns != []
    ensures EndOf(turns) == turns[|turns| - 1].now
  {
  }

  /** In every run with a clock that moves forward, two requests for one number are more than the timeout
      apart. */
  lemma RequestsAreSpaced(turns: seq<Turn>, maxAttempts: nat, timeout: nat, i: nat, j: nat)
    requires Ticking(turns)
    requires i < j < |Requests(turns, maxAttempts, timeout)|
    requires var r := Requests(turns, maxAttempts, timeout); r[i].number == r[j].number
    ensures var r := Requests(turns, maxAttempts, timeout); r[j].time - r[i].time > timeout
  {
    SpacedAndLongAgo(turns, maxAttempts, timeout);
    hide Requests;
  }
}
