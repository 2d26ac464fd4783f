/** The receiver that detects gaps in the sequence numbers and asks for retransmissions, with a
    limit on its attempts for each number. */
module GapReceiver {
  import opened Protocol

  datatype State = State(
    received: set<nat>, minSeq: Option<nat>, maxSeq: Option<nat>,
    requests: map<nat, int>, attempts: map<nat, nat>)

  const EMPTY := State({}, None, None, map[], map[])

  /** One turn of the main loop: a datagram (`None` when it is no DATA message), the clock as read
      when the request for a number is recorded, and as read by the timeout check. */
  datatype Turn = Turn(data: Option<nat>, clock: nat -> int, now: int)

  function Tries(attempts: map<nat, nat>, s: nat): nat { if s in attempts then attempts[s] else 0 }

  /** Recording a DATA message. */
  function Arrive(st: State, s: nat): State {
    st.(received := st.received + {s},
        minSeq := if st.minSeq.None? || s < st.minSeq.value then Some(s) else st.minSeq,
        maxSeq := if st.maxSeq.None? || s > st.maxSeq.value then Some(s) else st.maxSeq,
        requests := st.requests - {s},
        attempts := if s in st.requests then st.attempts - {s} else st.attempts)
  }

  /** A number the detection pass asks for. */
  predicate Wanted(st: State, s: nat, maxAttempts: nat) {
    s !in st.received && s !in st.requests && (s in st.attempts ==> st.attempts[s] < maxAttempts)
  }

  function Missing(st: State, low: nat, high: nat, maxAttempts: nat): seq<nat>
    decreases high + 1 - low
  {
    if low > high then []
    else (if Wanted(st, low, maxAttempts) then [low] else []) + Missing(st, low + 1, high, maxAttempts)
  }

  function Request(st: State, s: nat, at: int): State {
    st.(requests := st.requests[s := at], attempts := st.attempts[s := Tries(st.attempts, s) + 1])
  }

  function RequestAll(st: State, missing: seq<nat>, clock: nat -> int): State {
    if missing == [] then st
    else
      var s := missing[|missing| - 1];
      Request(RequestAll(st, missing[..|missing| - 1], clock), s, clock(s))
  }

  function Expired(st: State, now: int, timeout: int): set<nat> {
    set s | s in st.requests && now - st.requests[s] > timeout
  }

  /** Giving up on requests: an attempt is counted, but nothing is sent. */
  function Expire(st: State, expired: set<nat>, maxAttempts: nat): State {
    st.(requests := st.requests - expired,
        attempts := st.attempts +
          map s | s in expired && Tries(st.attempts, s) < maxAttempts :: Tries(st.attempts, s) + 1)
  }

  /** What a DATA message makes the receiver ask for. */
  function Asked(st: State, t: Turn, maxAttempts: nat): seq<nat> {
    if t.data.None? then []
    else
      var u := Arrive(st, t.data.value);
      if u.minSeq.Some? && u.maxSeq.Some? then Missing(u, u.minSeq.value, u.maxSeq.value, maxAttempts) else []
  }

  function Detect(st: State, t: Turn, maxAttempts: nat): State {
    if t.data.None? then st
    else RequestAll(Arrive(st, t.data.value), Asked(st, t, maxAttempts), t.clock)
  }

  function Step(st: State, t: Turn, maxAttempts: nat, timeout: int): State {
    var u := Detect(st, t, maxAttempts);
    Expire(u, Expired(u, t.now, timeout), maxAttempts)
  }

  /** The receiver together with every request it has sent. */
  datatype Log = Log(st: State, sent: seq<nat>)

  function After(turns: seq<Turn>, maxAttempts: nat, timeout: int): Log {
    if turns == [] then Log(EMPTY, [])
    else
      var before := After(turns[..|turns| - 1], maxAttempts, timeout);
      var t := turns[|turns| - 1];
      Log(Step(before.st, t, maxAttempts, timeout), before.sent + Asked(before.st, t, maxAttempts))
  }

  // ----- The detection pass

  lemma MissingNext(st: State, low: nat, high: nat, maxAttempts: nat)
    requires low <= high
    ensures var rest := Missing(st, low + 1, high, maxAttempts);
      Missing(st, low, high, maxAttempts) == if Wanted(st, low, maxAttempts) then [low] + rest else rest
  {
  }

  lemma NothingMissing(st: State, low: nat, high: nat, maxAttempts: nat)
    requires low > high
    ensures Missing(st, low, high, maxAttempts) == []
  {
  }

  lemma {:induction false} MissingMembers(st: State, low: nat, high: nat, maxAttempts: nat)
    ensures forall s :: s in Missing(st, low, high, maxAttempts) <==> low <= s <= high && Wanted(st, s, maxAttempts)
    decreases high + 1 - low
  {
    hide Wanted, Missing;
    if low <= high {
      MissingNext(st, low, high, maxAttempts);
      MissingMembers(st, low + 1, high, maxAttempts);
    } else {
      NothingMissing(st, low, high, maxAttempts);
    }
  }

  lemma PrependCount(x: nat, rest: seq<nat>, s: nat)
    ensures multiset([x] + rest)[s] == multiset(rest)[s] + if s == x then 1 else 0
  {
    assert multiset([x] + rest) == multiset{x} + multiset(rest);
  }

  lemma {:induction false} MissingCount(st: State, low: nat, high: nat, maxAttempts: nat, s: nat)
    ensures multiset(Missing(st, low, high, maxAttempts))[s] ==
            if low <= s <= high && Wanted(st, s, maxAttempts) then 1 else 0
    decreases high + 1 - low
  {
    hide Wanted, Missing;
    if low <= high {
      MissingNext(st, low, high, maxAttempts);
      MissingCount(st, low + 1, high, maxAttempts, s);
      PrependCount(low, Missing(st, low + 1, high, maxAttempts), s);
    } else {
      NothingMissing(st, low, high, maxAttempts);
    }
  }

  lemma {:induction false} RequestAllDoes(st: State, missing: seq<nat>, clock: nat -> int)
    ensures var u := RequestAll(st, missing, clock);
      && u.received == st.received && u.minSeq == st.minSeq && u.maxSeq == st.maxSeq
      && (forall s :: s in u.requests <==> s in st.requests || s in missing)
      && (forall s :: Tries(u.attempts, s) == Tries(st.attempts, s) + multiset(missing)[s])
      && (forall s :: s in u.attempts <==> s in st.attempts || s in missing)
  {
    if missing != [] {
      var init, last := missing[..|missing| - 1], missing[|missing| - 1];
      RequestAllDoes(st, init, clock);
      assert missing == init + [last];
    }
  }

  // ----- Invariants

  /** The extremes are those of the numbers received; what is asked for lies strictly between them,
      is not received, and has an attempt on record. */
  ghost predicate Bounded(st: State) {
    && (st.minSeq.None? <==> st.received == {}) && (st.maxSeq.None? <==> st.received == {})
    && (st.minSeq.Some? ==> st.minSeq.value in st.received && forall x :: x in st.received ==> st.minSeq.value <= x)
    && (st.maxSeq.Some? ==> st.maxSeq.value in st.received && forall x :: x in st.received ==> x <= st.maxSeq.value)
    && (forall s :: s in st.requests ==>
          s !in st.received && s in st.attempts &&
          st.minSeq.Some? && st.maxSeq.Some? && st.minSeq.value < s < st.maxSeq.value)
  }

  function Ceiling(maxAttempts: nat): nat { if maxAttempts == 0 then 1 else maxAttempts }

  /** The most requests ever sent for one number. */
  function MostRequests(maxAttempts: nat): nat { (Ceiling(maxAttempts) + 1) / 2 }

  /** Attempts against requests sent: while a request is pending, one attempt more than its timeouts;
      a timeout adds an attempt unless the limit is reached. */
  ghost predicate InStep(st: State, sent: seq<nat>, s: nat, maxAttempts: nat) {
    var r, a := multiset(sent)[s], Tries(st.attempts, s);
    && r <= MostRequests(maxAttempts)
    && a <= Ceiling(maxAttempts)
    && (s !in st.received ==>
          if s in st.requests then a == 2 * r - 1
          else a == 2 * r || (a == 2 * r - 1 && a >= maxAttempts))
    && (s !in st.received && s !in st.attempts ==> r == 0)
  }

  ghost predicate Inv(l: Log, maxAttempts: nat) {
    && Bounded(l.st)
    && (forall s :: InStep(l.st, l.sent, s, maxAttempts))
    && (forall s :: s in l.sent ==>
          l.st.minSeq.Some? && l.st.maxSeq.Some? && l.st.minSeq.value < s < l.st.maxSeq.value)
  }

  lemma ArriveInv(l: Log, s: nat, maxAttempts: nat)
    requires Inv(l, maxAttempts)
    ensures Inv(l.(st := Arrive(l.st, s)), maxAttempts)
  {
    var st, u := l.st, Arrive(l.st, s);
    assert s in u.received;
    forall x ensures InStep(u, l.sent, x, maxAttempts) {
      assert InStep(st, l.sent, x, maxAttempts);
    }
  }

  lemma RequestInStep(st: State, u: State, sent: seq<nat>, missing: seq<nat>, s: nat, maxAttempts: nat)
    requires InStep(st, sent, s, maxAttempts) && u.received == st.received
    requires s in u.requests <==> s in st.requests || s in missing
    requires s in u.attempts <==> s in st.attempts || s in missing
    requires Tries(u.attempts, s) == Tries(st.attempts, s) + multiset(missing)[s]
    requires multiset(missing)[s] == (if s in missing then 1 else 0)
    requires s in missing ==> Wanted(st, s, maxAttempts)
    ensures InStep(u, sent + missing, s, maxAttempts)
  {
    assert multiset(sent + missing)[s] == multiset(sent)[s] + multiset(missing)[s];
  }

  lemma {:induction false} DetectInStep(l: Log, low: nat, high: nat, maxAttempts: nat, clock: nat -> int, s: nat)
    requires InStep(l.st, l.sent, s, maxAttempts)
    ensures var missing := Missing(l.st, low, high, maxAttempts);
      InStep(RequestAll(l.st, missing, clock), l.sent + missing, s, maxAttempts)
  {
    hide InStep, Missing, RequestAll;
    var missing := Missing(l.st, low, high, maxAttempts);
    MissingMembers(l.st, low, high, maxAttempts);
    MissingCount(l.st, low, high, maxAttempts, s);
    RequestAllDoes(l.st, missing, clock);
    hide Wanted;
    RequestInStep(l.st, RequestAll(l.st, missing, clock), l.sent, missing, s, maxAttempts);
  }

  lemma DetectBounded(st: State, maxAttempts: nat, clock: nat -> int)
    requires Bounded(st) && st.minSeq.Some? && st.maxSeq.Some?
    ensures var missing := Missing(st, st.minSeq.value, st.maxSeq.value, maxAttempts);
      && Bounded(RequestAll(st, missing, clock))
      && RequestAll(st, missing, clock).minSeq == st.minSeq
      && RequestAll(st, missing, clock).maxSeq == st.maxSeq
      && (forall s :: s in missing ==> st.minSeq.value < s < st.maxSeq.value)
  {
    hide Missing, RequestAll;
    var missing := Missing(st, st.minSeq.value, st.maxSeq.value, maxAttempts);
    MissingMembers(st, st.minSeq.value, st.maxSeq.value, maxAttempts);
    RequestAllDoes(st, missing, clock);
  }

  lemma DetectInv(l: Log, maxAttempts: nat, clock: nat -> int)
    requires Inv(l, maxAttempts) && l.st.minSeq.Some? && l.st.maxSeq.Some?
    ensures var missing := Missing(l.st, l.st.minSeq.value, l.st.maxSeq.value, maxAttempts);
      Inv(Log(RequestAll(l.st, missing, clock), l.sent + missing), maxAttempts)
  {
    hide InStep, Missing, RequestAll, Bounded;
    var low, high := l.st.minSeq.value, l.st.maxSeq.value;
    var missing := Missing(l.st, low, high, maxAttempts);
    DetectBounded(l.st, maxAttempts, clock);
    forall s ensures InStep(RequestAll(l.st, missing, clock), l.sent + missing, s, maxAttempts) {
      DetectInStep(l, low, high, maxAttempts, clock, s);
    }
  }

  lemma ExpireInv(l: Log, expired: set<nat>, maxAttempts: nat)
    requires Inv(l, maxAttempts) && expired <= l.st.requests.Keys
    ensures Inv(l.(st := Expire(l.st, expired, maxAttempts)), maxAttempts)
  {
    var u := Expire(l.st, expired, maxAttempts);
    forall s ensures InStep(u, l.sent, s, maxAttempts) {
      assert InStep(l.st, l.sent, s, maxAttempts);
    }
  }

  lemma {:induction false} RunInv(turns: seq<Turn>, maxAttempts: nat, timeout: int)
    ensures Inv(After(turns, maxAttempts, timeout), maxAttempts)
  {
    if turns != [] {
      RunInv(turns[..|turns| - 1], maxAttempts, timeout);
      var before, t := After(turns[..|turns| - 1], maxAttempts, timeout), turns[|turns| - 1];
      StepInv(before, t, maxAttempts, timeout);
    }
  }

  lemma StepInv(l: Log, t: Turn, maxAttempts: nat, timeout: int)
    requires Inv(l, maxAttempts)
    ensures Inv(Log(Step(l.st, t, maxAttempts, timeout), l.sent + Asked(l.st, t, maxAttempts)), maxAttempts)
    ensures Inv(Log(Detect(l.st, t, maxAttempts), l.sent + Asked(l.st, t, maxAttempts)), maxAttempts)
  {
    var u := Detect(l.st, t, maxAttempts);
    if t.data.Some? {
      ArriveInv(l, t.data.value, maxAttempts);
      var a := l.(st := Arrive(l.st, t.data.value));
      assert a.st.minSeq.Some? && a.st.maxSeq.Some?;
      DetectInv(a, maxAttempts, t.clock);
    } else {
      assert l.sent + [] == l.sent;
    }
    ExpireInv(Log(u, l.sent + Asked(l.st, t, maxAttempts)), Expired(u, t.now, timeout), maxAttempts);
  }

  // ----- What every run guarantees

  /** No number is ever asked for more than `(maxAttempts + 1) / 2` times (once when the limit is 0),
      because a timeout counts as an attempt too; and only numbers inside the range are asked for. */
  lemma {:induction false} RequestsAreBounded(turns: seq<Turn>, maxAttempts: nat, timeout: int, s: nat)
    ensures var l := After(turns, maxAttempts, timeout);
      && multiset(l.sent)[s] <= MostRequests(maxAttempts)
      && Tries(l.st.attempts, s) <= Ceiling(maxAttempts)
      && (s in l.sent ==> l.st.minSeq.Some? && l.st.maxSeq.Some? && l.st.minSeq.value < s < l.st.maxSeq.value)
  {
    RunInv(turns, maxAttempts, timeout);
    var l := After(turns, maxAttempts, timeout);
    assert InStep(l.st, l.sent, s, maxAttempts);
  }

  function Gaps(sent: seq<nat>): set<nat> { set s | s in sent }

  lemma OneMoreGap(most: nat, gaps: nat)
    ensures most * (gaps + 1) == most * gaps + most
  {
  }

  lemma {:induction false} TrafficBound(sent: seq<nat>, most: nat)
    requires forall s :: multiset(sent)[s] <= most
    ensures |sent| <= most * |Gaps(sent)|
    decreases |Gaps(sent)|
  {
    hide Others;
    if sent != [] {
      var x := sent[0];
      var rest := Others(sent, x);
      OthersCount(sent, x);
      assert Gaps(rest) == Gaps(sent) - {x};
      assert |Gaps(sent)| == |Gaps(rest)| + 1;
      TrafficBound(rest, most);
      OneMoreGap(most, |Gaps(rest)|);
    }
  }

  function Others(sent: seq<nat>, x: nat): seq<nat> {
    if sent == [] then [] else Others(sent[..|sent| - 1], x) + if sent[|sent| - 1] == x then [] else [sent[|sent| - 1]]
  }

  lemma {:induction false} OthersCount(sent: seq<nat>, x: nat)
    ensures |sent| == |Others(sent, x)| + multiset(sent)[x]
    ensures forall s :: multiset(Others(sent, x))[s] == if s == x then 0 else multiset(sent)[s]
    ensures forall s :: s in Others(sent, x) <==> s in sent && s != x
  {
    if sent != [] {
      var init, last := sent[..|sent| - 1], sent[|sent| - 1];
      OthersCount(init, x);
      assert sent == init + [last];
    }
  }

  /** All request traffic is bounded by the number of gaps ever opened, which lie within the range. */
  lemma TotalTraffic(turns: seq<Turn>, maxAttempts: nat, timeout: int)
    ensures var l := After(turns, maxAttempts, timeout);
      && |l.sent| <= MostRequests(maxAttempts) * |Gaps(l.sent)|
      && (l.sent != [] ==>
            l.st.minSeq.Some? && l.st.maxSeq.Some? &&
            |Gaps(l.sent)| < l.st.maxSeq.value - l.st.minSeq.value)
  {
    var l := After(turns, maxAttempts, timeout);
    forall s ensures multiset(l.sent)[s] <= MostRequests(maxAttempts) {
      RequestsAreBounded(turns, maxAttempts, timeout, s);
    }
    TrafficBound(l.sent, MostRequests(maxAttempts));
    if l.sent != [] {
      RunInv(turns, maxAttempts, timeout);
      assert l.sent[0] in l.sent;
      Between(Gaps(l.sent), l.st.minSeq.value, l.st.maxSeq.value);
    }
  }

  lemma {:induction false} Between(a: set<nat>, low: nat, high: nat)
    requires low < high && forall s :: s in a ==> low < s < high
    ensures |a| < high - low
    decreases high
  {
    if low + 1 < high {
      var b := a - {high - 1};
      assert a == b || a == b + {high - 1};
      Between(b, low, high - 1);
    } else {
      assert a == {};
    }
  }

  /** Detection is sound and complete: after a pass, every number in the range is received, pending,
      or out of attempts, and nothing received is pending. */
  lemma {:induction false} DetectionIsComplete(turns: seq<Turn>, t: Turn, maxAttempts: nat, timeout: int, s: nat)
    requires t.data.Some?
    ensures var u := Detect(After(turns, maxAttempts, timeout).st, t, maxAttempts);
      && Bounded(u) && u.minSeq.Some? && u.maxSeq.Some?
      && (u.minSeq.value <= s <= u.maxSeq.value ==>
            s in u.received || s in u.requests || (s in u.attempts && u.attempts[s] >= maxAttempts))
  {
    RunInv(turns, maxAttempts, timeout);
    var st := After(turns, maxAttempts, timeout).st;
    StepInv(After(turns, maxAttempts, timeout), t, maxAttempts, timeout);
    var a := Arrive(st, t.data.value);
    MissingMembers(a, a.minSeq.value, a.maxSeq.value, maxAttempts);
    RequestAllDoes(a, Asked(st, t, maxAttempts), t.clock);
  }

  /** What an arrival settles: the number is received and no longer pending, and its attempts are forgotten
      if and only if a request for it was pending; no other number is touched. */
  lemma ArrivalSettles(turns: seq<Turn>, maxAttempts: nat, timeout: int, s: nat, other: nat)
    requires other != s
    ensures var st := After(turns, maxAttempts, timeout).st;
      var u := Arrive(st, s);
      && s in u.received && s !in u.requests && Bounded(u)
      && (s in u.attempts <==> s in st.attempts && s !in st.requests)
      && (s in u.attempts ==> u.attempts[s] == st.attempts[s])
      && Tries(u.attempts, other) == Tries(st.attempts, other)
      && (other in u.received <==> other in st.received) && (other in u.requests <==> other in st.requests)
      && (other in u.requests ==> u.requests[other] == st.requests[other])
  {
    RunInv(turns, maxAttempts, timeout);
    ArriveInv(After(turns, maxAttempts, timeout), s, maxAttempts);
    hide After, InStep;
  }

  // ----- The bound is reached

  /** The clock never runs backwards: not within a turn, whose requests are recorded in ascending
      order before the timeout check, and not from one turn to the next. */
  ghost predicate Ticking(turns: seq<Turn>) {
    && (forall i, s :: 0 <= i < |turns| ==> turns[i].clock(s) <= turns[i].now)
    && (forall i, s, u :: 0 <= i < |turns| && s <= u ==> turns[i].clock(s) <= turns[i].clock(u))
    && (forall i, s :: 0 < i < |turns| ==> turns[i - 1].now <= turns[i].clock(s))
  }

  function At(base: int): nat -> int { (s: nat) => base }

  /** When round `k` ends: just after the request made at the end of the round before has timed out. */
  function EndOfRound(k: nat, timeout: nat): int { if k == 0 then 0 else EndOfRound(k - 1, timeout) + timeout + 1 }

  /** In round `k` the same DATA message comes again, and its request times out. */
  function Again(k: nat, timeout: nat): Turn
    requires k > 0
  {
    Turn(Some(3), At(EndOfRound(k - 1, timeout)), EndOfRound(k, timeout))
  }

  function Stubborn(k: nat, timeout: nat): (run: seq<Turn>)
    ensures |run| == k + 1
  {
    if k == 0 then [Turn(Some(1), At(0), 0)] else Stubborn(k - 1, timeout) + [Again(k, timeout)]
  }

  lemma {:induction false} StubbornTicks(k: nat, timeout: nat)
    ensures Ticking(Stubborn(k, timeout)) && Stubborn(k, timeout)[k].now == EndOfRound(k, timeout)
  {
    if k > 0 {
      StubbornTicks(k - 1, timeout);
      var before, run := Stubborn(k - 1, timeout), Stubborn(k, timeout);
      assert forall i :: 0 <= i < k ==> run[i] == before[i];
      assert run[k] == Again(k, timeout);
    }
  }

  /** Number 2 is missing, has been asked for `k` times, and is not pending. */
  ghost predicate Stuck(l: Log, k: nat, maxAttempts: nat) {
    && l.st.received <= {1, 3} && 1 in l.st.received && (k > 0 ==> 3 in l.st.received)
    && l.st.minSeq == Some(1) && l.st.maxSeq == Some(if 3 in l.st.received then 3 else 1)
    && l.st.requests == map[]
    && Tries(l.st.attempts, 2) == (if 2 * k <= maxAttempts then 2 * k else maxAttempts)
    && multiset(l.sent)[2] == k
  }

  lemma RequestOne(st: State, s: nat, clock: nat -> int)
    ensures RequestAll(st, [s], clock) == Request(st, s, clock(s))
  {
    RequestNone(st, clock);
    RequestNext(st, [], s, clock);
    assert [] + [s] == [s];
  }

  lemma OnlyTwoIsMissing(st: State, maxAttempts: nat)
    requires st.received == {1, 3} && st.requests == map[] && Tries(st.attempts, 2) < maxAttempts
    ensures Missing(st, 1, 3, maxAttempts) == [2]
  {
    assert Missing(st, 4, 3, maxAttempts) == [];
    assert Missing(st, 3, 3, maxAttempts) == [];
    assert Missing(st, 2, 3, maxAttempts) == [2];
  }

  lemma StuckStep(l: Log, k: nat, maxAttempts: nat, timeout: nat)
    requires Stuck(l, k, maxAttempts) && 2 * k < maxAttempts
    ensures var t := Again(k + 1, timeout);
      Stuck(Log(Step(l.st, t, maxAttempts, timeout), l.sent + Asked(l.st, t, maxAttempts)), k + 1, maxAttempts)
  {
    var t, a := Again(k + 1, timeout), Arrive(l.st, 3);
    OnlyTwoIsMissing(a, maxAttempts);
    RequestOne(a, 2, t.clock);
    hide Missing, RequestAll;
    assert Asked(l.st, t, maxAttempts) == [2];
    var u := Detect(l.st, t, maxAttempts);
    assert u == Request(a, 2, EndOfRound(k, timeout));
    assert Expired(u, t.now, timeout) == {2};
  }

  lemma {:induction false} StubbornRun(k: nat, maxAttempts: nat, timeout: nat)
    requires k <= MostRequests(maxAttempts) && maxAttempts > 0
    ensures Stuck(After(Stubborn(k, timeout), maxAttempts, timeout), k, maxAttempts)
  {
    hide Step, Stuck, Asked, After;
    if k == 0 {
      FirstTurn(maxAttempts, timeout);
    } else {
      var before := Stubborn(k - 1, timeout);
      StubbornRun(k - 1, maxAttempts, timeout);
      StuckStep(After(before, maxAttempts, timeout), k - 1, maxAttempts, timeout);
      AfterNext(before, Again(k, timeout), maxAttempts, timeout);
    }
  }

  lemma AfterNext(turns: seq<Turn>, t: Turn, maxAttempts: nat, timeout: int)
    ensures var before := After(turns, maxAttempts, timeout);
      After(turns + [t], maxAttempts, timeout) ==
      Log(Step(before.st, t, maxAttempts, timeout), before.sent + Asked(before.st, t, maxAttempts))
  {
    hide Step, Asked;
    assert (turns + [t])[..|turns|] == turns;
  }

  lemma FirstTurn(maxAttempts: nat, timeout: nat)
    ensures Stuck(After(Stubborn(0, timeout), maxAttempts, timeout), 0, maxAttempts)
  {
    var t := Turn(Some(1), At(0), 0);
    var a := Arrive(EMPTY, 1);
    assert Missing(a, 2, 1, maxAttempts) == [];
    assert Asked(EMPTY, t, maxAttempts) == [];
    assert Expired(a, 0, timeout) == {};
    AfterNext([], t, maxAttempts, timeout);
    assert [] + [t] == Stubborn(0, timeout);
  }

  /** Some run with a clock that only moves forward asks `n` times for one number. */
  ghost predicate CanAsk(n: nat, maxAttempts: nat, timeout: nat) {
    exists turns, s :: Ticking(turns) && multiset(After(turns, maxAttempts, timeout).sent)[s] == n
  }

  /** The bound on requests is reached; the limit named in the configuration is reached by requests
      only when it is 1: a limit of 3 means 2 requests. */
  lemma LimitIsReachedIffOne(maxAttempts: nat, timeout: nat)
    requires maxAttempts > 0
    ensures CanAsk(MostRequests(maxAttempts), maxAttempts, timeout)
    ensures CanAsk(maxAttempts, maxAttempts, timeout) <==> maxAttempts == 1
  {
    var run := Stubborn(MostRequests(maxAttempts), timeout);
    StubbornTicks(MostRequests(maxAttempts), timeout);
    StubbornRun(MostRequests(maxAttempts), maxAttempts, timeout);
    assert multiset(After(run, maxAttempts, timeout).sent)[2] == MostRequests(maxAttempts);
    forall turns, s | multiset(After(turns, maxAttempts, timeout).sent)[s] == maxAttempts
      ensures maxAttempts == 1
    {
      RequestsAreBounded(turns, maxAttempts, timeout, s);
    }
  }

  // ----- The receiver itself

  lemma RequestNone(st: State, clock: nat -> int)
    ensures RequestAll(st, [], clock) == st
  {
  }

  lemma RequestNext(st: State, sent: seq<nat>, s: nat, clock: nat -> int)
    ensures RequestAll(st, sent + [s], clock) == Request(RequestAll(st, sent, clock), s, clock(s))
  {
    assert (sent + [s])[..|sent|] == sent;
  }

  lemma ExpireNone(st: State, maxAttempts: nat)
    ensures Expire(st, {}, maxAttempts) == st
  {
  }

  /** Expiring one more request. */
  lemma ExpireNext(st: State, done: set<nat>, s: nat, maxAttempts: nat)
    requires s !in done
    ensures var u, v := Expire(st, done, maxAttempts), Expire(st, done + {s}, maxAttempts);
      && v == u.(requests := v.requests, attempts := v.attempts)
      && v.requests == u.requests - {s}
      && Tries(u.attempts, s) == Tries(st.attempts, s)
      && v.attempts == if Tries(st.attempts, s) < maxAttempts
                       then u.attempts[s := Tries(st.attempts, s) + 1] else u.attempts
  {
  }

  class GapDetector {
    var receivedSeqs: set<nat>
    var minSeq: Option<nat>
    var maxSeq: Option<nat>
    var requests: map<nat, int>
    var attempts: map<nat, nat>

    constructor ()
      ensures Current() == EMPTY
    {
      receivedSeqs, minSeq, maxSeq := {}, None, None;
      requests, attempts := map[], map[];
    }

    ghost function Current(): State
      reads this
    {
      State(receivedSeqs, minSeq, maxSeq, requests, attempts)
    }

    /** Both ends of the range are known, or neither is. */
    ghost predicate Valid()
      reads this
    {
      minSeq.Some? <==> maxSeq.Some?
    }

    method CollectMissing(low: nat, high: nat, maxAttempts: nat) returns (missing: seq<nat>)
      ensures missing == Missing(Current(), low, high, maxAttempts)
    {
      hide Missing;
      missing := [];
      var s := low;
      while s <= high
        invariant low <= s
        invariant missing + Missing(Current(), s, high, maxAttempts) == Missing(Current(), low, high, maxAttempts)
        decreases high + 1 - s
      {
        MissingNext(Current(), s, high, maxAttempts);
        if s !in receivedSeqs && s !in requests && (s in attempts ==> attempts[s] < maxAttempts) {
          ghost var rest := Missing(Current(), s + 1, high, maxAttempts);
          assert missing + ([s] + rest) == missing + [s] + rest;
          missing := missing + [s];
        }
        s := s + 1;
      }
      NothingMissing(Current(), s, high, maxAttempts);
    }

    /** First collect what is missing, then request it. */
    method DetectAndRequest(low: nat, high: nat, maxAttempts: nat, clock: nat -> int) returns (sent: seq<nat>)
      modifies this`requests, this`attempts
      ensures sent == Missing(old(Current()), low, high, maxAttempts)
      ensures Current() == RequestAll(old(Current()), sent, clock)
    {
      hide Missing, RequestAll;
      ghost var before := Current();
      var missing := CollectMissing(low, high, maxAttempts);
      sent := [];
      RequestNone(before, clock);
      while |sent| < |missing|
        invariant sent <= missing
        invariant Current() == RequestAll(before, sent, clock)
      {
        var m := missing[|sent|];
        RequestNext(before, sent, m, clock);
        requests := requests[m := clock(m)];
        attempts := attempts[m := (if m in attempts then attempts[m] else 0) + 1];
        sent := sent + [m];
      }
    }

    method CollectTimedOut(now: int, timeout: int) returns (timedOut: set<nat>)
      ensures timedOut == Expired(Current(), now, timeout)
    {
      var todo := requests.Keys;
      timedOut := {};
      while todo != {}
        invariant todo <= requests.Keys
        invariant timedOut == set s | s in requests && s !in todo && now - requests[s] > timeout
      {
        var s :| s in todo;
        if now - requests[s] > timeout {
          timedOut := timedOut + {s};
        }
        todo := todo - {s};
      }
    }

    method CheckTimeouts(now: int, timeout: int, maxAttempts: nat)
      modifies this`requests, this`attempts
      ensures Current() == Expire(old(Current()), Expired(old(Current()), now, timeout), maxAttempts)
    {
      hide Expire, Expired;
      ghost var before, done := Current(), {};
      var todo := CollectTimedOut(now, timeout);
      ghost var timedOut := todo;
      ExpireNone(before, maxAttempts);
      while todo != {}
        invariant done + todo == timedOut && done !! todo
        invariant Current() == Expire(before, done, maxAttempts)
        decreases todo
      {
        var s :| s in todo;
        ExpireNext(before, done, s, maxAttempts);
        var tries := if s in attempts then attempts[s] else 0;
        requests := requests - {s};
        if tries < maxAttempts {
          attempts := attempts[s := tries + 1];
        }
        todo, done := todo - {s}, done + {s};
      }
      assert done == timedOut;
    }

    method RecordArrival(s: nat)
      requires Valid()
      modifies this
      ensures Valid() && minSeq.Some?
      ensures Current() == Arrive(old(Current()), s)
    {
      receivedSeqs := receivedSeqs + {s};
      if minSeq.None? {
        minSeq, maxSeq := Some(s), Some(s);
      } else {
        var low, high := minSeq.value, maxSeq.value;
        if s < low {
          minSeq := Some(s);
        }
        if s > high {
          maxSeq := Some(s);
        }
      }
      if s in requests {
        requests, attempts := requests - {s}, attempts - {s};
      } else {
        assert requests - {s} == requests;
      }
    }

    /** One turn of the main loop; `sent` are the requests it sends. */
    method HandleTurn(t: Turn, maxAttempts: nat, timeout: int) returns (sent: seq<nat>)
      requires Valid()
      modifies this
      ensures Valid()
      ensures Current() == Step(old(Current()), t, maxAttempts, timeout)
      ensures sent == Asked(old(Current()), t, maxAttempts)
    {
      hide Missing, RequestAll, Expire, Expired, Arrive;
      sent := [];
      ghost var before := Current();
      if t.data.Some? {
        RecordArrival(t.data.value);
        sent := DetectAndRequest(minSeq.value, maxSeq.value, maxAttempts, t.clock);
      }
      assert Current() == Detect(before, t, maxAttempts);
      CheckTimeouts(t.now, timeout, maxAttempts);
    }
  }
}
