/** When a channel can come to life: from which states its two ends can still meet on a connection. */
module ChannelRecovery {
  import opened Protocol
  import P = Session
  import opened Channel
  import S = SenderHandler
  import R = ReceiverHandler

  /** Both ends run a handler on the same connection. */
  predicate Joined(st: State) { st.phase.Live? && st.holder == Open(st.phase.c) }

  /** A task waits for a connection that nobody will make: its grant is spent. */
  ghost predicate Orphaned(st: State) {
    (st.holder.Spawned? || st.holder.Waiting?) && !GrantOutstanding(st) && st.unresolved == {}
  }

  /** The sender is done, the receiver gave its queue up, or a grant was wasted. */
  ghost predicate Dead(st: State) { st.phase.Over? || st.holder.Gone? || Orphaned(st) }

  // ----- What recovery relies on

  /** A request has been answered or will be; a live sender and an open receiver have not stopped. */
  ghost predicate Lively(st: State) {
    && (st.phase.Asked? ==> st.phase.k in st.asks || st.phase.k in st.granted || st.phase.k in st.denied)
    && (st.phase.Live? ==> st.phase.c < |st.sessions| && !st.sessions[st.phase.c].snd.at.Stopped?)
    && (st.phase.Dialed? ==> st.phase.c < |st.sessions| && st.sessions[st.phase.c].snd.at.Running?)
    && (st.holder.Open? ==> st.holder.c < |st.sessions| && AtWork(st.sessions[st.holder.c].rcv.at))
  }

  predicate AtWork(at: R.Place) { at.Reading? || at.Holding? || at.Acking? }

  ghost predicate Base(st: State) { OneAtATime(st) && Lively(st) }

  /** The receiver's steps leave the sender alone, and one that does not end it keeps it at work. */
  lemma ReceiverFrame(s: P.Session, e: R.Event)
    ensures P.Next(s, P.Receiver(e)).snd == s.snd
    ensures AtWork(s.rcv.at) ==> AtWork(P.Next(s, P.Receiver(e)).rcv.at) || P.Next(s, P.Receiver(e)).rcv.at.Ended?
    ensures s.rcv.at.Detached? && e.Attached? ==> P.Next(s, P.Receiver(e)).rcv.at.Reading?
  {
  }

  lemma SendKeepsLively(st: State, e: S.Event)
    requires OneAtATime(st) && Lively(st)
    ensures Lively(SendStep(st, e))
  {
    hide P.Next, P.Enabled, OneAtATime;
    if CanSend(st, e) {
      SendKeepsDetached(st.sessions[st.phase.c], e);
    }
  }

  lemma ReceiveKeepsLively(st: State, e: R.Event)
    requires OneAtATime(st) && Lively(st)
    ensures Lively(ReceiveStep(st, e))
  {
    hide P.Next, P.Enabled, OneAtATime;
    if CanReceive(st, e) {
      ReceiverFrame(st.sessions[st.holder.c], e);
    }
  }

  lemma NegotiateKeepsLively(st: State, l: Label)
    requires OneAtATime(st) && Lively(st)
    ensures Lively(Negotiate(st, l))
  {
    hide P.Next;
    if l.Resolve? && l.conn in st.unresolved {
      ReceiverFrame(st.sessions[l.conn], R.Attached);
    }
  }

  lemma {:induction false} StepKeepsBase(st: State, l: Label)
    requires Base(st)
    ensures Base(Step(st, l))
  {
    hide OneAtATime, SendStep, ReceiveStep, Negotiate;
    StaysOneAtATime(st, l);
    match l
    case Send(e) => SendKeepsLively(st, e);
    case Receive(e) => ReceiveKeepsLively(st, e);
    case Produce(_) =>
    case Consume =>
    case CloseQueue =>
    case _ => NegotiateKeepsLively(st, l);
  }

  lemma {:induction false} RunKeepsBase(st: State, run: seq<Label>)
    requires Base(st)
    ensures Base(After(st, run))
  {
    hide Base, Step;
    if run != [] {
      RunKeepsBase(st, run[..|run| - 1]);
      StepKeepsBase(After(st, run[..|run| - 1]), run[|run| - 1]);
    }
  }

  // ----- Runs

  lemma {:induction false} AfterConcat(st: State, a: seq<Label>, b: seq<Label>)
    ensures After(st, a + b) == After(After(st, a), b)
  {
    hide Step;
    if b == [] {
      assert a + b == a;
    } else {
      AfterConcat(st, a, b[..|b| - 1]);
      assert (a + b)[..|a + b| - 1] == a + b[..|b| - 1];
    }
  }

  lemma AfterNone(st: State)
    ensures After(st, []) == st
  {
  }

  lemma AfterOne(st: State, l: Label)
    ensures After(st, [l]) == Step(st, l)
  {
    assert [l][..0] == [];
    AfterNone(st);
  }

  /** `l` and then `rest`. */
  lemma AfterFirst(st: State, l: Label, rest: seq<Label>)
    ensures After(st, [l] + rest) == After(Step(st, l), rest)
  {
    AfterConcat(st, [l], rest);
    AfterOne(st, l);
  }

  // ----- Single steps

  lemma GrantSteps(st: State)
    requires st.phase.Asking? && st.holder.Registered?
    ensures var k := st.nextAsk;
      var t := Step(Step(Step(st, Ask), Answer(k)), Hear);
      t == st.(phase := Granted, holder := Spawned, nextAsk := k + 1, asks := t.asks, granted := t.granted)
  {
    var k := st.nextAsk;
    var a := Step(st, Ask);
    assert a == st.(phase := Asked(k), asks := st.asks + {k}, nextAsk := k + 1);
    var b := Step(a, Answer(k));
    assert b == a.(asks := a.asks - {k}, granted := a.granted + {k}, holder := Spawned);
  }

  lemma DialStep(st: State)
    requires st.phase.Granted?
    ensures var n := |st.sessions|;
      Step(st, Dial) == st.(phase := Dialed(n), unresolved := st.unresolved + {n},
                            sessions := st.sessions + [P.FRESH_SESSION])
  {
  }

  lemma IdentifiedStep(st: State)
    requires st.phase.Dialed?
    ensures Step(st, Identified) == st.(phase := Live(st.phase.c))
  {
  }

  lemma InsertStep(st: State)
    requires st.holder.Spawned?
    ensures Step(st, Insert) == st.(holder := Waiting)
  {
  }

  lemma ResolveStep(st: State, c: nat)
    requires c in st.unresolved && c < |st.sessions| && (st.holder.Spawned? || st.holder.Waiting?)
    ensures Step(st, Resolve(c)) ==
            if st.holder.Spawned? then st.(unresolved := st.unresolved - {c})
            else st.(unresolved := st.unresolved - {c}, holder := Open(c),
                     sessions := st.sessions[c := P.Next(st.sessions[c], P.Receiver(R.Attached))])
  {
    hide P.Next;
  }

  lemma ProduceStep(st: State, m: ControlMessage)
    requires !m.DataMessage? && !st.phase.Over? && |st.queue| < CONTROL_QUEUE_CAPACITY
    ensures Step(st, Produce(m)) == st.(queue := st.queue + [m])
  {
  }

  lemma SendUnfolds(st: State, e: S.Event)
    requires CanSend(st, e)
    ensures var s := P.Next(st.sessions[st.phase.c], P.Sender(e));
      Step(st, Send(e)) == st.(sessions := st.sessions[st.phase.c := s], phase := PhaseAfter(st.phase, s.snd.at),
                               queue := if e.Take? then st.queue[1..] else st.queue)
  {
    hide P.Next, P.Enabled;
  }

  lemma ReceiveUnfolds(st: State, e: R.Event)
    requires CanReceive(st, e) && !e.Enqueues?
    ensures var s := P.Next(st.sessions[st.holder.c], P.Receiver(e));
      Step(st, Receive(e)) == st.(sessions := st.sessions[st.holder.c := s], holder := HolderAfter(st.holder, s.rcv.at),
                                  closed := st.closed || s.rcv.at == R.Ended(R.PeerClosed))
  {
    hide P.Next, P.Enabled;
  }

  // ----- From a free queue to a common connection

  lemma JoinFromGrant(st: State) returns (run: seq<Label>)
    requires st.phase.Granted? && (st.holder.Spawned? || st.holder.Waiting?)
    ensures Joined(After(st, run))
  {
    hide After, P.Next;
    var n := |st.sessions|;
    var a := Step(st, Insert);
    assert a == st.(holder := Waiting);
    var b := Step(a, Dial);
    assert b.phase == Dialed(n) && b.holder == Waiting && n in b.unresolved && |b.sessions| == n + 1;
    var c := Step(b, Identified);
    assert c == b.(phase := Live(n));
    AfterOne(c, Resolve(n));
    AfterFirst(b, Identified, [Resolve(n)]);
    AfterFirst(a, Dial, [Identified] + [Resolve(n)]);
    run := [Insert] + ([Dial] + ([Identified] + [Resolve(n)]));
    AfterFirst(st, Insert, [Dial] + ([Identified] + [Resolve(n)]));
  }

  lemma JoinFromAsking(st: State) returns (run: seq<Label>)
    requires st.phase.Asking? && st.holder.Registered?
    ensures Joined(After(st, run))
  {
    hide After;
    var a := Step(st, Ask);
    var rest := JoinFromQuestion(a);
    run := [Ask] + rest;
    AfterFirst(st, Ask, rest);
  }

  lemma JoinFromQuestion(st: State) returns (run: seq<Label>)
    requires st.phase.Asked? && st.phase.k in st.asks && st.holder.Registered?
    ensures Joined(After(st, run))
  {
    hide After;
    var k := st.phase.k;
    var a := Step(st, Answer(k));
    var b := Step(a, Hear);
    var rest := JoinFromGrant(b);
    AfterFirst(a, Hear, rest);
    run := [Answer(k)] + ([Hear] + rest);
    AfterFirst(st, Answer(k), [Hear] + rest);
  }

  /** The live sender loses its connection and asks again. */
  lemma {:induction false} StopSender(st: State) returns (l: Label)
    requires Base(st) && st.phase.Live?
    ensures Step(st, l).phase.Asking? && Step(st, l).holder == st.holder
  {
    var s := st.sessions[st.phase.c];
    var e := if s.snd.at.Flushing? && !s.snd.at.synced then S.Sync(false) else S.ReaderFailed;
    assert S.Offered(s.snd, e);
    assert P.Next(s, P.Sender(e)).snd.at == S.Stopped(S.ConnectionLost);
    l := Send(e);
    hide P.Next, P.Enabled;
  }

  lemma JoinFromRegistered(st: State) returns (run: seq<Label>)
    requires Base(st) && st.holder.Registered? && !st.phase.Over?
    ensures Joined(After(st, run))
  {
    hide After;
    if st.phase.Asking? {
      run := JoinFromAsking(st);
    } else if st.phase.Asked? && st.phase.k in st.asks {
      run := JoinFromQuestion(st);
    } else {
      var l;
      if st.phase.Asked? {
        l := Hear;
      } else if st.phase.Dialed? {
        l := DialLost;
      } else {
        l := StopSender(st);
      }
      var rest := JoinFromAsking(Step(st, l));
      run := [l] + rest;
      AfterFirst(st, l, rest);
    }
  }

  // ----- From an open receiver

  lemma {:induction false} ConsumeAll(st: State) returns (run: seq<Label>)
    ensures After(st, run) == st.(consumed := After(st, run).consumed)
    ensures |st.delivered| < After(st, run).consumed + DATA_QUEUE_CAPACITY
    decreases |st.delivered| - st.consumed
  {
    if |st.delivered| < st.consumed + DATA_QUEUE_CAPACITY {
      run := [];
    } else {
      var t := Step(st, Consume);
      var rest := ConsumeAll(t);
      hide After;
      run := [Consume] + rest;
      AfterFirst(st, Consume, rest);
    }
  }

  /** One step by which the connection fails at the receiver; with a buffer in hand it must enqueue it
      first, or find its queue closed. */
  lemma FailNow(st: State) returns (l: Label)
    requires Base(st) && st.holder.Open?
    requires st.sessions[st.holder.c].rcv.at.Holding? ==> st.closed
    ensures Step(st, l) == st.(holder := Returning, sessions := Step(st, l).sessions, closed := Step(st, l).closed)
  {
    var s := st.sessions[st.holder.c];
    var e := if s.rcv.at.Holding? then R.QueueGone(false)
             else if s.rcv.at.Acking? then R.AckWritten(false) else R.ReadFails;
    assert R.Offered(s.rcv.at, e);
    assert P.Next(s, P.Receiver(e)).rcv.at == R.Ended(R.NetworkError);
    l := Receive(e);
    hide P.Next, P.Enabled;
  }

  lemma EnqueueNow(st: State)
    requires Base(st) && st.holder.Open? && st.sessions[st.holder.c].rcv.at.Holding?
    requires !st.closed && |st.delivered| < st.consumed + DATA_QUEUE_CAPACITY
    ensures var t := Step(st, Receive(R.Enqueues));
      t.holder == st.holder && t.phase == st.phase && t.sessions[t.holder.c].rcv.at.Acking?
  {
    var s := st.sessions[st.holder.c];
    assert P.Next(s, P.Receiver(R.Enqueues)).rcv.at.Acking?;
    hide P.Next;
  }

  lemma StopReceiver(st: State) returns (run: seq<Label>)
    requires Base(st) && st.holder.Open?
    ensures After(st, run).holder.Returning? && After(st, run).phase == st.phase
  {
    hide After, OneAtATime, Step;
    if !(st.sessions[st.holder.c].rcv.at.Holding? && !st.closed) {
      var l := FailNow(st);
      run := [l];
      AfterOne(st, l);
    } else {
      var first := ConsumeAll(st);
      var a := After(st, first);
      RunKeepsBase(st, first);
      EnqueueNow(a);
      var b := Step(a, Receive(R.Enqueues));
      StepKeepsBase(a, Receive(R.Enqueues));
      var l := FailNow(b);
      AfterOne(b, l);
      AfterFirst(a, Receive(R.Enqueues), [l]);
      run := first + ([Receive(R.Enqueues)] + [l]);
      AfterConcat(st, first, [Receive(R.Enqueues)] + [l]);
    }
  }

  lemma JoinFromReturning(st: State) returns (run: seq<Label>)
    requires Base(st) && st.holder.Returning? && !st.phase.Over?
    ensures Joined(After(st, run))
  {
    hide After;
    StepKeepsBase(st, GiveBack);
    var rest := JoinFromRegistered(Step(st, GiveBack));
    run := [GiveBack] + rest;
    AfterFirst(st, GiveBack, rest);
  }

  lemma JoinFromOpen(st: State) returns (run: seq<Label>)
    requires Base(st) && st.holder.Open? && !st.phase.Over?
    ensures Joined(After(st, run))
  {
    hide After;
    if st.phase.Live? {
      run := [];
      AfterNone(st);
    } else if st.phase.Dialed? {
      run := [Identified];
      AfterOne(st, Identified);
    } else {
      var first := StopReceiver(st);
      RunKeepsBase(st, first);
      var rest := JoinFromReturning(After(st, first));
      run := first + rest;
      AfterConcat(st, first, rest);
    }
  }

  lemma JoinFromWaiting(st: State) returns (run: seq<Label>)
    requires Base(st) && (st.holder.Spawned? || st.holder.Waiting?) && !st.phase.Over? && !Orphaned(st)
    ensures Joined(After(st, run))
  {
    hide After;
    if st.phase.Granted? {
      run := JoinFromGrant(st);
    } else if GrantOutstanding(st) {
      var rest := JoinFromGrant(Step(st, Hear));
      run := [Hear] + rest;
      AfterFirst(st, Hear, rest);
    } else {
      var c :| c in st.unresolved;
      var a := Step(st, Insert);
      var b := Step(a, Resolve(c));
      StepKeepsBase(st, Insert);
      StepKeepsBase(a, Resolve(c));
      var rest := JoinFromOpen(b);
      AfterFirst(a, Resolve(c), rest);
      run := [Insert] + ([Resolve(c)] + rest);
      AfterFirst(st, Insert, [Resolve(c)] + rest);
    }
  }

  // ----- When there is no way back

  lemma DeadStays(st: State, l: Label)
    requires OneAtATime(st) && Dead(st)
    ensures Dead(Step(st, l)) && !Joined(st)
  {
    hide P.Next, P.Enabled;
  }

  lemma {:induction false} DeadForEver(st: State, run: seq<Label>)
    requires Base(st) && Dead(st)
    ensures !Joined(After(st, run)) && Dead(After(st, run))
  {
    hide Step, Base, Dead;
    if run != [] {
      var init := run[..|run| - 1];
      DeadForEver(st, init);
      RunKeepsBase(st, init);
      BaseIsOrdered(After(st, init));
      DeadStays(After(st, init), run[|run| - 1]);
    }
    RunKeepsBase(st, run);
    BaseIsOrdered(After(st, run));
    DeadStays(After(st, run), Consume);
  }

  lemma BaseIsOrdered(st: State)
    requires Base(st)
    ensures OneAtATime(st)
  {
  }

  lemma InitBase()
    ensures Base(INIT)
  {
  }

  /** In every state a channel can reach, however many connections it lost before: its two ends can meet
      on a connection (again) exactly unless the sender is done, the receiver gave up its queue, or a
      grant was wasted. */
  lemma JoinsIffNotDead(run: seq<Label>)
    ensures var st := After(INIT, run); (exists more :: Joined(After(st, more))) <==> !Dead(st)
  {
    InitBase();
    RunKeepsBase(INIT, run);
    hide After, Base;
    var st := After(INIT, run);
    if Dead(st) {
      forall more ensures !Joined(After(st, more)) {
        DeadForEver(st, more);
      }
    } else {
      var more;
      match st.holder {
        case Registered => more := JoinFromRegistered(st);
        case Returning => more := JoinFromReturning(st);
        case Open(_) => more := JoinFromOpen(st);
        case _ => more := JoinFromWaiting(st);
      }
      assert Joined(After(st, more));
    }
  }

  /** The sender asks, or awaits an answer, for a channel that no answer can open. */
  ghost predicate AsksInVain(st: State) { Orphaned(st) && (st.phase.Asking? || st.phase.Asked?) }

  lemma StillInVain(st: State, l: Label)
    requires OneAtATime(st) && AsksInVain(st)
    ensures AsksInVain(Step(st, l))
  {
    hide P.Next, P.Enabled;
  }

  lemma {:induction false} InVainForEver(st: State, run: seq<Label>)
    requires Base(st) && AsksInVain(st)
    ensures AsksInVain(After(st, run))
  {
    hide Step, Base, AsksInVain;
    if run != [] {
      var init := run[..|run| - 1];
      InVainForEver(st, init);
      RunKeepsBase(st, init);
      BaseIsOrdered(After(st, init));
      StillInVain(After(st, init), run[|run| - 1]);
    }
  }

  /** A request in vain is answered by a refusal, after which the sender asks again. */
  lemma AsksAgain(st: State) returns (run: seq<Label>)
    requires Base(st) && AsksInVain(st) && st.phase.Asked?
    ensures After(st, run).phase == Asked(st.nextAsk) && st.nextAsk > st.phase.k
  {
    var k := st.phase.k;
    var a := Step(st, Answer(k));
    assert a.phase == st.phase && k in a.denied && k !in a.granted && a.nextAsk == st.nextAsk;
    var b := Step(a, Hear);
    assert b.phase.Asking? && b.nextAsk == st.nextAsk;
    hide After;
    AfterOne(b, Ask);
    AfterFirst(a, Hear, [Ask]);
    AfterFirst(st, Answer(k), [Hear] + [Ask]);
    run := [Answer(k)] + ([Hear] + [Ask]);
  }

  /** A single failed attempt to connect after a grant wastes it: whatever follows, the two ends never
      meet and the sender is asking, each request after the other refused. */
  lemma FailedDialIsFinal(run: seq<Label>, more: seq<Label>)
    requires After(INIT, run).phase.Granted?
    ensures var st := After(INIT, run + [DialFails]);
      var t := After(st, more);
      && Dead(st) && !Joined(t)
      && (t.phase.Asking? || t.phase.Asked?)
      && (t.phase.Asked? ==> exists again :: After(t, again).phase == Asked(t.nextAsk) && t.nextAsk > t.phase.k)
  {
    InitBase();
    RunKeepsBase(INIT, run);
    AfterConcat(INIT, run, [DialFails]);
    hide After;
    var st := After(INIT, run);
    AfterOne(st, DialFails);
    StepKeepsBase(st, DialFails);
    var wasted := Step(st, DialFails);
    assert AsksInVain(wasted);
    hide Base, Step;
    DeadForEver(wasted, more);
    InVainForEver(wasted, more);
    RunKeepsBase(wasted, more);
    var t := After(wasted, more);
    if t.phase.Asked? {
      var again := AsksAgain(t);
    }
  }

  // ----- A connection looked up too early

  /** The receiver has dropped connection `c` and waits for ever; the sender may still be on it, may be
      done, or asks in vain. */
  ghost predicate Abandoned(st: State, c: nat) {
    && Orphaned(st)
    && (st.phase == Dialed(c) || st.phase == Live(c) || st.phase.Asking? || st.phase.Asked? || st.phase.Over?)
  }

  lemma StaysAbandoned(st: State, l: Label, c: nat)
    requires OneAtATime(st) && Abandoned(st, c)
    ensures Abandoned(Step(st, l), c) && Step(st, l).delivered == st.delivered
  {
    hide P.Next, P.Enabled;
  }

  lemma {:induction false} AbandonedForEver(st: State, run: seq<Label>, c: nat)
    requires Base(st) && Abandoned(st, c)
    ensures Abandoned(After(st, run), c) && After(st, run).delivered == st.delivered
  {
    hide Step, Base, Abandoned;
    if run != [] {
      var init := run[..|run| - 1];
      AbandonedForEver(st, init, c);
      RunKeepsBase(st, init);
      BaseIsOrdered(After(st, init));
      StaysAbandoned(After(st, init), run[|run| - 1], c);
    }
  }

  lemma LookupAbandons(st: State, c: nat)
    requires Base(st) && st.holder.Spawned? && c in st.unresolved
    ensures Abandoned(Step(st, Resolve(c)), c) && Step(st, Resolve(c)).delivered == st.delivered
  {
    assert forall d :: d in st.unresolved ==> d == c;
  }

  /** A connection that is looked up before the new task has published where to hand it is dropped. From
      then on, whatever follows, the receiver waits, nothing is delivered, and the sender is still on that
      connection, is over, or asks in vain. */
  lemma EarlyLookupIsFinal(run: seq<Label>, c: nat, more: seq<Label>)
    requires var st := After(INIT, run); st.holder.Spawned? && c in st.unresolved
    ensures var st, t := After(INIT, run + [Resolve(c)]), After(INIT, run + [Resolve(c)] + more);
      && Abandoned(t, c) && Dead(t) && !Joined(t)
      && t.delivered == st.delivered == After(INIT, run).delivered
  {
    InitBase();
    RunKeepsBase(INIT, run);
    AfterConcat(INIT, run, [Resolve(c)]);
    AfterConcat(INIT, run + [Resolve(c)], more);
    hide After;
    var st := After(INIT, run);
    AfterOne(st, Resolve(c));
    StepKeepsBase(st, Resolve(c));
    LookupAbandons(st, c);
    AbandonedForEver(Step(st, Resolve(c)), more, c);
  }

  /** A sender on a dropped connection ends silently if it reads the end of the stream, and asks in vain
      if the connection fails. */
  lemma AbandonedSenderEnds(st: State, c: nat)
    requires Base(st) && Abandoned(st, c) && st.phase.Live? && st.sessions[c].snd.at.Running?
    ensures Step(st, Send(S.ReaderEnded)).phase.Over?
    ensures AsksInVain(Step(st, Send(S.ReaderFailed)))
  {
    var s := st.sessions[c];
    assert P.Next(s, P.Sender(S.ReaderEnded)).snd.at == S.Stopped(S.ClosedByOtherSide);
    assert P.Next(s, P.Sender(S.ReaderFailed)).snd.at == S.Stopped(S.ConnectionLost);
    hide P.Next;
  }

  /** The first connection of a channel, looked up too early. */
  const DROPPED_AT_ONCE: seq<Label> := [Ask] + ([Answer(0)] + ([Hear] + ([Dial] + ([Resolve(0)] + [Identified]))))

  lemma DroppedAtOnce(st: State)
    requires st.phase.Asking? && st.holder.Registered? && st.nextAsk == 0 && st.sessions == []
    ensures var t := After(st, DROPPED_AT_ONCE);
      && t.phase == Live(0) && t.holder.Spawned? && t.sessions == [P.FRESH_SESSION]
      && t.queue == st.queue && t.produced == st.produced && t.delivered == st.delivered
  {
    hide Step;
    var a := Step(st, Ask);
    var b := Step(a, Answer(0));
    var c := Step(b, Hear);
    GrantSteps(st);
    var d := Step(c, Dial);
    DialStep(c);
    var e := Step(d, Resolve(0));
    ResolveStep(d, 0);
    IdentifiedStep(e);
    hide After;
    AfterOne(e, Identified);
    AfterFirst(d, Resolve(0), [Identified]);
    AfterFirst(c, Dial, [Resolve(0)] + [Identified]);
    AfterFirst(b, Hear, [Dial] + ([Resolve(0)] + [Identified]));
    AfterFirst(a, Answer(0), [Hear] + ([Dial] + ([Resolve(0)] + [Identified])));
    AfterFirst(st, Ask, [Answer(0)] + ([Hear] + ([Dial] + ([Resolve(0)] + [Identified]))));
  }

  lemma TakeOnFresh(b: TupleBuffer)
    ensures var s := P.Next(P.FRESH_SESSION, P.Sender(S.Take(DataMessage(b), false)));
      && P.Enabled(P.FRESH_SESSION, P.Sender(S.Take(DataMessage(b), false)))
      && s.taken == [b] && s.snd.at.Running? && P.Enabled(s, P.Sender(S.ReaderEnded))
      && P.Next(s, P.Sender(S.ReaderEnded)).snd.at == S.Stopped(S.ClosedByOtherSide)
      && P.Next(s, P.Sender(S.ReaderEnded)).taken == [b]
  {
  }

  lemma TakeThenEnd(st: State, b: TupleBuffer)
    requires st.phase == Live(0) && st.sessions == [P.FRESH_SESSION] && st.queue == [DataMessage(b)]
    ensures var t := After(st, [Send(S.Take(DataMessage(b), false))] + [Send(S.ReaderEnded)]);
      && t.phase.Over? && t.queue == [] && t.holder == st.holder && t.delivered == st.delivered
      && t.produced == st.produced && |t.sessions| == 1 && t.sessions[0].taken == [b]
  {
    TakeOnFresh(b);
    hide P.Next, P.Enabled, After, Step;
    var take, end := Send(S.Take(DataMessage(b), false)), Send(S.ReaderEnded);
    SendUnfolds(st, S.Take(DataMessage(b), false));
    SendUnfolds(Step(st, take), S.ReaderEnded);
    AfterFirst(st, take, [end]);
    AfterOne(Step(st, take), end);
  }

  /** A whole life of a channel in which the receiver never begins: the sender takes a buffer, reads the
      end of the stream and is over, and nobody is told. */
  lemma EarlyLookupCanEndSilently(b: TupleBuffer)
    ensures var t := After(INIT, [Produce(DataMessage(b))] + DROPPED_AT_ONCE
                                 + ([Send(S.Take(DataMessage(b), false))] + [Send(S.ReaderEnded)]));
      && t.phase.Over? && t.holder.Spawned? && t.queue == []
      && |t.sessions| == 1 && t.sessions[0].taken == [b] && t.produced == [b] && t.delivered == []
  {
    var start := Step(INIT, Produce(DataMessage(b)));
    assert start == INIT.(queue := [DataMessage(b)], produced := [b]);
    hide After;
    AfterFirst(INIT, Produce(DataMessage(b)), DROPPED_AT_ONCE);
    DroppedAtOnce(start);
    AfterConcat(INIT, [Produce(DataMessage(b))] + DROPPED_AT_ONCE,
                [Send(S.Take(DataMessage(b), false))] + [Send(S.ReaderEnded)]);
    TakeThenEnd(After(start, DROPPED_AT_ONCE), b);
  }

  /** Both happen at the first attempt to open a channel. */
  lemma WastedGrantsAreReachable()
    ensures After(INIT, [Ask] + ([Answer(0)] + [Hear])).phase.Granted?
    ensures var st := After(INIT, [Ask] + ([Answer(0)] + ([Hear] + [Dial]))); st.holder.Spawned? && 0 in st.unresolved
  {
    hide Step, After;
    var a := Step(INIT, Ask);
    var b := Step(a, Answer(0));
    var c := Step(b, Hear);
    GrantSteps(INIT);
    DialStep(c);
    AfterFirst(INIT, Ask, [Answer(0)] + [Hear]);
    AfterFirst(a, Answer(0), [Hear]);
    AfterOne(b, Hear);
    AfterFirst(INIT, Ask, [Answer(0)] + ([Hear] + [Dial]));
    AfterFirst(a, Answer(0), [Hear] + [Dial]);
    AfterFirst(b, Hear, [Dial]);
    AfterOne(c, Dial);
  }
}
