/** The whole life of a channel: a producer, any number of sessions one after another, and the
    negotiation by which a lost connection is reopened. Runs are sequences of labels chosen by the
    scheduler, the network and the application; a label that is not possible changes nothing. */
module Channel {
  import opened Protocol
  import opened Sequences
  import opened Session
  import SR = SessionRuns
  import S = SenderHandler
  import R = ReceiverHandler

  /** The sender's task: asking for the channel, waiting for the answer to its `k`-th request, allowed
      to connect, connected and identifying itself, running a handler on connection `c`, or ended. */
  datatype Phase = Asking | Asked(k: nat) | Granted | Dialed(c: nat) | Live(c: nat) | Over

  /** Who owns the receiver's queue: the registry, a new handler task, that task once it can be given
      a connection, a running handler, a retry message, or nobody. */
  datatype Holder = Registered | Spawned | Waiting | Open(c: nat) | Returning | Gone

  datatype State = State(
    produced: seq<TupleBuffer>, queue: seq<ControlMessage>,
    sessions: seq<Session>, unresolved: set<nat>,
    phase: Phase, holder: Holder,
    nextAsk: nat, asks: set<nat>, granted: set<nat>, denied: set<nat>,
    delivered: seq<TupleBuffer>, consumed: nat, closed: bool)

  const INIT := State([], [], [], {}, Asking, Registered, 0, {}, {}, {}, [], 0, false)

  datatype Label =
    | Produce(m: ControlMessage)
    | Consume
    | CloseQueue
    | Ask
    | ControlLost            // the control connection fails while an answer is awaited
    | Answer(k: nat)         // the receiver handles the k-th channel request
    | Hear                   // the sender reads the answer to its current request
    | DialFails
    | Dial                   // connected, identification sent
    | DialLost
    | Identified             // identification confirmed, the handler starts
    | Insert                 // the new task publishes where connections are to be handed
    | Resolve(conn: nat)     // the accept loop looks the connection up
    | DropConnection(conn: nat)
    | GiveBack               // a retry message puts the queue back in the registry
    | Deregister             // a cancelled registration is dropped
    | Send(se: S.Event)
    | Receive(re: R.Event)

  ghost predicate FreshKey(b: TupleBuffer, produced: seq<TupleBuffer>) {
    forall c :: c in produced ==> c.Sequence() != b.Sequence()
  }

  /** The control connection and the registry. */
  ghost function Negotiate(st: State, l: Label): State {
    match l
    case Ask =>
      if st.phase.Asking? then
        st.(phase := Asked(st.nextAsk), asks := st.asks + {st.nextAsk}, nextAsk := st.nextAsk + 1)
      else st
    case ControlLost => if st.phase.Asked? then st.(phase := Asking) else st
    case Answer(k) =>
      if k !in st.asks then st
      else if st.holder.Registered? then st.(asks := st.asks - {k}, granted := st.granted + {k}, holder := Spawned)
      else st.(asks := st.asks - {k}, denied := st.denied + {k})
    case Hear =>
      if st.phase.Asked? && st.phase.k in st.granted then st.(phase := Granted)
      else if st.phase.Asked? && st.phase.k in st.denied then st.(phase := Asking)
      else st
    case DialFails => if st.phase.Granted? then st.(phase := Asking) else st
    case Dial =>
      if st.phase.Granted? then
        st.(phase := Dialed(|st.sessions|), unresolved := st.unresolved + {|st.sessions|},
            sessions := st.sessions + [FRESH_SESSION])
      else st
    case DialLost => if st.phase.Dialed? then st.(phase := Asking) else st
    case Identified => if st.phase.Dialed? then st.(phase := Live(st.phase.c)) else st
    case Insert => if st.holder.Spawned? then st.(holder := Waiting) else st
    case Resolve(c) =>
      if c !in st.unresolved || c >= |st.sessions| then st
      else if st.holder.Waiting? then
        st.(unresolved := st.unresolved - {c}, holder := Open(c),
            sessions := st.sessions[c := Next(st.sessions[c], Receiver(R.Attached))])
      else st.(unresolved := st.unresolved - {c})
    case DropConnection(c) => st.(unresolved := st.unresolved - {c})
    case GiveBack => if st.holder.Returning? then st.(holder := Registered) else st
    case Deregister => if st.holder.Registered? then st.(holder := Gone) else st
    case _ => st
  }

  /** The application's two ends. */
  ghost function Apply(st: State, l: Label): State {
    match l
    case Produce(m) =>
      if st.phase.Over? || |st.queue| >= CONTROL_QUEUE_CAPACITY then st
      else if m.DataMessage? then
        if FreshKey(m.buffer, st.produced)
        then st.(queue := st.queue + [m], produced := st.produced + [m.buffer])
        else st
      else st.(queue := st.queue + [m])
    case Consume => if st.consumed < |st.delivered| then st.(consumed := st.consumed + 1) else st
    case CloseQueue => st.(closed := true)
    case _ => st
  }

  ghost predicate CanSend(st: State, e: S.Event) {
    && st.phase.Live? && st.phase.c < |st.sessions|
    && Enabled(st.sessions[st.phase.c], Sender(e))
    && (e.Take? ==> st.queue != [] && st.queue[0] == e.message)
  }

  /** A stopped handler is retried when its connection was lost, and is over otherwise. */
  function PhaseAfter(phase: Phase, at: S.Location): Phase {
    if !at.Stopped? then phase
    else if at.why.ConnectionLost? || at.why.ProtocolError? then Asking
    else Over
  }

  ghost function SendStep(st: State, e: S.Event): State {
    if !CanSend(st, e) then st
    else
      var c := st.phase.c;
      var s := Next(st.sessions[c], Sender(e));
      st.(sessions := st.sessions[c := s],
          queue := if e.Take? then st.queue[1..] else st.queue,
          phase := PhaseAfter(st.phase, s.snd.at))
  }

  ghost predicate CanReceive(st: State, e: R.Event) {
    && st.holder.Open? && st.holder.c < |st.sessions|
    && Enabled(st.sessions[st.holder.c], Receiver(e))
    && (e.Enqueues? ==> !st.closed && |st.delivered| < st.consumed + DATA_QUEUE_CAPACITY)
    && (e.QueueGone? ==> st.closed)
  }

  /** A handler that ends hands its queue back for a retry, or drops it. */
  function HolderAfter(holder: Holder, at: R.Place): Holder {
    if !at.Ended? then holder
    else if at.how.NetworkError? || at.how.PeerClosed? then Returning
    else Gone
  }

  ghost function ReceiveStep(st: State, e: R.Event): State {
    if !CanReceive(st, e) then st
    else
      var c := st.holder.c;
      var r := st.sessions[c].rcv;
      var s := Next(st.sessions[c], Receiver(e));
      st.(sessions := st.sessions[c := s],
          delivered := if e.Enqueues? then st.delivered + [r.at.buffer] else st.delivered,
          closed := st.closed || s.rcv.at == R.Ended(R.PeerClosed),
          holder := HolderAfter(st.holder, s.rcv.at))
  }

  ghost function Step(st: State, l: Label): State {
    match l
    case Send(e) => SendStep(st, e)
    case Receive(e) => ReceiveStep(st, e)
    case Produce(_) => Apply(st, l)
    case Consume => Apply(st, l)
    case CloseQueue => Apply(st, l)
    case _ => Negotiate(st, l)
  }

  ghost function After(st: State, run: seq<Label>): State {
    if run == [] then st else Step(After(st, run[..|run| - 1]), run[|run| - 1])
  }

  // ----- Sessions never overlap

  ghost predicate GrantOutstanding(st: State) {
    st.phase.Granted? || (st.phase.Asked? && st.phase.k in st.granted)
  }

  /** Whatever still refers to a connection refers to the newest one; a grant, once given, is the only
      one, and the queue waits for it. */
  ghost predicate OneAtATime(st: State) {
    && ((st.phase.Dialed? || st.phase.Live?) ==> st.phase.c + 1 == |st.sessions|)
    && (st.holder.Open? ==> st.holder.c + 1 == |st.sessions|)
    && (forall c :: c in st.unresolved ==> c + 1 == |st.sessions| && st.sessions[c].rcv.at.Detached?)
    && (GrantOutstanding(st) ==> st.unresolved == {})
    && (GrantOutstanding(st) || st.unresolved != {} ==> st.holder.Spawned? || st.holder.Waiting?)
    && (forall k :: k in st.asks || k in st.granted ==> k < st.nextAsk)
    && (st.phase.Asked? ==> st.phase.k < st.nextAsk)
  }

  lemma SendKeepsDetached(s: Session, e: S.Event)
    ensures Next(s, Sender(e)).rcv == s.rcv
  {
    hide S.Step;
  }

  lemma SendOneAtATime(st: State, e: S.Event)
    requires OneAtATime(st)
    ensures OneAtATime(SendStep(st, e))
  {
    hide Next, Enabled;
    if CanSend(st, e) {
      SendKeepsDetached(st.sessions[st.phase.c], e);
    }
  }

  lemma ReceiveOneAtATime(st: State, e: R.Event)
    requires OneAtATime(st)
    ensures OneAtATime(ReceiveStep(st, e))
  {
    hide Next, Enabled;
  }

  lemma NegotiateOneAtATime(st: State, l: Label)
    requires OneAtATime(st)
    ensures OneAtATime(Negotiate(st, l))
  {
    hide Next;
    if l.Resolve? && l.conn in st.unresolved {
      assert forall d :: d in st.unresolved ==> d == l.conn;
    }
  }

  lemma StaysOneAtATime(st: State, l: Label)
    requires OneAtATime(st)
    ensures OneAtATime(Step(st, l))
  {
    hide SendStep, ReceiveStep, Negotiate;
    match l
    case Send(e) => SendOneAtATime(st, e);
    case Receive(e) => ReceiveOneAtATime(st, e);
    case Produce(_) =>
    case Consume =>
    case CloseQueue =>
    case _ => NegotiateOneAtATime(st, l);
  }

  /** A receiving handler that has its queue is the holder: every other one has not begun or has ended,
      and given its queue back or up. */
  ghost predicate QueueReturned(st: State) {
    forall i :: 0 <= i < |st.sessions| ==>
      st.sessions[i].rcv.at.Detached? || st.sessions[i].rcv.at.Ended? || st.holder == Open(i)
  }

  lemma StaysReturned(st: State, l: Label)
    requires OneAtATime(st) && QueueReturned(st)
    ensures QueueReturned(Step(st, l))
  {
    hide Next, Enabled, OneAtATime;
    if l.Send? {
      if CanSend(st, l.se) {
        SendKeepsDetached(st.sessions[st.phase.c], l.se);
      }
    }
  }

  lemma {:induction false} AlwaysReturned(run: seq<Label>)
    ensures OneAtATime(After(INIT, run)) && QueueReturned(After(INIT, run))
  {
    hide Step, OneAtATime, QueueReturned;
    if run == [] {
      NothingToReturn();
    } else {
      var init, l := run[..|run| - 1], run[|run| - 1];
      AlwaysReturned(init);
      StaysOneAtATime(After(INIT, init), l);
      StaysReturned(After(INIT, init), l);
    }
  }

  lemma NothingToReturn()
    ensures OneAtATime(INIT) && QueueReturned(INIT)
  {
  }

  // ----- What was delivered, and what was taken, over all sessions

  function Delivered(sessions: seq<Session>): seq<TupleBuffer> {
    if sessions == [] then [] else Delivered(sessions[..|sessions| - 1]) + sessions[|sessions| - 1].rcv.got
  }

  function Taken(sessions: seq<Session>): seq<TupleBuffer> {
    if sessions == [] then [] else Taken(sessions[..|sessions| - 1]) + sessions[|sessions| - 1].taken
  }

  function BufferIn(m: ControlMessage): seq<TupleBuffer> { if m.DataMessage? then [m.buffer] else [] }

  function DataIn(queue: seq<ControlMessage>): seq<TupleBuffer> {
    if queue == [] then [] else BufferIn(queue[0]) + DataIn(queue[1..])
  }

  lemma DataInHead(m: ControlMessage, queue: seq<ControlMessage>)
    ensures DataIn([m] + queue) == BufferIn(m) + DataIn(queue)
  {
    assert ([m] + queue)[1..] == queue;
  }

  lemma DataInNothing()
    ensures DataIn([]) == []
  {
  }

  lemma {:induction false} DataInAppend(queue: seq<ControlMessage>, m: ControlMessage)
    ensures DataIn(queue + [m]) == DataIn(queue) + BufferIn(m)
  {
    hide DataIn, BufferIn;
    if queue == [] {
      DataInNothing();
      DataInHead(m, []);
      assert queue + [m] == [m] + [];
    } else {
      var first, rest := queue[0], queue[1..];
      DataInHead(first, rest);
      DataInAppend(rest, m);
      DataInHead(first, rest + [m]);
      assert queue == [first] + rest;
      assert queue + [m] == [first] + (rest + [m]);
    }
  }

  lemma LastChanged(sessions: seq<Session>, s: Session)
    requires sessions != []
    ensures var n := |sessions| - 1;
      && Delivered(sessions) == Delivered(sessions[..n]) + sessions[n].rcv.got
      && Taken(sessions) == Taken(sessions[..n]) + sessions[n].taken
      && Delivered(sessions[n := s]) == Delivered(sessions[..n]) + s.rcv.got
      && Taken(sessions[n := s]) == Taken(sessions[..n]) + s.taken
  {
    var n := |sessions| - 1;
    assert sessions[n := s][..n] == sessions[..n];
  }

  lemma OneMore(sessions: seq<Session>, s: Session)
    ensures Delivered(sessions + [s]) == Delivered(sessions) + s.rcv.got
    ensures Taken(sessions + [s]) == Taken(sessions) + s.taken
  {
    assert (sessions + [s])[..|sessions|] == sessions;
  }

  /** The books balance, and every session is sound. */
  ghost predicate Accounts(st: State) {
    && (forall i :: 0 <= i < |st.sessions| ==> SR.Invariant(st.sessions[i]))
    && st.delivered == Delivered(st.sessions)
    && st.produced == Taken(st.sessions) + DataIn(st.queue)
    && DistinctKeys(st.produced)
  }

  ghost predicate Inv(st: State) { OneAtATime(st) && Accounts(st) }

  lemma {:induction false} ApplyAccounts(st: State, l: Label)
    requires Accounts(st)
    ensures Accounts(Apply(st, l))
  {
    hide SR.Invariant, Taken, Delivered, DataIn;
    if l.Produce? {
      DataInAppend(st.queue, l.m);
      assert st.produced + [] == st.produced;
    }
  }

  lemma AttachKeepsBooks(s: Session)
    requires SR.Invariant(s)
    ensures var t := Next(s, Receiver(R.Attached)); SR.Invariant(t) && t.rcv.got == s.rcv.got && t.taken == s.taken
  {
    SR.InvariantStep(s, Receiver(R.Attached));
    hide SR.Invariant;
  }

  lemma {:induction false} NegotiateAccounts(st: State, l: Label)
    requires Inv(st)
    ensures Accounts(Negotiate(st, l))
  {
    hide SR.Invariant, Taken, Delivered, DataIn, DistinctKeys, Next;
    if l.Dial? {
      SR.FreshInvariant();
      OneMore(st.sessions, FRESH_SESSION);
    } else if l.Resolve? && l.conn in st.unresolved && st.holder.Waiting? {
      var s := st.sessions[l.conn];
      AttachKeepsBooks(s);
      LastChanged(st.sessions, Next(s, Receiver(R.Attached)));
    }
  }

  function TakenBy(e: S.Event): seq<TupleBuffer> { if e.Take? then BufferIn(e.message) else [] }

  lemma SendFrame(s: Session, e: S.Event)
    requires Enabled(s, Sender(e))
    ensures Next(s, Sender(e)).taken == s.taken + TakenBy(e) && Next(s, Sender(e)).rcv == s.rcv
    ensures FreshKeys(TakenBy(e), s.taken) ==> FreshTake(s, Sender(e))
  {
    hide S.Step, Enabled;
    assert s.taken + [] == s.taken;
    assert TakenBy(e) != [] ==> TakenBy(e)[0] == e.message.buffer;
  }

  ghost predicate FreshKeys(more: seq<TupleBuffer>, taken: seq<TupleBuffer>) {
    forall b, c :: b in more && c in taken ==> c.Sequence() != b.Sequence()
  }

  /** What a step of the sender takes is what its queue hands out. */
  lemma {:induction false} SendBooks(s: Session, e: S.Event)
    requires SR.Invariant(s) && Enabled(s, Sender(e)) && FreshKeys(TakenBy(e), s.taken)
    ensures var t := Next(s, Sender(e));
      SR.Invariant(t) && t.rcv.got == s.rcv.got && t.taken == s.taken + TakenBy(e)
  {
    hide SR.Invariant, Next, Enabled, FreshKeys, TakenBy;
    SendFrame(s, e);
    SR.InvariantStep(s, Sender(e));
  }

  /** The totals, with the newest session apart. */
  lemma {:induction false} LastBooks(st: State)
    requires Accounts(st) && st.sessions != []
    ensures var n := |st.sessions| - 1;
      && SR.Invariant(st.sessions[n])
      && st.delivered == Delivered(st.sessions[..n]) + st.sessions[n].rcv.got
      && st.produced == Taken(st.sessions[..n]) + st.sessions[n].taken + DataIn(st.queue)
  {
    hide SR.Invariant, DataIn, DistinctKeys;
  }

  lemma LaterIsFresh(before: seq<TupleBuffer>, taken: seq<TupleBuffer>, more: seq<TupleBuffer>, rest: seq<TupleBuffer>)
    requires DistinctKeys(before + taken + (more + rest))
    ensures FreshKeys(more, taken)
  {
    var all := before + taken + (more + rest);
    forall b, c | b in more && c in taken ensures c.Sequence() != b.Sequence() {
      var i :| 0 <= i < |taken| && taken[i] == c;
      var j :| 0 <= j < |more| && more[j] == b;
      assert all[|before| + i] == c && all[|before| + |taken| + j] == b;
    }
  }

  /** What the queue hands out has a key the session has not taken. */
  lemma HandedOutIsFresh(st: State, e: S.Event)
    requires Accounts(st) && st.sessions != [] && (e.Take? ==> st.queue != [] && st.queue[0] == e.message)
    ensures FreshKeys(TakenBy(e), st.sessions[|st.sessions| - 1].taken)
  {
    var n := |st.sessions| - 1;
    if e.Take? {
      assert DataIn(st.queue) == TakenBy(e) + DataIn(st.queue[1..]);
      hide SR.Invariant, Taken, Delivered, DataIn, DistinctKeys, FreshKeys, TakenBy;
      LastBooks(st);
      LaterIsFresh(Taken(st.sessions[..n]), st.sessions[n].taken, TakenBy(e), DataIn(st.queue[1..]));
    }
  }

  /** Replacing the newest session by `t` keeps the books when the totals follow. */
  lemma {:induction false} ReplaceLast(st: State, t: Session, st': State)
    requires Accounts(st) && st.sessions != [] && SR.Invariant(t)
    requires st'.sessions == st.sessions[|st.sessions| - 1 := t] && st'.produced == st.produced
    requires st'.delivered == Delivered(st.sessions[..|st.sessions| - 1]) + t.rcv.got
    requires st'.produced == Taken(st.sessions[..|st.sessions| - 1]) + t.taken + DataIn(st'.queue)
    ensures Accounts(st')
  {
    hide SR.Invariant, Taken, Delivered, DistinctKeys, DataIn;
    LastChanged(st.sessions, t);
  }

  lemma SendEffect(st: State, e: S.Event)
    requires CanSend(st, e)
    ensures var c, t, st' := st.phase.c, Next(st.sessions[st.phase.c], Sender(e)), SendStep(st, e);
      && st'.sessions == st.sessions[c := t] && st'.produced == st.produced && st'.delivered == st.delivered
      && st'.queue == if e.Take? then st.queue[1..] else st.queue
  {
    hide Next;
  }

  lemma SenderIsNewest(st: State, e: S.Event)
    requires Inv(st) && CanSend(st, e)
    ensures st.phase.Live? && 0 <= st.phase.c == |st.sessions| - 1
    ensures SR.Invariant(st.sessions[st.phase.c]) && Enabled(st.sessions[st.phase.c], Sender(e)) && Accounts(st)
    ensures e.Take? ==> st.queue != [] && st.queue[0] == e.message
  {
    hide SR.Invariant, Enabled, Delivered, Taken, DataIn, DistinctKeys;
  }

  lemma CannotSend(st: State, e: S.Event)
    requires Inv(st) && !CanSend(st, e)
    ensures Accounts(SendStep(st, e))
  {
    hide CanSend, Accounts;
  }

  lemma {:induction false} SendAccounts(st: State, e: S.Event)
    requires Inv(st)
    ensures Accounts(SendStep(st, e))
  {
    hide *;
    if CanSend(st, e) {
      SenderIsNewest(st, e);
      SendEffect(st, e);
      var n := |st.sessions| - 1;
      var s := st.sessions[n];
      LastBooks(st);
      HandedOutIsFresh(st, e);
      SendBooks(s, e);
      BooksAgree(Taken(st.sessions[..n]), s.taken, st.queue, e);
      ReplaceLast(st, Next(s, Sender(e)), SendStep(st, e));
    } else {
      CannotSend(st, e);
    }
  }

  lemma BooksAgree(before: seq<TupleBuffer>, taken: seq<TupleBuffer>, queue: seq<ControlMessage>, e: S.Event)
    requires e.Take? ==> queue != [] && queue[0] == e.message
    ensures before + taken + DataIn(queue) ==
            before + (taken + TakenBy(e)) + DataIn(if e.Take? then queue[1..] else queue)
  {
  }

  lemma ReceiveBooks(s: Session, e: R.Event)
    requires SR.Invariant(s) && Enabled(s, Receiver(e))
    ensures var t := Next(s, Receiver(e));
      && SR.Invariant(t) && t.taken == s.taken
      && t.rcv.got == s.rcv.got + if e.Enqueues? then [s.rcv.at.buffer] else []
  {
    SR.InvariantStep(s, Receiver(e));
    hide SR.Invariant;
  }

  lemma ReceiveEffect(st: State, e: R.Event)
    requires CanReceive(st, e)
    ensures var c, t, st' := st.holder.c, Next(st.sessions[st.holder.c], Receiver(e)), ReceiveStep(st, e);
      && st'.sessions == st.sessions[c := t] && st'.produced == st.produced && st'.queue == st.queue
      && st'.delivered == st.delivered + if e.Enqueues? then [st.sessions[c].rcv.at.buffer] else []
  {
    hide Next;
  }

  lemma Reassociate(a: seq<TupleBuffer>, b: seq<TupleBuffer>, c: seq<TupleBuffer>)
    ensures a + (b + c) == (a + b) + c
  {
  }

  lemma ReceiverIsNewest(st: State, e: R.Event)
    requires Inv(st) && CanReceive(st, e)
    ensures st.holder.Open? && 0 <= st.holder.c == |st.sessions| - 1
    ensures Enabled(st.sessions[st.holder.c], Receiver(e)) && Accounts(st)
    ensures e.Enqueues? ==> st.sessions[st.holder.c].rcv.at.Holding?
  {
    hide Accounts;
  }

  lemma CannotReceive(st: State, e: R.Event)
    requires Inv(st) && !CanReceive(st, e)
    ensures Accounts(ReceiveStep(st, e))
  {
    hide CanReceive, Accounts;
  }

  lemma {:induction false} ReceiveAccounts(st: State, e: R.Event)
    requires Inv(st)
    ensures Accounts(ReceiveStep(st, e))
  {
    hide *;
    if CanReceive(st, e) {
      ReceiverIsNewest(st, e);
      var n := |st.sessions| - 1;
      var s := st.sessions[n];
      ReceiveEffect(st, e);
      LastBooks(st);
      ReceiveBooks(s, e);
      Reassociate(Delivered(st.sessions[..n]), s.rcv.got, if e.Enqueues? then [s.rcv.at.buffer] else []);
      ReplaceLast(st, Next(s, Receiver(e)), ReceiveStep(st, e));
    } else {
      CannotReceive(st, e);
    }
  }

  lemma {:induction false} StepAccounts(st: State, l: Label)
    requires Inv(st)
    ensures Accounts(Step(st, l))
  {
    hide OneAtATime, Accounts, SendStep, ReceiveStep, Apply, Negotiate;
    match l
    case Send(e) => SendAccounts(st, e);
    case Receive(e) => ReceiveAccounts(st, e);
    case Produce(_) => ApplyAccounts(st, l);
    case Consume => ApplyAccounts(st, l);
    case CloseQueue => ApplyAccounts(st, l);
    case _ => NegotiateAccounts(st, l);
  }

  lemma {:induction false} StepInv(st: State, l: Label)
    requires Inv(st)
    ensures Inv(Step(st, l))
  {
    hide OneAtATime, Accounts, Step;
    StaysOneAtATime(st, l);
    StepAccounts(st, l);
  }

  lemma InitInv()
    ensures Inv(INIT)
  {
  }

  lemma {:induction false} RunInv(run: seq<Label>)
    ensures Inv(After(INIT, run))
  {
    hide Inv, Step;
    InitInv();
    if run != [] {
      RunInv(run[..|run| - 1]);
      StepInv(After(INIT, run[..|run| - 1]), run[|run| - 1]);
    }
  }

  // ----- What every run guarantees

  lemma {:induction false} SessionsInOrder(sessions: seq<Session>)
    requires forall i :: 0 <= i < |sessions| ==> SR.Invariant(sessions[i])
    ensures Subsequence(Delivered(sessions), Taken(sessions))
  {
    hide Subsequence;
    if sessions == [] {
      SubsequenceEmpty([]);
    } else {
      var n := |sessions| - 1;
      SessionsInOrder(sessions[..n]);
      SR.SoundDelivery(sessions[n]);
      SubsequenceConcat(Delivered(sessions[..n]), Taken(sessions[..n]), sessions[n].rcv.got, sessions[n].taken);
    }
  }

  lemma SubsequenceEmpty(b: seq<TupleBuffer>)
    ensures Subsequence([], b)
  {
  }

  /** Over any number of lost and reopened connections, the receiver's queue gets an ordered selection
      of what the producer sent: nothing reordered, nothing twice, nothing invented. */
  lemma DeliveredIsSelection(run: seq<Label>)
    ensures var st := After(INIT, run);
      Subsequence(st.delivered, st.produced) && DistinctKeys(st.delivered)
  {
    RunInv(run);
    var st := After(INIT, run);
    SessionsInOrder(st.sessions);
    SubsequenceEmpty(DataIn(st.queue));
    SubsequenceConcat(Delivered(st.sessions), Taken(st.sessions), [], DataIn(st.queue));
    assert Delivered(st.sessions) + [] == st.delivered;
    SelectionIsDistinct(st.delivered, st.produced);
  }

  lemma SelectionIsDistinct(a: seq<TupleBuffer>, b: seq<TupleBuffer>)
    requires Subsequence(a, b) && DistinctKeys(b)
    ensures DistinctKeys(a)
  {
    var at := SubsequencePositions(a, b);
    hide Subsequence;
    forall i, j | 0 <= i < j < |a| ensures a[i].Sequence() != a[j].Sequence() {
      assert at[i] < at[j];
      assert b[at[i]] == a[i] && b[at[j]] == a[j];
    }
  }

  /** The two ends are never on different connections. */
  lemma SessionsNeverOverlap(run: seq<Label>)
    ensures var st := After(INIT, run);
      st.phase.Live? && st.holder.Open? ==> st.phase.c == st.holder.c == |st.sessions| - 1
  {
    RunInv(run);
  }

  lemma EarlierStay(st: State, l: Label)
    requires OneAtATime(st)
    ensures |st.sessions| <= |Step(st, l).sessions|
    ensures forall i :: 0 <= i < |st.sessions| - 1 ==> Step(st, l).sessions[i] == st.sessions[i]
  {
    hide Next, Enabled;
  }

  /** Once a later connection exists, an earlier session is over: its receiving handler has not begun or
      has ended, so it no longer has the queue, and nothing in it ever changes again. */
  lemma EarlierSessionsAreOver(run: seq<Label>, more: seq<Label>)
    ensures var st, later := After(INIT, run), After(INIT, run + more);
      && |st.sessions| <= |later.sessions|
      && forall i :: 0 <= i < |st.sessions| - 1 ==>
           later.sessions[i] == st.sessions[i] && (st.sessions[i].rcv.at.Detached? || st.sessions[i].rcv.at.Ended?)
  {
    AlwaysReturned(run);
    EarlierNeverChange(run, more);
    hide After;
  }

  lemma {:induction false} EarlierNeverChange(run: seq<Label>, more: seq<Label>)
    ensures var st, later := After(INIT, run), After(INIT, run + more);
      && |st.sessions| <= |later.sessions|
      && forall i :: 0 <= i < |st.sessions| - 1 ==> later.sessions[i] == st.sessions[i]
  {
    hide Step;
    if more == [] {
      assert run + more == run;
    } else {
      var front := run + more[..|more| - 1];
      assert (run + more)[..|run + more| - 1] == front;
      EarlierNeverChange(run, more[..|more| - 1]);
      RunInv(front);
      EarlierStay(After(INIT, front), more[|more| - 1]);
    }
  }

  /** A completed flush is honoured for ever: what the session had taken by then stands in the
      delivered stream as one unbroken stretch, from position `p`. */
  lemma {:induction false} ReceiptsAreDelivered(run: seq<Label>, i: nat, r: seq<TupleBuffer>) returns (p: nat)
    requires i < |After(INIT, run).sessions| && r in After(INIT, run).sessions[i].receipts
    ensures p + |r| <= |After(INIT, run).delivered| && After(INIT, run).delivered[p..p + |r|] == r
  {
    RunInv(run);
    hide After, Delivered, Taken, SR.Invariant, OneAtATime, DistinctKeys;
    var st := After(INIT, run);
    SR.ReceiptPrefix(st.sessions[i], r);
    DeliveredContains(st.sessions, i);
    var before := Delivered(st.sessions[..i]);
    p := |before|;
    assert before + r <= st.delivered;
  }

  lemma {:induction false} DeliveredContains(sessions: seq<Session>, i: nat)
    requires i < |sessions|
    ensures Delivered(sessions[..i]) + sessions[i].rcv.got <= Delivered(sessions)
    decreases |sessions|
  {
    var n := |sessions| - 1;
    if i < n {
      assert sessions[..n][..i] == sessions[..i];
      DeliveredContains(sessions[..n], i);
    }
  }
}
