/** What each way a handler can end does to its channel, from every state a run can reach. */
module ChannelEnds {
  import opened Protocol
  import opened Channel
  import opened ChannelRecovery
  import P = Session
  import SR = SessionRuns
  import S = SenderHandler
  import R = ReceiverHandler

  // ----- The receiver gave its queue up

  lemma GoneStep(st: State, l: Label)
    requires st.holder.Gone?
    ensures var t := Step(st, l); t.holder.Gone? && t.delivered == st.delivered && !Joined(t)
  {
    hide P.Next, P.Enabled;
  }

  lemma {:induction false} GoneForEver(st: State, run: seq<Label>)
    requires st.holder.Gone?
    ensures var t := After(st, run); t.holder.Gone? && t.delivered == st.delivered && !Joined(t)
  {
    hide Step;
    if run != [] {
      GoneForEver(st, run[..|run| - 1]);
      GoneStep(After(st, run[..|run| - 1]), run[|run| - 1]);
    }
  }

  /** The open receiver's handler, in every reachable state. */
  lemma OpenIsAtWork(run: seq<Label>)
    requires After(INIT, run).holder.Open?
    ensures var st := After(INIT, run);
      st.holder.c < |st.sessions| && AtWork(st.sessions[st.holder.c].rcv.at)
  {
    InitBase();
    RunKeepsBase(INIT, run);
    hide After, OneAtATime;
  }

  lemma CancelDrops(st: State)
    requires st.holder.Open? && st.holder.c < |st.sessions| && AtWork(st.sessions[st.holder.c].rcv.at)
    ensures var t := Step(st, Receive(R.Cancels)); t.holder.Gone? && t.delivered == st.delivered
  {
    var s := st.sessions[st.holder.c];
    assert R.Step(s.rcv, R.Cancels).at == R.Ended(R.Stopped);
  }

  /** A cancelled receiver drops its queue: whatever follows, the two ends never meet again and nothing
      more is delivered. */
  lemma CancelledIsFinal(run: seq<Label>, more: seq<Label>)
    requires After(INIT, run).holder.Open?
    ensures var t := After(INIT, run + [Receive(R.Cancels)] + more);
      !Joined(t) && t.delivered == After(INIT, run).delivered
  {
    OpenIsAtWork(run);
    AfterConcat(INIT, run, [Receive(R.Cancels)]);
    AfterConcat(INIT, run + [Receive(R.Cancels)], more);
    hide After;
    var st := After(INIT, run);
    AfterOne(st, Receive(R.Cancels));
    CancelDrops(st);
    GoneForEver(Step(st, Receive(R.Cancels)), more);
  }

  lemma FinishDrops(st: State)
    requires st.holder.Open? && st.holder.c < |st.sessions| && st.sessions[st.holder.c].rcv.at.Holding? && st.closed
    ensures var s, t := st.sessions[st.holder.c], Step(st, Receive(R.QueueGone(true)));
      && t.holder.Gone? && t.delivered == st.delivered && |t.sessions| == |st.sessions|
      && t.sessions[st.holder.c].rcv.replies == s.rcv.replies + [CloseResponse]
  {
    var s := st.sessions[st.holder.c];
    assert R.Step(s.rcv, R.QueueGone(true)).at == R.Ended(R.Finished);
  }

  /** So does a receiver whose application is gone: it tells the sender so, and drops its queue. */
  lemma FinishedIsFinal(run: seq<Label>, more: seq<Label>)
    requires var st := After(INIT, run);
      && st.holder.Open? && st.closed && st.holder.c < |st.sessions|
      && st.sessions[st.holder.c].rcv.at.Holding?
    ensures var st, u := After(INIT, run), After(INIT, run + [Receive(R.QueueGone(true))]);
      && |u.sessions| == |st.sessions|
      && u.sessions[st.holder.c].rcv.replies == st.sessions[st.holder.c].rcv.replies + [CloseResponse]
      && !Joined(After(u, more)) && After(u, more).delivered == st.delivered
  {
    AfterConcat(INIT, run, [Receive(R.QueueGone(true))]);
    hide After;
    var st := After(INIT, run);
    AfterOne(st, Receive(R.QueueGone(true)));
    FinishDrops(st);
    GoneForEver(Step(st, Receive(R.QueueGone(true))), more);
  }

  /** So does a registration that was cancelled. */
  lemma DeregisteredIsFinal(run: seq<Label>, more: seq<Label>)
    requires After(INIT, run).holder.Registered?
    ensures var t := After(INIT, run + [Deregister] + more);
      !Joined(t) && t.delivered == After(INIT, run).delivered
  {
    AfterConcat(INIT, run, [Deregister]);
    AfterConcat(INIT, run + [Deregister], more);
    var st := After(INIT, run);
    AfterOne(st, Deregister);
    assert Step(st, Deregister).holder.Gone?;
    hide After;
    GoneForEver(Step(st, Deregister), more);
  }

  lemma DropAbandons(st: State, c: nat)
    requires Base(st) && c in st.unresolved
    ensures Abandoned(Step(st, DropConnection(c)), c) && Step(st, DropConnection(c)).delivered == st.delivered
  {
    assert forall d :: d in st.unresolved ==> d == c;
  }

  /** A data connection that fails before the accept loop looked it up is as fatal as one looked up too
      early: its grant is spent. */
  lemma DroppedConnectionIsFinal(run: seq<Label>, c: nat, more: seq<Label>)
    requires c in After(INIT, run).unresolved
    ensures var t := After(INIT, run + [DropConnection(c)] + more);
      Abandoned(t, c) && !Joined(t) && t.delivered == After(INIT, run).delivered
  {
    InitBase();
    RunKeepsBase(INIT, run);
    AfterConcat(INIT, run, [DropConnection(c)]);
    AfterConcat(INIT, run + [DropConnection(c)], more);
    hide After, Base;
    var st := After(INIT, run);
    AfterOne(st, DropConnection(c));
    StepKeepsBase(st, DropConnection(c));
    DropAbandons(st, c);
    AbandonedForEver(Step(st, DropConnection(c)), more, c);
  }

  // ----- The receiver gives its queue back

  /** A failure on the connection, in each place where the handler can meet it. */
  predicate ConnectionFails(at: R.Place, closed: bool, e: R.Event) {
    match at
    case Reading => e == R.ReadFails
    case Acking(_) => e == R.AckWritten(false)
    case Holding(_) => closed && e == R.QueueGone(false)
    case _ => false
  }

  /** After a failure one message puts the queue back in the registry, where the next request finds it. */
  lemma FailureReturnsQueue(st: State, e: R.Event)
    requires st.holder.Open? && st.holder.c < |st.sessions|
    requires ConnectionFails(st.sessions[st.holder.c].rcv.at, st.closed, e)
    ensures var t := Step(Step(st, Receive(e)), GiveBack);
      t.holder.Registered? && t.delivered == st.delivered && t.phase == st.phase && t.closed == st.closed
  {
    var s := st.sessions[st.holder.c];
    assert R.Step(s.rcv, e).at == R.Ended(R.NetworkError);
    assert Step(st, Receive(e)).holder.Returning?;
  }

  /** So does a `Close` that was read, with the queue closed. */
  lemma ReadCloseReturnsQueue(st: State)
    requires st.holder.Open? && st.holder.c < |st.sessions|
    requires var s := st.sessions[st.holder.c]; s.rcv.at.Reading? && P.Requests(s) != [] && P.Requests(s)[0] == Close
    ensures var t := Step(Step(st, Receive(R.Arrives(Close))), GiveBack);
      t.holder.Registered? && t.closed && t.delivered == st.delivered && t.phase == st.phase
  {
    var s := st.sessions[st.holder.c];
    assert R.Step(s.rcv, R.Arrives(Close)).at == R.Ended(R.PeerClosed);
    assert Step(st, Receive(R.Arrives(Close))).holder.Returning?;
  }

  // ----- The sender is over

  lemma OverStep(st: State, l: Label)
    requires st.phase.Over?
    ensures var t := Step(st, l);
      t.phase.Over? && t.queue == st.queue && t.produced == st.produced && !Joined(t)
  {
    hide P.Next, P.Enabled;
  }

  lemma {:induction false} OverForEver(st: State, run: seq<Label>)
    requires st.phase.Over?
    ensures var t := After(st, run);
      t.phase.Over? && t.queue == st.queue && t.produced == st.produced && !Joined(t)
  {
    hide Step;
    if run != [] {
      OverForEver(st, run[..|run| - 1]);
      OverStep(After(st, run[..|run| - 1]), run[|run| - 1]);
    }
  }

  /** The sender's handler waits in one of its `select!`s. */
  predicate Selecting(at: S.Location) { at.Running? || (at.Flushing? && at.synced) }

  /** The ends after which the source does not come back: cancelled, its queue dropped, the stream ended or
      closed by the other side, terminated. */
  predicate EndsForGood(st: State, e: S.Event) {
    && st.phase.Live? && st.phase.c < |st.sessions|
    && var s := st.sessions[st.phase.c];
       && Selecting(s.snd.at)
       && match e
          case Cancel => true
          case ReaderEnded => true
          case QueueClosed => s.snd.at.Running?
          case Respond(r) => r == CloseResponse && P.Replies(s) != [] && P.Replies(s)[0] == r
          case Take(m, _) => s.snd.at.Running? && m == Terminate && st.queue != [] && st.queue[0] == m
          case _ => false
  }

  lemma EndIsOver(st: State, e: S.Event)
    requires EndsForGood(st, e)
    ensures Step(st, Send(e)).phase.Over?
  {
  }

  /** Then, whatever follows, nothing is produced or taken any more and the ends never meet. */
  lemma SenderEndIsFinal(st: State, e: S.Event, more: seq<Label>)
    requires EndsForGood(st, e)
    ensures var t := After(st, [Send(e)] + more);
      t.phase.Over? && !Joined(t) && t.produced == st.produced && t.queue == Step(st, Send(e)).queue
  {
    EndIsOver(st, e);
    AfterFirst(st, Send(e), more);
    hide After, EndsForGood;
    OverForEver(Step(st, Send(e)), more);
    ProducedStays(st, e);
  }

  lemma ProducedStays(st: State, e: S.Event)
    ensures Step(st, Send(e)).produced == st.produced
  {
    hide P.Next, P.Enabled;
  }

  /** A connection that fails, while the sender reads or while a flush writes, makes it ask again, with its
      control queue untouched. */
  lemma SenderFailureAsksAgain(st: State)
    requires st.phase.Live? && st.phase.c < |st.sessions|
    ensures var at := st.sessions[st.phase.c].snd.at;
      && (Selecting(at) ==> var t := Step(st, Send(S.ReaderFailed)); t.phase.Asking? && t.queue == st.queue)
      && (at.Flushing? && !at.synced ==>
            var t := Step(st, Send(S.Sync(false))); t.phase.Asking? && t.queue == st.queue)
  {
  }

  /** So does an answer about a key it does not await. */
  lemma UnknownAnswerAsksAgain(st: State, q: Sequence, r: DataChannelResponse)
    requires st.phase.Live? && st.phase.c < |st.sessions| && (r == AckData(q) || r == NAckData(q))
    requires var s := st.sessions[st.phase.c];
      Selecting(s.snd.at) && q !in s.snd.waiting && P.Replies(s) != [] && P.Replies(s)[0] == r
    ensures var t := Step(st, Send(S.Respond(r))); t.phase.Asking? && t.queue == st.queue
  {
  }
}
