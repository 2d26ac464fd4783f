/** The two bounded queues of a channel, and a queue that is closed, in every run. */
module ChannelQueues {
  import opened Protocol
  import opened Channel
  import P = Session
  import S = SenderHandler
  import R = ReceiverHandler

  /** Both queues stay within their capacity, the application gets only what was delivered, and a receiver
      reports its queue gone only when it is. */
  ghost predicate QueuesFit(st: State) {
    && |st.queue| <= 100
    && st.consumed <= |st.delivered| <= st.consumed + 10
    && (forall i :: 0 <= i < |st.sessions| && st.sessions[i].rcv.at == R.Ended(R.Finished) ==> st.closed)
  }

  lemma SendStaysFit(st: State, e: S.Event)
    requires QueuesFit(st)
    ensures QueuesFit(SendStep(st, e))
  {
    hide P.Next, P.Enabled;
    if CanSend(st, e) {
      SendKeepsDetached(st.sessions[st.phase.c], e);
    }
  }

  lemma ReceiverFinishes(s: P.Session, e: R.Event)
    ensures P.Next(s, P.Receiver(e)).rcv.at == R.Ended(R.Finished) ==>
              s.rcv.at == R.Ended(R.Finished) || (e.QueueGone? && P.Enabled(s, P.Receiver(e)))
  {
  }

  lemma ReceiveStaysFit(st: State, e: R.Event)
    requires QueuesFit(st)
    ensures QueuesFit(ReceiveStep(st, e))
  {
    hide P.Next, P.Enabled;
    if CanReceive(st, e) {
      ReceiverFinishes(st.sessions[st.holder.c], e);
    }
  }

  lemma NegotiateStaysFit(st: State, l: Label)
    requires QueuesFit(st)
    ensures QueuesFit(Negotiate(st, l))
  {
    hide P.Next;
    if l.Resolve? && l.conn in st.unresolved && l.conn < |st.sessions| {
      ReceiverFinishes(st.sessions[l.conn], R.Attached);
    }
  }

  lemma StepFits(st: State, l: Label)
    requires QueuesFit(st)
    ensures QueuesFit(Step(st, l))
  {
    hide SendStep, ReceiveStep, Negotiate;
    match l
    case Send(e) => SendStaysFit(st, e);
    case Receive(e) => ReceiveStaysFit(st, e);
    case Produce(_) =>
    case Consume =>
    case CloseQueue =>
    case _ => NegotiateStaysFit(st, l);
  }

  lemma {:induction false} QueuesAreBounded(run: seq<Label>)
    ensures QueuesFit(After(INIT, run))
  {
    if run != [] {
      hide QueuesFit, Step;
      QueuesAreBounded(run[..|run| - 1]);
      StepFits(After(INIT, run[..|run| - 1]), run[|run| - 1]);
    }
  }

  /** A message is accepted exactly while the sender is not over and the control queue has room; the
      assumption on keys apart, whatever it is and whatever was sent before. */
  lemma ProducedIff(st: State, m: ControlMessage)
    requires m.DataMessage? ==> FreshKey(m.buffer, st.produced)
    ensures var t := Step(st, Produce(m));
      if !st.phase.Over? && |st.queue| < 100 then
        t == st.(queue := st.queue + [m],
                 produced := if m.DataMessage? then st.produced + [m.buffer] else st.produced)
      else t == st
  {
  }

  /** A buffer in the receiver's hand is enqueued exactly while the queue is open and the application is
      less than ten buffers behind. */
  lemma EnqueuedIff(st: State)
    requires st.holder.Open? && st.holder.c < |st.sessions| && st.sessions[st.holder.c].rcv.at.Holding?
    ensures var s, t := st.sessions[st.holder.c], Step(st, Receive(R.Enqueues));
      if !st.closed && |st.delivered| < st.consumed + 10 then
        && t.delivered == st.delivered + [s.rcv.at.buffer] && |t.sessions| == |st.sessions|
        && t.sessions[st.holder.c].rcv.at == R.Acking(s.rcv.at.buffer.Sequence())
        && t.sessions[st.holder.c].rcv.got == s.rcv.got + [s.rcv.at.buffer]
      else t == st
  {
  }

  lemma ClosedStep(st: State, l: Label)
    requires st.closed
    ensures Step(st, l).closed && Step(st, l).delivered == st.delivered
  {
    hide P.Next, P.Enabled;
  }

  lemma {:induction false} ClosedStays(st: State, run: seq<Label>)
    requires st.closed
    ensures After(st, run).closed && After(st, run).delivered == st.delivered
  {
    hide Step;
    if run != [] {
      ClosedStays(st, run[..|run| - 1]);
      ClosedStep(After(st, run[..|run| - 1]), run[|run| - 1]);
    }
  }

  /** Once the application has closed its queue, nothing is delivered any more, whatever else happens. */
  lemma ClosedQueueGetsNothing(st: State, more: seq<Label>)
    ensures After(Step(st, CloseQueue), more).delivered == st.delivered
  {
    ClosedStays(Step(st, CloseQueue), more);
  }
}
