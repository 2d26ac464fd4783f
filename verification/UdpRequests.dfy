/** How the UDP sender answers requests for retransmission, and what it writes. */
module UdpRequests {
  import opened Protocol
  import opened UdpChannel

  /** What was last stored under `q`. */
  function LastStored(stored: seq<(nat, string)>, q: nat): Option<string> {
    if stored == [] then None
    else
      var n := |stored| - 1;
      if stored[n].0 == q then Some(stored[n].1) else LastStored(stored[..n], q)
  }

  lemma OneMoreStored(stored: seq<(nat, string)>, c: (nat, string), q: nat)
    ensures LastStored(stored + [c], q) == if c.0 == q then Some(c.1) else LastStored(stored, q)
  {
    assert (stored + [c])[..|stored|] == stored;
  }

  // ----- Memory and emissions

  /** The sender remembers what was stored last under every number ever used, and has sent what it wrote. */
  ghost predicate Remembers(w: World) {
    && (forall q :: LastStored(w.stored, q) ==
          if q in w.snd.sentMessages then Some(w.snd.sentMessages[q]) else None)
    && (forall m :: m in w.emitted <==> m in w.toReceiver)
  }

  lemma StoreStaysRemembered(w: World, id: nat)
    requires Remembers(w)
    ensures Remembers(SendStep(w, StoreMessage(id)))
  {
    hide LastStored;
    if AtStage(w, id, Permitted) {
      var t := SendStep(w, StoreMessage(id));
      forall q ensures LastStored(t.stored, q) ==
                       if q in t.snd.sentMessages then Some(t.snd.sentMessages[q]) else None
      {
        OneMoreStored(w.stored, (w.sends[id].number, w.sends[id].data), q);
      }
    }
  }

  lemma SendStaysRemembered(w: World, l: Label)
    requires Remembers(w) && !l.StoreMessage?
    ensures Remembers(SendStep(w, l))
  {
    hide LastStored;
  }

  lemma TaskStaysRemembered(w: World, l: Label)
    requires Remembers(w)
    ensures Remembers(TaskStep(w, l))
  {
    hide LastStored, WalkOrder, Retransmissions;
    assert w.resend != [] ==> w.resend == [w.resend[0]] + w.resend[1..];
  }

  lemma ReceiveStaysRemembered(w: World, l: Label)
    requires Remembers(w)
    ensures Remembers(ReceiveStep(w, l))
  {
    hide LastStored;
  }

  lemma {:induction false} AlwaysRemembers(run: seq<Label>, window: nat, room: nat)
    ensures Remembers(After(Init(window, room), run))
  {
    if run != [] {
      hide Remembers, SendStep, TaskStep, ReceiveStep;
      var w, l := After(Init(window, room), run[..|run| - 1]), run[|run| - 1];
      AlwaysRemembers(run[..|run| - 1], window, room);
      if l.StoreMessage? {
        StoreStaysRemembered(w, l.id);
      } else if OfSender(l) {
        SendStaysRemembered(w, l);
      } else if OfTask(l) {
        TaskStaysRemembered(w, l);
      } else {
        ReceiveStaysRemembered(w, l);
      }
    }
  }

  /** In every reachable state: a number is remembered exactly if some call ever stored under it, with the
      payload stored last; and the datagrams on the network are those written. */
  lemma MemoryIsComplete(run: seq<Label>, window: nat, room: nat, q: nat)
    ensures var w := After(Init(window, room), run);
      && (q in w.snd.sentMessages <==> exists c :: c in w.stored && c.0 == q)
      && (q in w.snd.sentMessages ==> LastStored(w.stored, q) == Some(w.snd.sentMessages[q]))
      && (forall m :: m in w.toReceiver <==> m in w.emitted)
  {
    AlwaysRemembers(run, window, room);
    hide After;
    StoredIff(After(Init(window, room), run).stored, q);
  }

  lemma {:induction false} StoredIff(stored: seq<(nat, string)>, q: nat)
    ensures LastStored(stored, q).Some? <==> exists c :: c in stored && c.0 == q
  {
    if stored != [] {
      var n := |stored| - 1;
      StoredIff(stored[..n], q);
      assert stored == stored[..n] + [stored[n]];
    }
  }

  // ----- Answers

  /** What a request for `q` makes the sender write. */
  function Answer(stored: seq<(nat, string)>, q: nat): seq<Message> {
    match LastStored(stored, q)
    case Some(d) => [Datagram(q, d)]
    case None => []
  }

  /** In every reachable state: the request at the front is served by writing exactly one datagram, with
      what was last stored under its number, or none if nothing ever was; a write that fails, none. */
  lemma RequestIsAnswered(run: seq<Label>, window: nat, room: nat, q: nat)
    requires var w := After(Init(window, room), run); w.inbox != [] && w.inbox[0] == Message(RQST, q, None)
    ensures var w := After(Init(window, room), run);
      && Step(w, Work(true)).emitted == w.emitted + Answer(w.stored, q)
      && Step(w, Work(false)).emitted == w.emitted
      && Step(w, Work(true)).inbox == Step(w, Work(false)).inbox == w.inbox[1..]
  {
    AlwaysRemembers(run, window, room);
    hide After, LastStored;
    var w := After(Init(window, room), run);
    assert w.emitted + [] == w.emitted;
  }

  // ----- The worker's queue

  /** How many messages the worker took. */
  function Works(run: seq<Label>): nat {
    if run == [] then 0 else Works(run[..|run| - 1]) + if run[|run| - 1].Work? then 1 else 0
  }

  lemma InboxStep(w: World, l: Label)
    ensures if l.Work? && w.inbox != [] then Step(w, l).inbox == w.inbox[1..] else w.inbox <= Step(w, l).inbox
  {
  }

  lemma FrontDropped(queue: seq<Message>, now: seq<Message>, k: nat)
    requires k < |queue| && queue[k..] <= now
    ensures now != [] && queue[k + 1..] <= now[1..]
  {
    var rest := now[|queue| - k..];
    assert now == queue[k..] + rest;
    assert now[1..] == queue[k + 1..] + rest;
  }

  lemma PrefixOfPrefix(a: seq<Message>, b: seq<Message>, c: seq<Message>)
    requires a <= b && b <= c
    ensures a <= c
  {
  }

  /** The worker serves its queue in order, whatever else happens in between. */
  lemma {:induction false} InboxIsQueue(w: World, run: seq<Label>)
    requires Works(run) <= |w.inbox|
    ensures w.inbox[Works(run)..] <= After(w, run).inbox
  {
    if run != [] {
      hide Step;
      var front, l := run[..|run| - 1], run[|run| - 1];
      var u, k := After(w, front), Works(front);
      assert Works(run) == k + if l.Work? then 1 else 0;
      assert After(w, run) == Step(u, l);
      InboxIsQueue(w, front);
      InboxStep(u, l);
      hide After, Works;
      if l.Work? {
        FrontDropped(w.inbox, u.inbox, k);
      } else {
        PrefixOfPrefix(w.inbox[k..], u.inbox, Step(u, l).inbox);
      }
    }
  }

  /** A request the socket reader takes is at the front once the worker has served what was before it. */
  lemma RequestReachesFront(w: World, q: nat, more: seq<Label>)
    requires Message(RQST, q, None) in w.toSender && |w.inbox| < 100 && Works(more) == |w.inbox|
    ensures var v := After(Step(w, Hear(Message(RQST, q, None))), more);
      v.inbox != [] && v.inbox[0] == Message(RQST, q, None)
  {
    var u := Step(w, Hear(Message(RQST, q, None)));
    assert u.inbox == w.inbox + [Message(RQST, q, None)];
    hide Step, After;
    InboxIsQueue(u, more);
    assert u.inbox[|w.inbox|..] == [Message(RQST, q, None)];
  }

  /** So every request the socket reader takes is answered, after as many steps of the worker as there were
      messages before it, however the other tasks are interleaved. */
  lemma RequestIsServed(run: seq<Label>, window: nat, room: nat, q: nat, more: seq<Label>)
    requires var w := After(Init(window, room), run);
      Message(RQST, q, None) in w.toSender && |w.inbox| < 100 && Works(more) == |w.inbox|
    ensures var v := After(Init(window, room), run + [Hear(Message(RQST, q, None))] + more);
      Step(v, Work(true)).emitted == v.emitted + Answer(v.stored, q)
  {
    var hear := Hear(Message(RQST, q, None));
    AfterMore(Init(window, room), run, hear);
    AfterConcat(Init(window, room), run + [hear], more);
    RequestReachesFront(After(Init(window, room), run), q, more);
    hide After, Step;
    RequestIsAnswered(run + [hear] + more, window, room, q);
  }

  /** And so does asking: a receiver that asks for `q` is answered, if the network brings its request and
      the queue has room for it. */
  lemma AskingIsServed(run: seq<Label>, window: nat, room: nat, q: nat, more: seq<Label>)
    requires var w := After(Init(window, room), run); |w.inbox| < 100 && Works(more) == |w.inbox|
    ensures var v := After(Init(window, room), run + [AskAgain(q)] + [Hear(Message(RQST, q, None))] + more);
      Step(v, Work(true)).emitted == v.emitted + Answer(v.stored, q)
  {
    AfterMore(Init(window, room), run, AskAgain(q));
    var u := After(Init(window, room), run + [AskAgain(q)]);
    assert Message(RQST, q, None) in u.toSender && u.inbox == After(Init(window, room), run).inbox;
    hide After, Step;
    RequestIsServed(run + [AskAgain(q)], window, room, q, more);
  }

  /** The worker's queue stays within its capacity. */
  lemma {:induction false} InboxIsBounded(run: seq<Label>, window: nat, room: nat)
    ensures |After(Init(window, room), run).inbox| <= 100
  {
    if run != [] {
      InboxIsBounded(run[..|run| - 1], window, room);
      hide After;
      InboxGrowth(After(Init(window, room), run[..|run| - 1]), run[|run| - 1]);
    }
  }

  lemma InboxGrowth(w: World, l: Label)
    requires |w.inbox| <= 100
    ensures |Step(w, l).inbox| <= 100
  {
  }

  /** An acknowledgement is served whatever the socket does: the first one for a number in flight takes it
      out and frees a slot, any other changes nothing. */
  lemma AcknowledgementIsServed(w: World, q: nat, ok: bool)
    requires w.inbox != [] && w.inbox[0] == Message(ACK, q, None)
    ensures var t := Step(w, Work(ok));
      && t.inbox == w.inbox[1..] && t.emitted == w.emitted && q !in t.snd.inFlight
      && (forall p :: p in w.snd.inFlight && p != q ==> p in t.snd.inFlight && t.snd.inFlight[p] == w.snd.inFlight[p])
      && t.snd.available == w.snd.available + if q in w.snd.inFlight then 1 else 0
  {
  }

  /** What the timeout task collected is sent in order, each message once; a write that fails sends nothing,
      and the task goes on with the next. */
  lemma CollectedIsSent(w: World, ok: bool)
    requires w.resend != []
    ensures var t := Step(w, Resend(ok));
      && [w.resend[0]] + t.resend == w.resend
      && t.emitted == w.emitted + (if ok then [w.resend[0]] else [])
      && t.snd == w.snd && t.inbox == w.inbox
  {
    assert w.emitted + [] == w.emitted;
  }
}
