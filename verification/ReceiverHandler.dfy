/** The receiving side of a data channel: `channel_handler`, which enqueues one buffer at a time
    and acknowledges it only then. */
module ReceiverHandler {
  import opened Protocol

  datatype Ending = Finished | PeerClosed | Stopped | NetworkError

  /** Where the handler is suspended: reading, waiting for room in its queue, writing an
      acknowledgement; before its connection arrives, and after it returned. */
  datatype Place = Detached | Reading | Holding(buffer: TupleBuffer) | Acking(key: Sequence) | Ended(how: Ending)

  datatype Receiver = Receiver(at: Place, got: seq<TupleBuffer>, replies: seq<DataChannelResponse>)

  const FRESH_RECEIVER := Receiver(Detached, [], [])

  datatype Event =
    | Attached
    | Arrives(request: DataChannelRequest)
    | ReadFails
    | Cancels
    | Enqueues
    | QueueGone(replied: bool)
    | AckWritten(ok: bool)

  predicate Offered(at: Place, e: Event) {
    match at
    case Detached => e.Attached?
    case Reading => e.Arrives? || e.ReadFails? || e.Cancels?
    case Holding(_) => e.Enqueues? || e.QueueGone? || e.Cancels?
    case Acking(_) => e.AckWritten? || e.Cancels?
    case Ended(_) => false
  }

  function Step(r: Receiver, e: Event): Receiver {
    if !Offered(r.at, e) then r
    else
      match e
      case Attached => r.(at := Reading)
      case Arrives(Data(b)) => r.(at := Holding(b))
      case Arrives(Close) => r.(at := Ended(PeerClosed))
      case ReadFails => r.(at := Ended(NetworkError))
      case Cancels => r.(at := Ended(Stopped))
      case Enqueues => r.(at := Acking(r.at.buffer.Sequence()), got := r.got + [r.at.buffer])
      case QueueGone(replied) =>
        if replied then r.(at := Ended(Finished), replies := r.replies + [CloseResponse])
        else r.(at := Ended(NetworkError))
      case AckWritten(ok) =>
        if ok then r.(at := Reading, replies := r.replies + [AckData(r.at.key)])
        else r.(at := Ended(NetworkError))
  }

  function After(r: Receiver, script: seq<Event>): Receiver {
    if script == [] then r
    else Step(After(r, script[..|script| - 1]), script[|script| - 1])
  }

  /** A receiver never refuses a buffer, and takes nothing back. */
  lemma RepliesOnlyGrow(r: Receiver, e: Event)
    ensures r.replies <= Step(r, e).replies && r.got <= Step(r, e).got
    ensures forall i :: |r.replies| <= i < |Step(r, e).replies| ==> !Step(r, e).replies[i].NAckData?
  {
  }

  /** One buffer at a time: with one in hand or still to be acknowledged nothing is read and no failure of
      the reader is noticed; and before its connection arrives the handler does nothing at all. */
  lemma OneBufferAtATime(r: Receiver, e: Event)
    ensures r.at.Holding? || r.at.Acking? ==> (e.Arrives? || e.ReadFails? || e.Attached? ==> Step(r, e) == r)
    ensures r.at.Detached? ==> Step(r, e) == if e.Attached? then r.(at := Reading) else r
    ensures r.at.Reading? && e.Arrives? ==> Step(r, e).got == r.got && Step(r, e).replies == r.replies
  {
  }

  lemma AfterNothing(r: Receiver)
    ensures After(r, []) == r
  {
  }

  lemma AfterNext(r: Receiver, script: seq<Event>, i: nat)
    requires i < |script|
    ensures After(r, script[..i + 1]) == Step(After(r, script[..i]), script[i])
  {
    assert script[..i + 1][..i] == script[..i];
  }

  lemma EndedStays(r: Receiver, e: Event)
    requires r.at.Ended?
    ensures Step(r, e) == r
  {
  }

  lemma {:induction false} AfterEnded(r: Receiver, script: seq<Event>, i: nat)
    requires i <= |script|
    requires After(r, script[..i]).at.Ended?
    ensures After(r, script) == After(r, script[..i])
    decreases |script|
  {
    hide Step;
    if i < |script| {
      var init := script[..|script| - 1];
      assert init[..i] == script[..i];
      AfterEnded(r, init, i);
      EndedStays(After(r, init), script[|script| - 1]);
    } else {
      assert script[..i] == script;
    }
  }

  class ChannelHandler {
    var queue: seq<TupleBuffer>
    var replies: seq<DataChannelResponse>

    constructor ()
      ensures State(Detached) == FRESH_RECEIVER
    {
      queue, replies := [], [];
    }

    ghost function State(at: Place): Receiver
      reads this
    {
      Receiver(at, queue, replies)
    }

    /** Waits for the first offered event. */
    method Await(script: seq<Event>, start: nat, at: Place, ghost origin: Receiver) returns (i: nat)
      requires start <= |script|
      requires State(at) == After(origin, script[..start])
      ensures start <= i <= |script|
      ensures State(at) == After(origin, script[..i])
      ensures i < |script| ==> Offered(at, script[i])
      ensures i < |script| ==> After(origin, script[..i + 1]) == Step(State(at), script[i])
    {
      hide After;
      i := start;
      while i < |script| && !Offered(at, script[i])
        invariant start <= i <= |script|
        invariant State(at) == After(origin, script[..i])
      {
        AfterNext(origin, script, i);
        i := i + 1;
      }
      if i < |script| {
        AfterNext(origin, script, i);
      }
    }

    /** Enqueue the buffer, then acknowledge it. Ends at `Reading` when both happened. */
    method DeliverPending(script: seq<Event>, start: nat, b: TupleBuffer, ghost origin: Receiver)
      returns (i: nat, at: Place)
      requires start <= |script|
      requires State(Holding(b)) == After(origin, script[..start])
      modifies this
      ensures start <= i <= |script|
      ensures State(at) == After(origin, script[..i])
      ensures at.Reading? || at.Ended? || i == |script|
    {
      hide After;
      at := Holding(b);
      i := Await(script, start, at, origin);
      if i == |script| {
        return;
      }
      i := i + 1;
      match script[i - 1]
      case Cancels => at := Ended(Stopped);
      case QueueGone(replied) =>
        if replied {
          replies := replies + [CloseResponse];
        }
        at := Ended(if replied then Finished else NetworkError);
      case Enqueues =>
        queue := queue + [b];
        at := Acking(b.Sequence());
        i := Await(script, i, at, origin);
        if i < |script| {
          i := i + 1;
          match script[i - 1] {
            case Cancels => at := Ended(Stopped);
            case AckWritten(ok) =>
              if ok {
                replies := replies + [AckData(b.Sequence())];
              }
              at := if ok then Reading else Ended(NetworkError);
          }
        }
    }

    method Run(script: seq<Event>) returns (at: Place)
      modifies this
      ensures State(at) == After(old(State(Reading)), script)
    {
      ghost var origin := State(Reading);
      assert script[..0] == [];
      AfterNothing(origin);
      hide After;
      var i := 0;
      var pendingBuffer: Option<TupleBuffer> := None;
      at := Reading;
      while !at.Ended? && i < |script|
        invariant 0 <= i <= |script|
        invariant State(at) == After(origin, script[..i])
        invariant i < |script| && !at.Ended? ==>
          at == if pendingBuffer.Some? then Holding(pendingBuffer.value) else Reading
        decreases |script| - i, !at.Ended?
      {
        if pendingBuffer.Some? {
          var b := pendingBuffer.value;
          pendingBuffer := None;
          i, at := DeliverPending(script, i, b, origin);
        }
        if at.Reading? {
          i := Await(script, i, Reading, origin);
          if i < |script| {
            i := i + 1;
            match script[i - 1] {
              case Cancels => at := Ended(Stopped);
              case ReadFails => at := Ended(NetworkError);
              case Arrives(Close) => at := Ended(PeerClosed);
              case Arrives(Data(b)) => pendingBuffer := Some(b); at := Holding(b);
            }
          }
        }
      }
      if at.Ended? {
        AfterEnded(origin, script, i);
      } else {
        assert script[..i] == script;
      }
    }
  }
}
