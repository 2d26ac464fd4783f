/** What one session does to its buffers, without the wires and the loops: the specification that
    `Session` is proved to refine. A buffer is taken, launched into a first-in first-out pipe,
    delivered at the far end, and confirmed by an acknowledgement that travels back. */
module Pipeline {
  import opened Protocol
  import opened Sequences

  /** `pipe`: launched and not delivered, oldest first. `echo`: keys delivered and not confirmed,
      oldest first. `lost`: buffers that left the pipe without being delivered. */
  datatype View = View(
    got: seq<TupleBuffer>, pipe: seq<TupleBuffer>, pending: seq<TupleBuffer>,
    echo: seq<Sequence>, waiting: map<Sequence, TupleBuffer>,
    taken: seq<TupleBuffer>, lost: set<TupleBuffer>)

  datatype Op =
    | Stutter
    | Accept(b: TupleBuffer) // take a buffer from the control queue
    | Launch                 // feed the front buffer
    | Strand                 // feed dropped half-way: awaited, but never sent
    | Deliver                // the receiver enqueues the oldest buffer
    | Confirm                // the sender reads the oldest acknowledgement
    | LoseFront              // the receiver ends holding a buffer
    | LoseEcho               // the receiver ends owing the newest acknowledgement

  ghost predicate Possible(v: View, op: Op) {
    match op
    case Stutter => true
    case Accept(b) => forall c :: c in v.taken ==> c.Sequence() != b.Sequence()
    case Launch => v.pending != [] && |v.waiting| < MAX_PENDING_ACKS
    case Strand => v.pending != [] && |v.waiting| < MAX_PENDING_ACKS
    case Deliver => v.pipe != []
    case Confirm => v.echo != []
    case LoseFront => v.pipe != []
    case LoseEcho => v.echo != []
  }

  function Apply(v: View, op: Op): View {
    match op
    case Stutter => v
    case Accept(b) => v.(pending := v.pending + [b], taken := v.taken + [b])
    case Launch =>
      if v.pending == [] then v
      else
        var b := v.pending[0];
        v.(pending := v.pending[1..], pipe := v.pipe + [b], waiting := v.waiting[b.Sequence() := b])
    case Strand =>
      if v.pending == [] then v
      else
        var b := v.pending[0];
        v.(pending := v.pending[1..], waiting := v.waiting[b.Sequence() := b], lost := v.lost + {b})
    case Deliver =>
      if v.pipe == [] then v
      else
        v.(got := v.got + [v.pipe[0]], pipe := v.pipe[1..], echo := v.echo + [v.pipe[0].Sequence()])
    case Confirm =>
      if v.echo == [] then v else v.(echo := v.echo[1..], waiting := v.waiting - {v.echo[0]})
    case LoseFront =>
      if v.pipe == [] then v else v.(pipe := v.pipe[1..], lost := v.lost + {v.pipe[0]})
    case LoseEcho =>
      if v.echo == [] then v else v.(echo := v.echo[..|v.echo| - 1])
  }

  ghost function Line(v: View): seq<TupleBuffer> { v.got + v.pipe + v.pending }

  /** Order and conservation: what was delivered, then what is under way, then what is still to be
      sent, is exactly what was taken, in order, but for the buffers known to be lost. */
  ghost predicate InOrder(v: View) {
    && DistinctKeys(v.taken)
    && Line(v) == Without(v.taken, v.lost)
  }

  ghost predicate Awaited(v: View, b: TupleBuffer) {
    b.Sequence() in v.waiting && v.waiting[b.Sequence()] == b
  }

  /** Everything not yet confirmed is awaited under its own key, each key once. */
  ghost predicate Tracked(v: View) {
    && (forall k :: k in v.waiting ==> v.waiting[k].Sequence() == k && v.waiting[k] in v.taken)
    && (forall b :: b in v.pending ==> b.Sequence() !in v.waiting)
    && (forall b :: b in v.pipe ==> Awaited(v, b) && b.Sequence() !in v.echo)
    && (forall k :: k in v.echo ==> k in v.waiting && v.waiting[k] in v.got)
    && (forall i, j :: 0 <= i < j < |v.echo| ==> v.echo[i] != v.echo[j])
    && (forall b :: b in v.lost ==> Awaited(v, b) && b !in v.pipe && b.Sequence() !in v.echo)
    && |v.waiting| <= MAX_PENDING_ACKS
  }

  ghost predicate Placed(v: View) {
    forall b :: b in v.taken ==> b in v.pending || Awaited(v, b) || b in v.got
  }

  ghost predicate Sound(v: View) {
    InOrder(v) && Tracked(v) && Placed(v)
  }

  lemma LineIsTaken(v: View, b: TupleBuffer)
    requires InOrder(v) && b in Line(v)
    ensures b in v.taken && b !in v.lost
  {
    WithoutMembers(v.taken, v.lost, b);
  }

  /** The buffers of a line occur once, so the parts of a line are disjoint. */
  lemma LineParts(v: View)
    requires InOrder(v)
    ensures DistinctKeys(Line(v)) && DistinctKeys(v.pipe) && DistinctKeys(v.pending)
    ensures forall b, c :: b in v.pipe && c in v.pending ==> b.Sequence() != c.Sequence()
    ensures forall b, c :: b in v.got && c in v.pipe ==> b.Sequence() != c.Sequence()
  {
    WithoutDistinct(v.taken, v.lost);
    var line := Line(v);
    var g, p := |v.got|, |v.pipe|;
    assert forall i :: 0 <= i < g ==> line[i] == v.got[i];
    assert forall i :: 0 <= i < p ==> line[g + i] == v.pipe[i];
    assert forall i :: 0 <= i < |v.pending| ==> line[g + p + i] == v.pending[i];
  }

  lemma AcceptInOrder(v: View, b: TupleBuffer)
    requires Sound(v) && Possible(v, Accept(b))
    ensures InOrder(Apply(v, Accept(b)))
  {
    var w := Apply(v, Accept(b));
    assert b in v.lost ==> Awaited(v, b) && b in v.taken;
    assert w.taken[..|w.taken| - 1] == v.taken;
    assert Line(w) == Line(v) + [b];
  }

  lemma StrandInOrder(v: View)
    requires Sound(v) && Possible(v, Strand)
    ensures InOrder(Apply(v, Strand))
  {
    var b := v.pending[0];
    assert Line(v) == (v.got + v.pipe) + [b] + v.pending[1..];
    WithoutOneMore(v.taken, v.lost, v.got + v.pipe, b, v.pending[1..]);
  }

  lemma LoseFrontInOrder(v: View)
    requires Sound(v) && Possible(v, LoseFront)
    ensures InOrder(Apply(v, LoseFront))
  {
    var b := v.pipe[0];
    assert Line(v) == v.got + [b] + (v.pipe[1..] + v.pending);
    WithoutOneMore(v.taken, v.lost, v.got, b, v.pipe[1..] + v.pending);
    assert Line(Apply(v, LoseFront)) == v.got + (v.pipe[1..] + v.pending);
  }

  lemma StaysInOrder(v: View, op: Op)
    requires Sound(v) && Possible(v, op)
    ensures InOrder(Apply(v, op))
  {
    match op
    case Accept(b) => AcceptInOrder(v, b);
    case Strand => StrandInOrder(v);
    case LoseFront => LoseFrontInOrder(v);
    case Launch => assert Line(Apply(v, Launch)) == Line(v);
    case Deliver => assert Line(Apply(v, Deliver)) == Line(v);
    case _ =>
  }

  lemma AcceptTracked(v: View, b: TupleBuffer)
    requires Sound(v) && Possible(v, Accept(b))
    ensures Tracked(Apply(v, Accept(b)))
  {
    assert b.Sequence() !in v.waiting;
  }

  /** Putting the front buffer under its key overwrites nothing and breaks no other entry. */
  lemma FrontIsNew(v: View)
    requires Sound(v) && v.pending != []
    ensures v.pending[0].Sequence() !in v.waiting && v.pending[0].Sequence() !in v.echo
    ensures v.pending[0] in v.taken && v.pending[0] !in v.lost && v.pending[0] !in v.pipe
    ensures forall b :: b in v.pending[1..] ==> b.Sequence() != v.pending[0].Sequence()
  {
    LineIsTaken(v, v.pending[0]);
    LineParts(v);
  }

  lemma LaunchTracked(v: View)
    requires Sound(v) && Possible(v, Launch)
    ensures Tracked(Apply(v, Launch))
  {
    FrontIsNew(v);
    var w, b := Apply(v, Launch), v.pending[0];
    assert forall c :: c in w.pending ==> c in v.pending;
    assert forall c :: Awaited(v, c) ==> Awaited(w, c);
    forall c | c in w.pipe ensures Awaited(w, c) && c.Sequence() !in w.echo {
      assert c in v.pipe || c == b;
    }
  }

  lemma {:induction false} StrandTracked(v: View)
    requires Sound(v) && Possible(v, Strand)
    ensures Tracked(Apply(v, Strand))
  {
    FrontIsNew(v);
    var w := Apply(v, Strand);
    assert forall c :: c in w.pending ==> c in v.pending;
    assert forall c :: Awaited(v, c) ==> Awaited(w, c);
  }

  lemma DeliverTracked(v: View)
    requires Sound(v) && Possible(v, Deliver)
    ensures Tracked(Apply(v, Deliver))
  {
    LineParts(v);
    var w, b := Apply(v, Deliver), v.pipe[0];
    assert v.pipe == [b] + v.pipe[1..];
    assert forall c :: c in w.pipe ==> c in v.pipe && c.Sequence() != b.Sequence();
    assert forall k :: k in w.echo ==> k in v.echo || k == b.Sequence();
    assert b in w.got;
    assert forall c :: c in v.got ==> c in w.got;
    assert forall c :: Awaited(v, c) <==> Awaited(w, c);
    forall c | c in v.lost ensures c.Sequence() != b.Sequence() {
      assert Awaited(v, c) && Awaited(v, b);
    }
  }

  lemma EchoRest(v: View)
    requires Tracked(v) && v.echo != []
    ensures forall k :: k in v.echo[1..] ==> k != v.echo[0] && k in v.echo
  {
    var rest := v.echo[1..];
    forall k | k in rest ensures k != v.echo[0] && k in v.echo {
      var i :| 0 <= i < |rest| && rest[i] == k;
      assert v.echo[i + 1] == k;
    }
  }

  /** What is under way or lost stays awaited: its key is not the one confirmed. */
  lemma ConfirmKeepsAwaited(v: View, b: TupleBuffer)
    requires Tracked(v) && v.echo != [] && (b in v.pipe || b in v.lost)
    ensures var w := Apply(v, Confirm); Awaited(w, b) && b.Sequence() !in w.echo
  {
    EchoRest(v);
    assert Awaited(v, b) && b.Sequence() !in v.echo;
    assert v.echo[0] in v.echo;
  }

  lemma ConfirmKeepsEcho(v: View)
    requires Tracked(v) && v.echo != []
    ensures var w := Apply(v, Confirm);
      && (forall k :: k in w.echo ==> k in w.waiting && w.waiting[k] in w.got)
      && (forall i, j :: 0 <= i < j < |w.echo| ==> w.echo[i] != w.echo[j])
      && w.waiting.Keys == v.waiting.Keys - {v.echo[0]}
  {
    EchoRest(v);
  }

  lemma ConfirmTracked(v: View)
    requires Sound(v) && Possible(v, Confirm)
    ensures Tracked(Apply(v, Confirm))
  {
    hide InOrder, Placed, Awaited;
    var w := Apply(v, Confirm);
    forall b | b in w.pipe || b in w.lost ensures Awaited(w, b) && b.Sequence() !in w.echo {
      ConfirmKeepsAwaited(v, b);
    }
    ConfirmKeepsEcho(v);
  }

  lemma LossTracked(v: View, op: Op)
    requires Sound(v) && (op.LoseFront? || op.LoseEcho?) && Possible(v, op)
    ensures Tracked(Apply(v, op))
  {
    LineParts(v);
    var w := Apply(v, op);
    assert forall c :: Awaited(v, c) <==> Awaited(w, c);
    assert forall k :: k in w.echo ==> k in v.echo;
    if op.LoseFront? {
      assert v.pipe == [v.pipe[0]] + v.pipe[1..];
      assert forall c :: c in w.pipe ==> c in v.pipe && c != v.pipe[0];
    }
  }

  lemma {:induction false} StaysTracked(v: View, op: Op)
    requires Sound(v) && Possible(v, op)
    ensures Tracked(Apply(v, op))
  {
    match op
    case Stutter =>
    case Accept(b) => AcceptTracked(v, b);
    case Launch => LaunchTracked(v);
    case Strand => StrandTracked(v);
    case Deliver => DeliverTracked(v);
    case Confirm => ConfirmTracked(v);
    case LoseFront => LossTracked(v, op);
    case LoseEcho => LossTracked(v, op);
  }

  lemma PlacedSend(v: View, op: Op)
    requires Placed(v) && v.pending != [] && (op.Launch? || op.Strand?)
    requires v.pending[0].Sequence() !in v.waiting
    ensures Placed(Apply(v, op))
  {
    assert v.pending == [v.pending[0]] + v.pending[1..];
  }

  lemma PlacedConfirm(v: View)
    requires Placed(v) && Tracked(v) && v.echo != []
    ensures Placed(Apply(v, Confirm))
  {
    var w, q := Apply(v, Confirm), v.echo[0];
    assert v.waiting[q] in v.got;
    forall b | b in w.taken
      ensures b in w.pending || Awaited(w, b) || b in w.got
    {
      assert Awaited(v, b) && b.Sequence() != q ==> Awaited(w, b);
    }
  }

  lemma StaysPlaced(v: View, op: Op)
    requires Sound(v) && Possible(v, op)
    ensures Placed(Apply(v, op))
  {
    if op.Launch? || op.Strand? {
      FrontIsNew(v);
      PlacedSend(v, op);
    } else if op.Confirm? {
      PlacedConfirm(v);
    } else {
      hide InOrder, Tracked;
      assert forall b :: Awaited(v, b) ==> Awaited(Apply(v, op), b);
    }
  }

  lemma {:induction false} StaysSound(v: View, op: Op)
    requires Sound(v) && Possible(v, op)
    ensures Sound(Apply(v, op))
  {
    StaysInOrder(v, op);
    StaysTracked(v, op);
    StaysPlaced(v, op);
  }

  /** Every awaited key can still be accounted for: its acknowledgement is on its way, its buffer is
      in the pipe, or its buffer is lost. */
  ghost predicate Covered(v: View) {
    forall k :: k in v.waiting ==> k in v.echo || v.waiting[k] in v.pipe || v.waiting[k] in v.lost
  }

  lemma StaysCovered(v: View, op: Op)
    requires Sound(v) && Covered(v) && Possible(v, op) && !op.LoseEcho?
    ensures Covered(Apply(v, op))
  {
    var w := Apply(v, op);
    forall k | k in w.waiting
      ensures k in w.echo || w.waiting[k] in w.pipe || w.waiting[k] in w.lost
    {
      if op.Deliver? || op.LoseFront? {
        assert v.pipe == [v.pipe[0]] + v.pipe[1..];
      } else if op.Confirm? {
        assert v.echo == [v.echo[0]] + v.echo[1..];
      }
    }
  }

  /** With nothing pending and nothing awaited, everything taken has been delivered, in order. */
  lemma QuietMeansDelivered(v: View)
    requires Sound(v) && v.pending == [] && v.waiting == map[]
    ensures v.got == v.taken && v.pipe == [] && v.echo == [] && v.lost == {}
  {
    assert v.pipe == [] || Awaited(v, v.pipe[0]);
    EchoKeys(v.echo);
    assert (set k | k in v.echo) == {};
    assert forall b :: b in v.lost ==> Awaited(v, b);
    assert v.lost == {};
    assert Line(v) == v.got;
    WithoutNothing(v.taken);
  }

  /** Whatever is delivered is an ordered selection of what was taken. */
  lemma DeliveredIsSubsequence(v: View)
    requires InOrder(v)
    ensures Subsequence(v.got, v.taken)
  {
    WithoutIsSubsequence(v.taken, v.lost);
    assert Line(v) == v.got + (v.pipe + v.pending);
    SubsequenceFront(v.got, v.pipe + v.pending, v.taken);
  }

  /** The two parts of the unconfirmed buffers have disjoint keys, and all of them are awaited. */
  lemma UnconfirmedKeys(v: View)
    requires Tracked(v)
    ensures var inPipe, inEcho := KeySet(v.pipe), set k | k in v.echo;
      inPipe + inEcho <= v.waiting.Keys && inPipe !! inEcho
  {
    forall k | k in KeySet(v.pipe) ensures k in v.waiting && k !in v.echo {
      var b :| b in v.pipe && b.Sequence() == k;
      assert Awaited(v, b);
    }
  }

  lemma DisjointSizes<T>(a: set<T>, b: set<T>)
    requires a !! b
    ensures |a + b| == |a| + |b|
  {
  }

  /** No more buffers than the window allows are launched or confirmable at any time. */
  lemma UnconfirmedFitWindow(v: View)
    requires Sound(v)
    ensures |v.pipe| + |v.echo| <= |v.waiting| <= MAX_PENDING_ACKS
  {
    hide InOrder, Placed, Line, KeySet;
    LineParts(v);
    UnconfirmedKeys(v);
    PipeKeys(v.pipe);
    EchoKeys(v.echo);
    hide DistinctKeys, Awaited;
    var inPipe, inEcho := KeySet(v.pipe), set k | k in v.echo;
    SubsetSize(inPipe + inEcho, v.waiting.Keys);
    DisjointSizes(inPipe, inEcho);
  }

  function KeySet(s: seq<TupleBuffer>): set<Sequence> {
    set b | b in s :: b.Sequence()
  }

  lemma {:induction false} PipeKeys(s: seq<TupleBuffer>)
    requires DistinctKeys(s)
    ensures |KeySet(s)| == |s|
  {
    if s != [] {
      var init, last := s[..|s| - 1], s[|s| - 1];
      PipeKeys(init);
      assert s == init + [last];
      assert KeySet(s) == KeySet(init) + {last.Sequence()};
      assert last.Sequence() !in KeySet(init);
    }
  }

  lemma {:induction false} EchoKeys(s: seq<Sequence>)
    requires forall i, j :: 0 <= i < j < |s| ==> s[i] != s[j]
    ensures |set k | k in s| == |s|
  {
    if s != [] {
      var init, last := s[..|s| - 1], s[|s| - 1];
      EchoKeys(init);
      assert s == init + [last];
      assert (set k | k in s) == (set k | k in init) + {last};
      assert last !in init;
    }
  }
}
