/**
 The driver layer over the ring, for calls that do not overlap: statistics, drops, the
 conditional dequeue and the flush.
 */
module Drbr {
  import opened Options
  import opened RingArithmetic
  import opened BufRing

  datatype Packet = Packet(id: nat, len: int, mcast: bool)

  datatype Layer = Layer(q: Fifo<Packet>, drops: nat, obytes: nat, omcasts: nat)

  function Enqueue(d: Layer, m: Packet): Layer {
    var (q', err) := Push(d.q, m, m.len);
    if err == ENOBUFS then d.(drops := (d.drops + 1) % WORD64)
    else
      d.(q := q', obytes := (d.obytes + m.len) % WORD64,
         omcasts := if m.mcast then (d.omcasts + 1) % WORD64 else d.omcasts)
  }

  /** drbr_dequeue_cond: the front, if there is one and the predicate accepts it. */
  function Wanted(q: Fifo<Packet>, accept: Packet -> bool): Option<Packet> {
    if Front(q).Some? && accept(Front(q).value) then Front(q) else None
  }

  class Stats {
    var obytes: nat
    var omcasts: nat

    constructor ()
      ensures obytes == 0 && omcasts == 0
    {
      obytes, omcasts := 0, 0;
    }

    /** drbr_stats_update */
    method Update(len: int, mcast: bool)
      modifies this
      ensures obytes == (old(obytes) + len) % WORD64
      ensures omcasts == if mcast then (old(omcasts) + 1) % WORD64 else old(omcasts)
    {
      obytes := (obytes + len) % WORD64;
      if mcast {
        omcasts := (omcasts + 1) % WORD64;
      }
    }
  }

  ghost function View(ifp: Stats, br: Ring<Packet>): Layer
    requires br.Valid()
    reads ifp, br, br.ring
  {
    Layer(br.View(), br.drops, ifp.obytes, ifp.omcasts)
  }

  /** drbr_enqueue: `freed` lists the m_freem calls. */
  method DrbrEnqueue(ifp: Stats, br: Ring<Packet>, m: Packet) returns (err: int, freed: seq<Packet>)
    requires br.Valid()
    modifies ifp, br, br.ring
    ensures br.Valid() && View(ifp, br) == Enqueue(old(View(ifp, br)), m)
    ensures err == Push(old(br.View()), m, m.len).1 && freed == if err == ENOBUFS then [m] else []
  {
    err := br.EnqueueBytes(m, m.len);
    if err == ENOBUFS {
      br.drops := (br.drops + 1) % WORD64;
      freed := [m];
    } else {
      ifp.Update(m.len, m.mcast);
      freed := [];
    }
  }

  /** drbr_flush: everything comes out in order and is freed. */
  method DrbrFlush(br: Ring<Packet>) returns (freed: seq<Packet>)
    requires br.Valid()
    modifies br`consHead, br`consTail, br`ct
    ensures br.Valid() && br.View() == old(br.View()).(items := [])
    ensures freed == old(br.Contents())
  {
    freed := [];
    ghost var was, k := br.Contents(), 0;
    while true
      invariant br.Valid() && 0 <= k <= |was|
      invariant freed == was[..k] && br.Contents() == was[k..]
      invariant br.View() == old(br.View()).(items := br.Contents())
      decreases |br.Contents()|
    {
      var m := br.DequeueSc();
      if m == None {
        break;
      }
      freed := freed + [m.value];
      k := k + 1;
    }
  }

  /** drbr_dequeue_cond returns exactly the packet its predicate was shown and accepted. */
  method DrbrDequeueCond(br: Ring<Packet>, accept: Packet -> bool) returns (r: Option<Packet>)
    requires br.Valid()
    modifies br`consHead, br`consTail, br`ct
    ensures br.Valid() && r == Wanted(old(br.View()), accept)
    ensures br.View() == if r.Some? then Pop(old(br.View())) else old(br.View())
    ensures r == None <==> old(br.Contents()) == [] || !accept(old(br.Contents())[0])
    ensures r.Some? ==> accept(r.value) && old(br.Contents()) == [r.value] + br.Contents()
  {
    var m := br.Peek();
    if m == None || !accept(m.value) {
      return None;
    }
    r := br.DequeueSc();
  }

  // ------------------------------------------------------------------ every call sequence

  datatype Op = Transmit(m: Packet) | Fetch | FetchIf(accept: Packet -> bool) | FlushAll

  ghost function Step(d: Layer, op: Op): Layer {
    match op
    case Transmit(m) => Enqueue(d, m)
    case Fetch => d.(q := Pop(d.q))
    case FetchIf(accept) => if Wanted(d.q, accept).Some? then d.(q := Pop(d.q)) else d
    case FlushAll => d.(q := d.q.(items := []))
  }

  /** The packets a call lets out of the ring, delivered or freed, in order. */
  ghost function LetOut(d: Layer, op: Op): seq<Packet> {
    match op
    case Transmit(_) => []
    case Fetch => if Front(d.q).Some? then [Front(d.q).value] else []
    case FetchIf(accept) => if Wanted(d.q, accept).Some? then [Wanted(d.q, accept).value] else []
    case FlushAll => d.q.items
  }

  predicate Refused(d: Layer, op: Op) { op.Transmit? && |d.q.items| >= d.q.cap }

  ghost function Bytes(ps: seq<Packet>): int {
    if ps == [] then 0 else Bytes(ps[..|ps| - 1]) + ps[|ps| - 1].len
  }

  function Mcasts(ps: seq<Packet>): nat {
    if ps == [] then 0 else Mcasts(ps[..|ps| - 1]) + (if ps[|ps| - 1].mcast then 1 else 0)
  }

  /** A run so far: the layer, and what was accepted, refused and let out. */
  datatype Trace = Trace(d: Layer, accepted: seq<Packet>, refused: seq<Packet>, out: seq<Packet>)

  ghost function Extend(t: Trace, op: Op): Trace {
    Trace(Step(t.d, op),
          t.accepted + (if op.Transmit? && !Refused(t.d, op) then [op.m] else []),
          t.refused + (if Refused(t.d, op) then [op.m] else []),
          t.out + LetOut(t.d, op))
  }

  ghost function Play(t: Trace, ops: seq<Op>): Trace
    decreases |ops|
  {
    if ops == [] then t else Play(Extend(t, ops[0]), ops[1..])
  }

  /**
   What was accepted came out, in that order, or is still in the ring; drops are the
   refusals; the interface's and the ring's byte counts agree with what was accepted.
   */
  ghost predicate Accounted(t: Trace) { InOrder(t) && Counted(t) }

  ghost predicate InOrder(t: Trace) {
    |t.d.q.items| <= t.d.q.cap && t.accepted == t.out + t.d.q.items
  }

  ghost predicate Counted(t: Trace) {
    && t.d.drops == |t.refused| % WORD64
    && t.d.obytes == t.d.q.bytes == Bytes(t.accepted) % WORD64
    && t.d.omcasts == Mcasts(t.accepted) % WORD64
    && t.d.q.bufs == |t.accepted| % WORD64
  }

  lemma {:induction false} AcceptCounted(t: Trace, m: Packet)
    requires Counted(t) && !Refused(t.d, Transmit(m))
    ensures Counted(Extend(t, Transmit(m)))
  {
    var a := t.accepted + [m];
    assert a[..|a| - 1] == t.accepted;
    assert Extend(t, Transmit(m)).accepted == a && Extend(t, Transmit(m)).refused == t.refused;
    assert Bytes(a) == Bytes(t.accepted) + m.len;
    assert Mcasts(a) == Mcasts(t.accepted) + (if m.mcast then 1 else 0);
    AddWord(Bytes(t.accepted), m.len);
    AddWord(Mcasts(t.accepted), 1);
    AddWord(|t.accepted|, 1);
  }

  lemma {:induction false} ExtendInOrder(t: Trace, op: Op)
    requires InOrder(t)
    ensures InOrder(Extend(t, op))
  {
    var out, q, q' := LetOut(t.d, op), t.d.q.items, Step(t.d, op).q.items;
    if op.Transmit? && !Refused(t.d, op) {
      assert t.out + (q + [op.m]) == (t.out + q) + [op.m];
    } else {
      assert q == out + q';
      assert t.out + (out + q') == (t.out + out) + q';
    }
  }

  lemma {:induction false} ExtendAccounted(t: Trace, op: Op)
    requires Accounted(t)
    ensures Accounted(Extend(t, op))
  {
    ExtendInOrder(t, op);
    if op.Transmit? && !Refused(t.d, op) {
      AcceptCounted(t, op.m);
    } else {
      assert Extend(t, op).accepted == t.accepted;
      AddWord(|t.refused|, 1);
    }
  }

  lemma {:induction false} PlayAccounted(t: Trace, ops: seq<Op>)
    requires Accounted(t)
    ensures Accounted(Play(t, ops))
    decreases |ops|
  {
    if ops != [] {
      ExtendAccounted(t, ops[0]);
      PlayAccounted(Extend(t, ops[0]), ops[1..]);
    }
  }

  /**
   Whatever came before, a conditional fetch lets out the oldest packet if there is one and
   its predicate accepts it, and otherwise nothing.
   */
  lemma {:induction false} FetchObeysPredicate(t: Trace, ops: seq<Op>, k: nat)
    requires Accounted(t) && k < |ops| && ops[k].FetchIf?
    ensures
      var d := Play(t, ops[..k]).d;
      var (held, out) := (d.q.items, LetOut(d, ops[k]));
      && (out == [] <==> held == [] || !ops[k].accept(held[0]))
      && (forall p :: p in out ==> ops[k].accept(p))
      && held == out + Step(d, ops[k]).q.items && |out| <= 1
  {
    PlayAccounted(t, ops[..k]);
  }

  /** And an unconditional one the oldest, if there is one; a flush everything, in order. */
  lemma {:induction false} FetchAndFlush(t: Trace, ops: seq<Op>, k: nat)
    requires Accounted(t) && k < |ops|
    ensures
      var d := Play(t, ops[..k]).d;
      var (held, out, left) := (d.q.items, LetOut(d, ops[k]), Step(d, ops[k]).q.items);
      && (ops[k].Fetch? ==> held == out + left && |out| == if held == [] then 0 else 1)
      && (ops[k].FlushAll? ==> out == held && left == [])
      && (ops[k].Transmit? ==> out == [] && left == if |held| < d.q.cap then held + [ops[k].m] else held)
  {
    PlayAccounted(t, ops[..k]);
  }

  // ------------------------------------------------------------------ on the ring itself

  /** One call on the ring and the counters extends the trace as specified. */
  method Perform(ifp: Stats, br: Ring<Packet>, op: Op, ghost t: Trace)
    returns (accepted: seq<Packet>, refused: seq<Packet>, out: seq<Packet>)
    requires br.Valid() && t.d == View(ifp, br)
    modifies ifp, br, br.ring
    ensures br.Valid()
    ensures Trace(View(ifp, br), t.accepted + accepted, t.refused + refused, t.out + out) == Extend(t, op)
  {
    accepted, refused, out := [], [], [];
    match op {
      case Transmit(m) =>
        var err;
        err, refused := DrbrEnqueue(ifp, br, m);
        if err == 0 {
          accepted := [m];
        }
      case Fetch =>
        var r := br.DequeueSc();
        out := if r.Some? then [r.value] else [];
      case FetchIf(accept) =>
        var r := DrbrDequeueCond(br, accept);
        out := if r.Some? then [r.value] else [];
      case FlushAll =>
        out := DrbrFlush(br);
    }
  }

  /**
   Every sequence of calls on the ring and the counters is such a run; from an accounted
   state it ends in one.
   */
  method Replay(ifp: Stats, br: Ring<Packet>, ops: seq<Op>)
    returns (accepted: seq<Packet>, refused: seq<Packet>, out: seq<Packet>)
    requires br.Valid()
    modifies ifp, br, br.ring
    ensures br.Valid()
    ensures Trace(View(ifp, br), accepted, refused, out) == Play(Trace(old(View(ifp, br)), [], [], []), ops)
    ensures Accounted(Trace(old(View(ifp, br)), [], [], [])) ==> Accounted(Trace(View(ifp, br), accepted, refused, out))
  {
    accepted, refused, out := [], [], [];
    ghost var t0 := Trace(View(ifp, br), [], [], []);
    for k := 0 to |ops|
      invariant br.Valid()
      invariant Play(Trace(View(ifp, br), accepted, refused, out), ops[k..]) == Play(t0, ops)
    {
      ghost var t := Trace(View(ifp, br), accepted, refused, out);
      var a, r, o := Perform(ifp, br, ops[k], t);
      accepted, refused, out := accepted + a, refused + r, out + o;
      assert ops[k..][1..] == ops[k + 1..];
    }
    if Accounted(t0) {
      PlayAccounted(t0, ops);
    }
  }
}
