/**
 The lock-free ring as a transition system: any number of threads, each shared load,
 compare-and-set, slot access and tail store its own step, under sequential consistency.
 The history `h` is never read by a step; it counts head and tail advances without
 wrapping ("tickets") and records what was handed in and out.
 */
module BufRingProtocol {
  import opened RingArithmetic

  type Tid = nat

  /** A non-NULL buffer pointer. */
  datatype Buf = Buf(addr: nat)

  datatype Want = Any | Exactly(buf: Buf)

  datatype Ret = Accepted | NoBufs | Got(buf: Buf) | Null

  /** Where a thread stands: each constructor names the next shared access it will make. */
  datatype Pc =
    | Idle
    | Returned(ret: Ret)
      // buf_ring_enqueue_bytes(br, buf, nbytes)
    | EHead(buf: Buf, nbytes: int)
    | ETail(buf: Buf, nbytes: int, head: nat)
    | ECas(buf: Buf, nbytes: int, head: nat)
    | EWrite(buf: Buf, nbytes: int, head: nat)
    | EWait(buf: Buf, nbytes: int, head: nat)
    | EBufsLoad(buf: Buf, nbytes: int, head: nat)
    | EBufsStore(buf: Buf, nbytes: int, head: nat, v: nat)
    | EBytesLoad(buf: Buf, nbytes: int, head: nat)
    | EBytesStore(buf: Buf, nbytes: int, head: nat, v: nat)
    | EPublish(buf: Buf, nbytes: int, head: nat)
      // buf_ring_dequeue_mc(br)
    | MHead
    | MTail(head: nat)
    | MCas(head: nat)
    | MRead(head: nat)
    | MWait(head: nat, buf: Buf)
    | MPublish(head: nat, buf: Buf)
      // buf_ring_dequeue_sc(br); `want` is the mbuf a preceding peek was accepted for
    | SHead(want: Want)
    | STail(want: Want, head: nat)
    | SStore(want: Want, head: nat)
    | SRead(want: Want, head: nat)
    | SPublish(want: Want, head: nat, buf: Buf)
      // the buf_ring_peek(br) of drbr_dequeue_cond and the caller's verdict on it
    | KHead
    | KTail(head: nat)
    | KHeadAgain
    | KSlot(head: nat)
    | KAsk(buf: Buf)

  predicate HasHead(pc: Pc) {
    !(pc.Idle? || pc.Returned? || pc.EHead? || pc.MHead? || pc.SHead? || pc.KHead? || pc.KHeadAgain? || pc.KAsk?)
  }

  /** A consumer operation that relies on the caller's lock. */
  predicate Exclusive(pc: Pc) {
    pc.SHead? || pc.STail? || pc.SStore? || pc.SRead? || pc.SPublish? ||
    pc.KHead? || pc.KTail? || pc.KHeadAgain? || pc.KSlot? || pc.KAsk?
  }

  predicate Consuming(pc: Pc) {
    Exclusive(pc) || pc.MHead? || pc.MTail? || pc.MCas? || pc.MRead? || pc.MWait? || pc.MPublish?
  }

  predicate Producing(pc: Pc) {
    pc.EHead? || pc.ETail? || pc.ECas? || OwnsProd(pc)
  }

  /** Between a successful reservation and its publication. */
  predicate OwnsProd(pc: Pc) {
    pc.EWrite? || pc.EWait? || Updating(pc)
  }

  /** Inside the turn: past the spin-wait, not yet published. */
  predicate Updating(pc: Pc) {
    pc.EBufsLoad? || pc.EBufsStore? || pc.EBytesLoad? || pc.EBytesStore? || pc.EPublish?
  }

  predicate OwnsCons(pc: Pc) {
    pc.MRead? || pc.MWait? || pc.MPublish? || pc.SRead? || pc.SPublish?
  }

  datatype Shared = Shared(
    prodHead: nat, prodTail: nat, consHead: nat, consTail: nat,
    bufs: nat, bytes: nat, ring: seq<Buf>)

  datatype Item = Item(buf: Buf, nbytes: int, owner: Tid)

  /**
   `ph`, `pt`, `ch`, `ct` count the advances of the four indices. `items[k]` is what
   producer ticket `k` stores, `takers[k]` who took consumer ticket `k`, `out[k]` what it
   returned. `tk[t]` is the head count thread `t` saw at its head load and, from its
   reservation on, the ticket it owns.
   */
  datatype History = History(
    ph: nat, pt: nat, ch: nat, ct: nat,
    items: seq<Item>, takers: seq<Tid>, out: seq<Buf>, tk: seq<nat>)

  datatype State = State(size: nat, sh: Shared, pcs: seq<Pc>, h: History)

  ghost predicate WellFormed(s: State) {
    && 0 < s.size < WORD32 && PowerOfTwo(s.size)
    && |s.sh.ring| == s.size
    && |s.h.tk| == |s.pcs|
    && (forall t :: 0 <= t < |s.pcs| && HasHead(s.pcs[t]) ==> s.pcs[t].head < s.size)
    && s.sh.prodHead < s.size && s.sh.consHead < s.size
  }

  datatype Action =
    | StartEnqueue(t: Tid, buf: Buf, nbytes: int)
    | StartMc(t: Tid)
    | StartSc(t: Tid)
    | StartCond(t: Tid)
    | Step(t: Tid)
    | Answer(t: Tid, accept: bool)

  /**
   Callers of the single-consumer operations hold a lock against every other consumer;
   nothing else is asked of callers.
   */
  predicate Enabled(s: State, a: Action) {
    a.t < |s.pcs| &&
    var pc := s.pcs[a.t];
    match a
    case StartEnqueue(_, _, _) => pc.Idle? || pc.Returned?
    case StartMc(_) =>
      (pc.Idle? || pc.Returned?) && forall u :: 0 <= u < |s.pcs| ==> !Exclusive(s.pcs[u])
    case StartSc(_) =>
      (pc.Idle? || pc.Returned?) && forall u :: 0 <= u < |s.pcs| ==> !Consuming(s.pcs[u])
    case StartCond(_) =>
      (pc.Idle? || pc.Returned?) && forall u :: 0 <= u < |s.pcs| ==> !Consuming(s.pcs[u])
    case Step(_) => !pc.Idle? && !pc.Returned? && !pc.KAsk?
    case Answer(_, _) => pc.KAsk?
  }

  function Goto(s: State, t: Tid, pc: Pc): State
    requires t < |s.pcs|
  {
    s.(pcs := s.pcs[t := pc])
  }

  function Saw(h: History, t: Tid, ticket: nat): History
    requires t < |h.tk|
  {
    h.(tk := h.tk[t := ticket])
  }

  function EnqueueStep(s: State, t: Tid): State
    requires WellFormed(s) && t < |s.pcs|
  {
    var sh, h, n := s.sh, s.h, s.size;
    match s.pcs[t]
    case EHead(b, k) => Goto(s.(h := Saw(h, t, h.ph)), t, ETail(b, k, sh.prodHead))
    case ETail(b, k, i) =>
      Goto(s, t, if NextIndex(i, n) == sh.consTail then Returned(NoBufs) else ECas(b, k, i))
    case ECas(b, k, i) =>
      if sh.prodHead == i then
        Goto(s.(sh := sh.(prodHead := NextIndex(i, n)),
                h := Saw(h, t, h.ph).(ph := h.ph + 1, items := h.items + [Item(b, k, t)])),
             t, EWrite(b, k, i))
      else
        Goto(s, t, EHead(b, k))
    case EWrite(b, k, i) => Goto(s.(sh := sh.(ring := sh.ring[i := b])), t, EWait(b, k, i))
    case EWait(b, k, i) => if sh.prodTail == i then Goto(s, t, EBufsLoad(b, k, i)) else s
    case EBufsLoad(b, k, i) => Goto(s, t, EBufsStore(b, k, i, sh.bufs))
    case EBufsStore(b, k, i, v) => Goto(s.(sh := sh.(bufs := (v + 1) % WORD64)), t, EBytesLoad(b, k, i))
    case EBytesLoad(b, k, i) => Goto(s, t, EBytesStore(b, k, i, sh.bytes))
    case EBytesStore(b, k, i, v) => Goto(s.(sh := sh.(bytes := (v + k) % WORD64)), t, EPublish(b, k, i))
    case EPublish(b, k, i) =>
      Goto(s.(sh := sh.(prodTail := NextIndex(i, n)), h := h.(pt := h.pt + 1)), t, Returned(Accepted))
    case _ => s
  }

  function McStep(s: State, t: Tid): State
    requires WellFormed(s) && t < |s.pcs|
  {
    var sh, h, n := s.sh, s.h, s.size;
    match s.pcs[t]
    case MHead => Goto(s.(h := Saw(h, t, h.ch)), t, MTail(sh.consHead))
    case MTail(i) => Goto(s, t, if i == sh.prodTail then Returned(Null) else MCas(i))
    case MCas(i) =>
      if sh.consHead == i then
        Goto(s.(sh := sh.(consHead := NextIndex(i, n)),
                h := Saw(h, t, h.ch).(ch := h.ch + 1, takers := h.takers + [t])),
             t, MRead(i))
      else
        Goto(s, t, MHead)
    case MRead(i) => Goto(s, t, MWait(i, sh.ring[i]))
    case MWait(i, b) => if sh.consTail == i then Goto(s, t, MPublish(i, b)) else s
    case MPublish(i, b) =>
      Goto(s.(sh := sh.(consTail := NextIndex(i, n)), h := h.(ct := h.ct + 1, out := h.out + [b])),
           t, Returned(Got(b)))
    case _ => s
  }

  function ScStep(s: State, t: Tid): State
    requires WellFormed(s) && t < |s.pcs|
  {
    var sh, h, n := s.sh, s.h, s.size;
    match s.pcs[t]
    case SHead(w) => Goto(s.(h := Saw(h, t, h.ch)), t, STail(w, sh.consHead))
    case STail(w, i) => Goto(s, t, if i == sh.prodTail then Returned(Null) else SStore(w, i))
    case SStore(w, i) =>
      Goto(s.(sh := sh.(consHead := NextIndex(i, n)),
              h := h.(ch := h.ch + 1, takers := h.takers + [t])),
           t, SRead(w, i))
    case SRead(w, i) => Goto(s, t, SPublish(w, i, sh.ring[i]))
    case SPublish(w, i, b) =>
      Goto(s.(sh := sh.(consTail := NextIndex(i, n)), h := h.(ct := h.ct + 1, out := h.out + [b])),
           t, Returned(Got(b)))
    case _ => s
  }

  function PeekStep(s: State, t: Tid): State
    requires WellFormed(s) && t < |s.pcs|
  {
    match s.pcs[t]
    case KHead => Goto(s, t, KTail(s.sh.consHead))
    case KTail(i) => Goto(s, t, if i == s.sh.prodTail then Returned(Null) else KHeadAgain)
    case KHeadAgain => Goto(s, t, KSlot(s.sh.consHead))
    case KSlot(i) => Goto(s, t, KAsk(s.sh.ring[i]))
    case _ => s
  }

  function Next(s: State, a: Action): (r: State)
    requires WellFormed(s) && Enabled(s, a)
    ensures r.size == s.size && |r.pcs| == |s.pcs|
  {
    match a
    case StartEnqueue(t, b, k) => Goto(s, t, EHead(b, k))
    case StartMc(t) => Goto(s, t, MHead)
    case StartSc(t) => Goto(s, t, SHead(Any))
    case StartCond(t) => Goto(s, t, KHead)
    case Answer(t, ok) => Goto(s, t, if ok then SHead(Exactly(s.pcs[t].buf)) else Returned(Null))
    case Step(t) =>
      var pc := s.pcs[t];
      if Producing(pc) then EnqueueStep(s, t)
      else if !Exclusive(pc) then McStep(s, t)
      else if pc.KHead? || pc.KTail? || pc.KHeadAgain? || pc.KSlot? then PeekStep(s, t)
      else ScStep(s, t)
  }

  /** The history is write-only: what the code does depends on the real state alone. */
  lemma {:induction false} HistoryIsInvisible(s: State, s': State, a: Action)
    requires WellFormed(s) && WellFormed(s') && s'.(h := s.h) == s && Enabled(s, a)
    ensures Enabled(s', a) && Next(s', a).(h := Next(s, a).h) == Next(s, a)
  {
  }

  lemma {:induction false} NextWellFormed(s: State, a: Action)
    requires WellFormed(s) && Enabled(s, a)
    ensures WellFormed(Next(s, a))
  {
    forall i: nat ensures NextIndex(i, s.size) < s.size { NextIndexInRange(i, s.size); }
  }

  // ------------------------------------------------------------------ runs

  ghost predicate Initial(s: State) {
    && WellFormed(s)
    && s.sh.(ring := []) == Shared(0, 0, 0, 0, 0, 0, [])
    && s.h.(tk := []) == History(0, 0, 0, 0, [], [], [], [])
    && forall t :: 0 <= t < |s.pcs| ==> s.pcs[t].Idle?
  }

  ghost predicate Legal(s: State, acts: seq<Action>)
    requires WellFormed(s)
    decreases |acts|
  {
    acts == [] ||
    (Enabled(s, acts[0]) && (NextWellFormed(s, acts[0]); Legal(Next(s, acts[0]), acts[1..])))
  }

  ghost function Exec(s: State, acts: seq<Action>): (e: State)
    requires WellFormed(s) && Legal(s, acts)
    ensures WellFormed(e) && e.size == s.size && |e.pcs| == |s.pcs|
    decreases |acts|
  {
    if acts == [] then s
    else
      NextWellFormed(s, acts[0]);
      Exec(Next(s, acts[0]), acts[1..])
  }
}
