/**
 What every step of the ring protocol keeps. `At` annotates each program point with what
 its thread knows there; `Rely` says what the steps of others may change under it. The
 only hypothesis a step needs is `Room`: a compare-and-set that succeeds does so while
 the ring really has room (for a consumer: really has a published buffer).
 */
module BufRingInvariant {
  import opened RingArithmetic
  import opened BufRingProtocol

  ghost predicate Ordered(s: State) {
    s.h.ct <= s.h.ch <= s.h.pt <= s.h.ph < s.h.ct + s.size
  }

  ghost predicate FieldsAreSlots(s: State)
    requires s.size > 0
  {
    && s.sh.prodHead == Slot(s.h.ph, s.size) && s.sh.prodTail == Slot(s.h.pt, s.size)
    && s.sh.consHead == Slot(s.h.ch, s.size) && s.sh.consTail == Slot(s.h.ct, s.size)
  }

  ghost predicate Recorded(s: State) {
    && WellFormed(s) && Ordered(s)
    && |s.h.items| == s.h.ph && |s.h.takers| == s.h.ch && |s.h.out| == s.h.ct
  }

  ghost function BytesTo(items: seq<Item>, k: nat): int
    requires k <= |items|
  {
    if k == 0 then 0 else BytesTo(items, k - 1) + items[k - 1].nbytes
  }

  // ------------------------------------------------------------------ the annotated program

  ghost predicate Reserved(s: State, t: Tid)
    requires Recorded(s) && t < |s.pcs| && OwnsProd(s.pcs[t])
  {
    var h, k, pc := s.h, s.h.tk[t], s.pcs[t];
    && h.pt <= k < h.ph && h.items[k] == Item(pc.buf, pc.nbytes, t) && pc.head == Slot(k, s.size)
  }

  ghost predicate Written(s: State, t: Tid)
    requires Recorded(s) && t < |s.pcs| && OwnsProd(s.pcs[t])
  {
    Reserved(s, t) && s.sh.ring[s.pcs[t].head] == s.pcs[t].buf
  }

  /** The thread whose turn it is has stored `bufs` more buffers and `bytes` more bytes. */
  ghost predicate Turn(s: State, t: Tid, bufs: nat, bytes: int)
    requires Recorded(s) && t < |s.pcs| && OwnsProd(s.pcs[t])
  {
    && Written(s, t) && s.h.tk[t] == s.h.pt
    && s.sh.bufs == (s.h.pt + bufs) % WORD64
    && s.sh.bytes == (BytesTo(s.h.items, s.h.pt) + bytes) % WORD64
  }

  ghost predicate Taken(s: State, t: Tid)
    requires Recorded(s) && t < |s.pcs| && OwnsCons(s.pcs[t])
  {
    var h, k := s.h, s.h.tk[t];
    h.ct <= k < h.ch && h.takers[k] == t && s.pcs[t].head == Slot(k, s.size)
  }

  ghost predicate Front(s: State, w: Want)
    requires Recorded(s)
  {
    w.Exactly? ==> s.h.ch < s.h.pt && s.h.items[s.h.ch].buf == w.buf
  }

  ghost predicate At(s: State, t: Tid)
    requires Recorded(s) && t < |s.pcs|
  {
    var h, n, k := s.h, s.size, s.h.tk[t];
    match s.pcs[t]
    case Idle => true
    case Returned(_) => true
    case EHead(_, _) => true
    case ETail(_, _, i) => k <= h.ph && i == Slot(k, n)
    case ECas(_, _, i) => k <= h.ph && i == Slot(k, n) && (k == h.ph ==> h.ph + 1 < h.ct + n)
    case EWrite(_, _, _) => Reserved(s, t)
    case EWait(_, _, _) => Written(s, t)
    case EBufsLoad(_, _, _) => Turn(s, t, 0, 0)
    case EBufsStore(_, _, _, v) => Turn(s, t, 0, 0) && v == s.sh.bufs
    case EBytesLoad(_, _, _) => Turn(s, t, 1, 0)
    case EBytesStore(_, _, _, v) => Turn(s, t, 1, 0) && v == s.sh.bytes
    case EPublish(_, m, _) => Turn(s, t, 1, m)
    case MHead => true
    case MTail(i) => k <= h.ch && i == Slot(k, n)
    case MCas(i) => k <= h.ch && i == Slot(k, n) && (k == h.ch ==> h.ch < h.pt)
    case MRead(_) => Taken(s, t)
    case MWait(_, b) => Taken(s, t) && b == h.items[k].buf
    case MPublish(_, b) => Taken(s, t) && b == h.items[k].buf && k == h.ct
    case SHead(w) => Front(s, w)
    case STail(w, i) => i == Slot(h.ch, n) && k == h.ch && Front(s, w)
    case SStore(w, i) => i == Slot(h.ch, n) && k == h.ch && h.ch < h.pt && Front(s, w)
    case SRead(w, _) => Taken(s, t) && (w.Exactly? ==> h.items[k].buf == w.buf)
    case SPublish(w, _, b) =>
      Taken(s, t) && b == h.items[k].buf && (w.Exactly? ==> h.items[k].buf == w.buf)
    case KHead => true
    case KTail(i) => i == Slot(h.ch, n)
    case KHeadAgain => h.ch < h.pt
    case KSlot(i) => i == Slot(h.ch, n) && h.ch < h.pt
    case KAsk(b) => h.ch < h.pt && h.items[h.ch].buf == b
  }

  // ------------------------------------------------------------------ what holds per ticket

  ghost predicate HeldByProducer(s: State, k: nat)
    requires Recorded(s) && s.h.pt <= k < s.h.ph
  {
    var t := s.h.items[k].owner;
    t < |s.pcs| && OwnsProd(s.pcs[t]) && s.h.tk[t] == k
  }

  ghost predicate HeldByConsumer(s: State, k: nat)
    requires Recorded(s) && s.h.ct <= k < s.h.ch
  {
    var t := s.h.takers[k];
    t < |s.pcs| && OwnsCons(s.pcs[t]) && s.h.tk[t] == k
  }

  /** A published slot holds its ticket's buffer until its consumer publishes. */
  ghost predicate Stored(s: State, k: nat)
    requires Recorded(s) && s.h.ct <= k < s.h.pt
  {
    s.sh.ring[Slot(k, s.size)] == s.h.items[k].buf
  }

  ghost predicate Delivered(s: State, k: nat)
    requires Recorded(s) && k < s.h.ct
  {
    s.h.out[k] == s.h.items[k].buf
  }

  /** Unless a thread is inside the update block, the counters cover what is published. */
  ghost predicate Settled(s: State)
    requires Recorded(s)
  {
    || (s.sh.bufs == s.h.pt % WORD64 && s.sh.bytes == BytesTo(s.h.items, s.h.pt) % WORD64)
    || (s.h.pt < s.h.ph && s.h.items[s.h.pt].owner < |s.pcs| && Updating(s.pcs[s.h.items[s.h.pt].owner]))
  }

  /** The caller's lock: a single-consumer operation runs without another consumer. */
  ghost predicate AloneAt(s: State, t: Tid)
    requires t < |s.pcs|
  {
    Exclusive(s.pcs[t]) ==> forall u: nat :: u < |s.pcs| && u != t ==> !Consuming(s.pcs[u])
  }

  ghost predicate Alone(s: State) {
    forall t: nat :: t < |s.pcs| ==> AloneAt(s, t)
  }

  ghost predicate Threads(s: State)
    requires Recorded(s)
  {
    forall t: nat :: t < |s.pcs| ==> At(s, t)
  }

  ghost predicate Tickets(s: State)
    requires Recorded(s)
  {
    && (forall k: nat :: s.h.pt <= k < s.h.ph ==> HeldByProducer(s, k))
    && (forall k: nat :: s.h.ct <= k < s.h.ch ==> HeldByConsumer(s, k))
    && (forall k: nat :: s.h.ct <= k < s.h.pt ==> Stored(s, k))
    && (forall k: nat :: k < s.h.ct ==> Delivered(s, k))
  }

  ghost predicate Inv(s: State) {
    && Recorded(s) && FieldsAreSlots(s) && Threads(s) && Tickets(s) && Settled(s) && Alone(s)
  }

  /** The full (empty) test, re-evaluated on the fields as a compare-and-set succeeds. */
  ghost predicate Room(s: State, a: Action)
    requires WellFormed(s) && Enabled(s, a)
  {
    var pc := s.pcs[a.t];
    && (a.Step? && pc.ECas? && s.sh.prodHead == pc.head ==>
          NextIndex(s.sh.prodHead, s.size) != s.sh.consTail)
    && (a.Step? && pc.MCas? && s.sh.consHead == pc.head ==> s.sh.consHead != s.sh.prodTail)
  }

  // ------------------------------------------------------------------ arithmetic of the window

  lemma {:induction false} FullTest(s: State)
    requires WellFormed(s) && Ordered(s) && FieldsAreSlots(s)
    ensures NextIndex(s.sh.prodHead, s.size) == s.sh.consTail <==> s.h.ph + 1 == s.h.ct + s.size
  {
    FullTestIsExact(s.h.ct, s.h.ph, s.size);
  }

  lemma {:induction false} EmptyTest(s: State)
    requires WellFormed(s) && Ordered(s) && FieldsAreSlots(s)
    ensures s.sh.consHead == s.sh.prodTail <==> s.h.ch == s.h.pt
  {
    SlotInjective(s.h.ch, s.h.pt, s.size);
  }

  lemma {:induction false} BytesOfPrefix(items: seq<Item>, items': seq<Item>, k: nat)
    requires k <= |items| && items <= items'
    ensures BytesTo(items', k) == BytesTo(items, k)
  {
    if k > 0 {
      BytesOfPrefix(items, items', k - 1);
    }
  }

  // ------------------------------------------------------------------ interference

  /** What a step by another thread may change under thread `u`. */
  ghost predicate Rely(s: State, s': State, u: Tid)
    requires Recorded(s) && Recorded(s') && |s.pcs| == |s'.pcs| && u < |s.pcs|
  {
    var pc, h, h' := s.pcs[u], s.h, s'.h;
    && s'.pcs[u] == pc && h'.tk[u] == h.tk[u] && s'.size == s.size
    && h.items <= h'.items && h.takers <= h'.takers && h.pt <= h'.pt && h.ct <= h'.ct
    && (OwnsProd(pc) ==> h'.pt <= h.tk[u])
    && (OwnsProd(pc) && !pc.EWrite? ==> s'.sh.ring[pc.head] == s.sh.ring[pc.head])
    && (Updating(pc) ==> s'.sh.bufs == s.sh.bufs && s'.sh.bytes == s.sh.bytes)
    && (OwnsCons(pc) ==> h'.ct <= h.tk[u])
    && (Exclusive(pc) ==> h'.ch == h.ch)
  }

  lemma {:induction false} RelyKeepsAt(s: State, s': State, u: Tid)
    requires Recorded(s) && Recorded(s') && |s.pcs| == |s'.pcs| && u < |s.pcs|
    requires Rely(s, s', u) && At(s, u)
    ensures At(s', u)
  {
    BytesOfPrefix(s.h.items, s'.h.items, s.h.pt);
  }

  /** `s'` is `s` with thread `t` moved on. */
  ghost predicate MovesOnly(s: State, s': State, t: Tid) {
    && t < |s.pcs| == |s'.pcs| && |s.h.tk| == |s'.h.tk| == |s.pcs|
    && s'.pcs == s.pcs[t := s'.pcs[t]] && s'.h.tk == s.h.tk[t := s'.h.tk[t]] && s'.size == s.size
  }

  lemma {:induction false} ThreadsKept(s: State, s': State, t: Tid)
    requires Inv(s) && Recorded(s') && MovesOnly(s, s', t) && At(s', t)
    requires forall u: nat :: u < |s.pcs| && u != t ==> Rely(s, s', u)
    ensures Threads(s')
  {
    forall u: nat | u < |s'.pcs|
      ensures At(s', u)
    {
      if u != t {
        RelyKeepsAt(s, s', u);
      }
    }
  }

  lemma {:induction false} AloneKept(s: State, s': State, t: Tid)
    requires Alone(s) && MovesOnly(s, s', t)
    requires Exclusive(s'.pcs[t]) ==> Exclusive(s.pcs[t])
    requires Consuming(s'.pcs[t]) ==> Consuming(s.pcs[t])
    ensures Alone(s')
  {
    forall u: nat | u < |s'.pcs| ensures AloneAt(s', u) { assert AloneAt(s, u); }
  }

  /** A step that writes no shared field and neither reserves nor publishes. */
  ghost predicate Local(s: State, s': State, t: Tid) {
    && MovesOnly(s, s', t) && s'.sh == s.sh && s'.h == s.h.(tk := s'.h.tk)
    && OwnsProd(s.pcs[t]) == OwnsProd(s'.pcs[t]) && OwnsCons(s.pcs[t]) == OwnsCons(s'.pcs[t])
    && (OwnsProd(s.pcs[t]) || OwnsCons(s.pcs[t]) ==> s'.h.tk == s.h.tk)
    && (Updating(s.pcs[t]) ==> Updating(s'.pcs[t]))
    && Recorded(s') && At(s', t)
  }

  lemma {:induction false} LocalStepKeepsInv(s: State, s': State, t: Tid)
    requires Inv(s) && Local(s, s', t) && Alone(s')
    ensures Inv(s')
  {
    forall u: nat | u < |s.pcs| && u != t ensures Rely(s, s', u) { assert At(s, u); }
    ThreadsKept(s, s', t);
    forall k: nat | s.h.pt <= k < s.h.ph ensures HeldByProducer(s', k) { assert HeldByProducer(s, k); }
    forall k: nat | s.h.ct <= k < s.h.ch ensures HeldByConsumer(s', k) { assert HeldByConsumer(s, k); }
    forall k: nat | s.h.ct <= k < s.h.pt ensures Stored(s', k) { assert Stored(s, k); }
    forall k: nat | k < s.h.ct ensures Delivered(s', k) { assert Delivered(s, k); }
  }

  // ------------------------------------------------------------------ starting and answering

  lemma {:induction false} StartKeepsAlone(s: State, a: Action)
    requires WellFormed(s) && Alone(s) && Enabled(s, a) && !a.Step?
    ensures Alone(Next(s, a))
  {
    var s' := Next(s, a);
    if a.Answer? || a.StartEnqueue? {
      AloneKept(s, s', a.t);
    } else {
      forall u: nat | u < |s'.pcs| ensures AloneAt(s', u) { assert AloneAt(s, u); }
    }
  }

  lemma {:induction false} StartIsLocal(s: State, a: Action)
    requires Recorded(s) && Enabled(s, a) && !a.Step? && At(s, a.t)
    ensures Local(s, Next(s, a), a.t)
  {
    NextWellFormed(s, a);
  }

  lemma {:induction false} StartKeepsInv(s: State, a: Action)
    requires Inv(s) && Enabled(s, a) && !a.Step?
    ensures Inv(Next(s, a))
  {
    StartKeepsAlone(s, a);
    assert At(s, a.t);
    StartIsLocal(s, a);
    LocalStepKeepsInv(s, Next(s, a), a.t);
  }

  // ------------------------------------------------------------------ enqueue steps

  lemma {:induction false} ELoadKeepsInv(s: State, t: Tid)
    requires Inv(s) && t < |s.pcs|
    requires s.pcs[t].EHead? || s.pcs[t].ETail? || (s.pcs[t].ECas? && s.sh.prodHead != s.pcs[t].head)
    ensures Inv(EnqueueStep(s, t))
  {
    var s' := EnqueueStep(s, t);
    assert At(s, t);
    AloneKept(s, s', t);
    FullTest(s);
    LocalStepKeepsInv(s, s', t);
  }

  /** Seeing one's own index in `br_prod_tail` means owning the oldest ticket. */
  lemma {:induction false} EWaitKeepsInv(s: State, t: Tid)
    requires Inv(s) && t < |s.pcs| && s.pcs[t].EWait?
    ensures Inv(EnqueueStep(s, t))
  {
    var s' := EnqueueStep(s, t);
    assert At(s, t);
    AloneKept(s, s', t);
    assert HeldByProducer(s, s.h.pt);
    SlotInjective(s.h.pt, s.h.tk[t], s.size);
    LocalStepKeepsInv(s, s', t);
  }

  lemma {:induction false} ECounterLoadKeepsInv(s: State, t: Tid)
    requires Inv(s) && t < |s.pcs| && (s.pcs[t].EBufsLoad? || s.pcs[t].EBytesLoad?)
    ensures Inv(EnqueueStep(s, t))
  {
    var s' := EnqueueStep(s, t);
    assert At(s, t);
    AloneKept(s, s', t);
    LocalStepKeepsInv(s, s', t);
  }

  /** A step that changes the producer side only leaves the tickets of consumers alone. */
  lemma {:induction false} ConsumerTicketsKept(s: State, s': State, t: Tid)
    requires Inv(s) && Recorded(s') && MovesOnly(s, s', t)
    requires s'.h.ct == s.h.ct && s'.h.ch == s.h.ch && s'.h.takers == s.h.takers && s'.h.out == s.h.out
    requires s.h.items <= s'.h.items && s.h.pt <= s'.h.pt && !OwnsCons(s.pcs[t])
    ensures forall k: nat :: s'.h.ct <= k < s'.h.ch ==> HeldByConsumer(s', k)
    ensures forall k: nat :: k < s'.h.ct ==> Delivered(s', k)
  {
    forall k: nat | s.h.ct <= k < s.h.ch ensures HeldByConsumer(s', k) { assert HeldByConsumer(s, k); }
    forall k: nat | k < s.h.ct ensures Delivered(s', k) { assert Delivered(s, k); }
  }

  /** A successful reservation takes ticket `ph`. */
  lemma {:induction false} ECasKeepsThreads(s: State, t: Tid)
    requires Inv(s) && t < |s.pcs| && s.pcs[t].ECas? && s.sh.prodHead == s.pcs[t].head && Room(s, Step(t))
    ensures Recorded(EnqueueStep(s, t)) && FieldsAreSlots(EnqueueStep(s, t)) && Threads(EnqueueStep(s, t))
  {
    var s' := EnqueueStep(s, t);
    FullTest(s);
    NextIndexIsNextSlot(s.h.ph, s.size);
    NextIndexInRange(s.sh.prodHead, s.size);
    assert Recorded(s') && At(s', t);
    forall u: nat | u < |s.pcs| && u != t ensures Rely(s, s', u) { assert At(s, u); }
    ThreadsKept(s, s', t);
  }

  lemma {:induction false} ECasKeepsInv(s: State, t: Tid)
    requires Inv(s) && t < |s.pcs| && s.pcs[t].ECas? && s.sh.prodHead == s.pcs[t].head && Room(s, Step(t))
    ensures Inv(EnqueueStep(s, t))
  {
    var s' := EnqueueStep(s, t);
    ECasKeepsThreads(s, t);
    AloneKept(s, s', t);
    ConsumerTicketsKept(s, s', t);
    forall k: nat | s'.h.pt <= k < s'.h.ph ensures HeldByProducer(s', k) {
      if k < s.h.ph { assert HeldByProducer(s, k); }
    }
    forall k: nat | s'.h.ct <= k < s'.h.pt ensures Stored(s', k) { assert Stored(s, k); }
    BytesOfPrefix(s.h.items, s'.h.items, s.h.pt);
  }

  /** The slot written belongs to nobody else: no live ticket of the lap shares it. */
  lemma {:induction false} EWriteKeepsThreads(s: State, t: Tid)
    requires Inv(s) && t < |s.pcs| && s.pcs[t].EWrite?
    ensures Recorded(EnqueueStep(s, t)) && Threads(EnqueueStep(s, t))
  {
    var s' := EnqueueStep(s, t);
    assert At(s, t);
    assert Recorded(s') && At(s', t);
    forall u: nat | u < |s.pcs| && u != t ensures Rely(s, s', u) {
      assert At(s, u);
      if OwnsProd(s.pcs[u]) {
        LapSlots(s, s.h.tk[u], s.h.tk[t]);
      }
    }
    ThreadsKept(s, s', t);
  }

  lemma {:induction false} EWriteKeepsInv(s: State, t: Tid)
    requires Inv(s) && t < |s.pcs| && s.pcs[t].EWrite?
    ensures Inv(EnqueueStep(s, t))
  {
    var s' := EnqueueStep(s, t);
    EWriteKeepsThreads(s, t);
    AloneKept(s, s', t);
    ConsumerTicketsKept(s, s', t);
    assert At(s, t);
    forall k: nat | s'.h.pt <= k < s'.h.ph ensures HeldByProducer(s', k) { assert HeldByProducer(s, k); }
    forall k: nat | s'.h.ct <= k < s'.h.pt ensures Stored(s', k) {
      assert Stored(s, k);
      LapSlots(s, k, s.h.tk[t]);
    }
  }

  lemma {:induction false} LapSlots(s: State, a: nat, b: nat)
    requires Recorded(s) && s.h.ct <= a < s.h.ph && s.h.ct <= b < s.h.ph
    ensures Slot(a, s.size) == Slot(b, s.size) <==> a == b
  {
    if a <= b {
      SlotInjective(a, b, s.size);
    } else {
      SlotInjective(b, a, s.size);
    }
  }

  /** Two threads are never inside the update block together. */
  lemma {:induction false} TurnIsUnique(s: State, t: Tid, u: Tid)
    requires Inv(s) && t < |s.pcs| && u < |s.pcs| && Updating(s.pcs[t]) && Updating(s.pcs[u])
    ensures t == u
  {
    assert At(s, t) && At(s, u);
  }

  /** Storing a counter inside one's turn disturbs nobody. */
  lemma {:induction false} CounterStoreKeepsInv(s: State, s': State, t: Tid)
    requires Inv(s) && MovesOnly(s, s', t) && Updating(s.pcs[t]) && Updating(s'.pcs[t])
    requires s'.sh == s.sh.(bufs := s'.sh.bufs, bytes := s'.sh.bytes) && s'.h == s.h
    requires Recorded(s') && At(s', t)
    ensures Inv(s')
  {
    AloneKept(s, s', t);
    forall u: nat | u < |s.pcs| && u != t ensures Rely(s, s', u) {
      assert At(s, u);
      if Updating(s.pcs[u]) { TurnIsUnique(s, t, u); }
    }
    ThreadsKept(s, s', t);
    ConsumerTicketsKept(s, s', t);
    forall k: nat | s'.h.pt <= k < s'.h.ph ensures HeldByProducer(s', k) { assert HeldByProducer(s, k); }
    forall k: nat | s'.h.ct <= k < s'.h.pt ensures Stored(s', k) { assert Stored(s, k); }
    assert At(s, t);
  }

  lemma {:induction false} ECountersKeepInv(s: State, t: Tid)
    requires Inv(s) && t < |s.pcs| && (s.pcs[t].EBufsStore? || s.pcs[t].EBytesStore?)
    ensures Inv(EnqueueStep(s, t))
  {
    var s' := EnqueueStep(s, t);
    assert At(s, t);
    AddWord(s.h.pt, 1);
    AddWord(BytesTo(s.h.items, s.h.pt), s.pcs[t].nbytes);
    assert Recorded(s');
    assert Written(s', t);
    CounterStoreKeepsInv(s, s', t);
  }

  lemma {:induction false} EPublishKeepsThreads(s: State, t: Tid)
    requires Inv(s) && t < |s.pcs| && s.pcs[t].EPublish?
    ensures Recorded(EnqueueStep(s, t)) && FieldsAreSlots(EnqueueStep(s, t)) && Threads(EnqueueStep(s, t))
  {
    var s' := EnqueueStep(s, t);
    assert At(s, t);
    NextIndexIsNextSlot(s.h.pt, s.size);
    assert Recorded(s') && At(s', t);
    forall u: nat | u < |s.pcs| && u != t ensures Rely(s, s', u) { assert At(s, u); }
    ThreadsKept(s, s', t);
  }

  lemma {:induction false} EPublishKeepsTickets(s: State, t: Tid)
    requires Inv(s) && t < |s.pcs| && s.pcs[t].EPublish? && Recorded(EnqueueStep(s, t))
    ensures Tickets(EnqueueStep(s, t))
  {
    var s' := EnqueueStep(s, t);
    ConsumerTicketsKept(s, s', t);
    assert At(s, t);
    forall k: nat | s'.h.pt <= k < s'.h.ph ensures HeldByProducer(s', k) { assert HeldByProducer(s, k); }
    forall k: nat | s'.h.ct <= k < s'.h.pt ensures Stored(s', k) {
      if k < s.h.pt { assert Stored(s, k); }
    }
  }

  lemma {:induction false} EPublishKeepsInv(s: State, t: Tid)
    requires Inv(s) && t < |s.pcs| && s.pcs[t].EPublish?
    ensures Inv(EnqueueStep(s, t))
  {
    EPublishKeepsThreads(s, t);
    EPublishKeepsTickets(s, t);
    AloneKept(s, EnqueueStep(s, t), t);
    assert At(s, t);
  }

  lemma {:induction false} EnqueueKeepsInv(s: State, t: Tid)
    requires Inv(s) && Enabled(s, Step(t)) && Producing(s.pcs[t]) && Room(s, Step(t))
    ensures Inv(EnqueueStep(s, t))
  {
    match s.pcs[t]
    case EHead(_, _) => ELoadKeepsInv(s, t);
    case ETail(_, _, _) => ELoadKeepsInv(s, t);
    case ECas(_, _, i) => if s.sh.prodHead == i { ECasKeepsInv(s, t); } else { ELoadKeepsInv(s, t); }
    case EWrite(_, _, _) => EWriteKeepsInv(s, t);
    case EWait(_, _, _) => EWaitKeepsInv(s, t);
    case EBufsLoad(_, _, _) => ECounterLoadKeepsInv(s, t);
    case EBytesLoad(_, _, _) => ECounterLoadKeepsInv(s, t);
    case EPublish(_, _, _) => EPublishKeepsInv(s, t);
    case _ => ECountersKeepInv(s, t);
  }

  // ------------------------------------------------------------------ dequeue steps

  lemma {:induction false} MLoadIsLocal(s: State, t: Tid)
    requires Recorded(s) && FieldsAreSlots(s) && t < |s.pcs| && At(s, t)
    requires s.pcs[t].MHead? || s.pcs[t].MTail? || (s.pcs[t].MCas? && s.sh.consHead != s.pcs[t].head)
    ensures Local(s, McStep(s, t), t)
  {
    EmptyTest(s);
  }

  lemma {:induction false} MLoadKeepsInv(s: State, t: Tid)
    requires Inv(s) && t < |s.pcs|
    requires s.pcs[t].MHead? || s.pcs[t].MTail? || (s.pcs[t].MCas? && s.sh.consHead != s.pcs[t].head)
    ensures Inv(McStep(s, t))
  {
    var s' := McStep(s, t);
    assert At(s, t);
    MLoadIsLocal(s, t);
    AloneKept(s, s', t);
    LocalStepKeepsInv(s, s', t);
  }

  lemma {:induction false} MWaitKeepsInv(s: State, t: Tid)
    requires Inv(s) && t < |s.pcs| && s.pcs[t].MWait?
    ensures Inv(McStep(s, t))
  {
    var s' := McStep(s, t);
    assert At(s, t);
    AloneKept(s, s', t);
    SlotInjective(s.h.ct, s.h.tk[t], s.size);
    LocalStepKeepsInv(s, s', t);
  }

  lemma {:induction false} ScLocalKeepsInv(s: State, t: Tid)
    requires Inv(s) && t < |s.pcs| && (s.pcs[t].SHead? || s.pcs[t].STail?)
    ensures Inv(ScStep(s, t))
  {
    var s' := ScStep(s, t);
    assert At(s, t);
    AloneKept(s, s', t);
    EmptyTest(s);
    LocalStepKeepsInv(s, s', t);
  }

  lemma {:induction false} PeekTestKeepsInv(s: State, t: Tid)
    requires Inv(s) && t < |s.pcs| && (s.pcs[t].KHead? || s.pcs[t].KTail?)
    ensures Inv(PeekStep(s, t))
  {
    var s' := PeekStep(s, t);
    assert At(s, t);
    AloneKept(s, s', t);
    EmptyTest(s);
    LocalStepKeepsInv(s, s', t);
  }

  lemma {:induction false} PeekReadKeepsInv(s: State, t: Tid)
    requires Inv(s) && t < |s.pcs| && (s.pcs[t].KHeadAgain? || s.pcs[t].KSlot?)
    ensures Inv(PeekStep(s, t))
  {
    var s' := PeekStep(s, t);
    assert At(s, t);
    AloneKept(s, s', t);
    assert Stored(s, s.h.ch);
    LocalStepKeepsInv(s, s', t);
  }

  /** The slot read still holds the ticket's buffer. */
  lemma {:induction false} ReadIsLocal(s: State, t: Tid)
    requires Recorded(s) && t < |s.pcs| && (s.pcs[t].MRead? || s.pcs[t].SRead?) && At(s, t) && Stored(s, s.h.tk[t])
    ensures Local(s, Next(s, Step(t)), t)
  {
  }

  lemma {:induction false} ReadKeepsInv(s: State, t: Tid)
    requires Inv(s) && t < |s.pcs| && (s.pcs[t].MRead? || s.pcs[t].SRead?)
    ensures Inv(Next(s, Step(t)))
  {
    var s' := Next(s, Step(t));
    assert At(s, t);
    assert Stored(s, s.h.tk[t]);
    ReadIsLocal(s, t);
    AloneKept(s, s', t);
    LocalStepKeepsInv(s, s', t);
  }

  lemma {:induction false} ProducerTicketsKept(s: State, s': State, t: Tid)
    requires Inv(s) && Recorded(s') && MovesOnly(s, s', t) && !OwnsProd(s.pcs[t]) && !OwnsProd(s'.pcs[t])
    requires s'.h.pt == s.h.pt && s'.h.ph == s.h.ph && s'.h.items == s.h.items && s.h.ct <= s'.h.ct
    requires s'.sh.ring == s.sh.ring && s'.sh.bufs == s.sh.bufs && s'.sh.bytes == s.sh.bytes
    ensures forall k: nat :: s'.h.pt <= k < s'.h.ph ==> HeldByProducer(s', k)
    ensures forall k: nat :: s'.h.ct <= k < s'.h.pt ==> Stored(s', k)
    ensures Settled(s')
  {
    forall k: nat | s'.h.pt <= k < s'.h.ph ensures HeldByProducer(s', k) { assert HeldByProducer(s, k); }
    forall k: nat | s'.h.ct <= k < s'.h.pt ensures Stored(s', k) { assert Stored(s, k); }
  }

  /** Taking ticket `ch`, by compare-and-set or by the lock-holder's plain store. */
  ghost predicate TakesTicket(s: State, s': State, t: Tid)
    requires Inv(s)
  {
    && MovesOnly(s, s', t) && Consuming(s.pcs[t]) && !OwnsCons(s.pcs[t])
    && OwnsCons(s'.pcs[t]) && (Exclusive(s'.pcs[t]) ==> Exclusive(s.pcs[t]))
    && s'.sh == s.sh.(consHead := NextIndex(s.sh.consHead, s.size))
    && s'.h == s.h.(ch := s.h.ch + 1, takers := s.h.takers + [t], tk := s.h.tk[t := s.h.ch])
    && Recorded(s') && At(s', t)
  }

  lemma {:induction false} TakeKeepsThreads(s: State, s': State, t: Tid)
    requires Inv(s) && TakesTicket(s, s', t)
    ensures FieldsAreSlots(s') && Threads(s')
  {
    NextIndexIsNextSlot(s.h.ch, s.size);
    forall u: nat | u < |s.pcs| && u != t ensures Rely(s, s', u) { assert At(s, u) && AloneAt(s, u); }
    ThreadsKept(s, s', t);
  }

  lemma {:induction false} TakeKeepsInv(s: State, s': State, t: Tid)
    requires Inv(s) && TakesTicket(s, s', t)
    ensures Inv(s')
  {
    TakeKeepsThreads(s, s', t);
    AloneKept(s, s', t);
    ProducerTicketsKept(s, s', t);
    forall k: nat | s'.h.ct <= k < s'.h.ch ensures HeldByConsumer(s', k) {
      if k < s.h.ch { assert HeldByConsumer(s, k); }
    }
    forall k: nat | k < s'.h.ct ensures Delivered(s', k) { assert Delivered(s, k); }
  }

  lemma {:induction false} MCasKeepsInv(s: State, t: Tid)
    requires Inv(s) && t < |s.pcs| && s.pcs[t].MCas? && s.sh.consHead == s.pcs[t].head && Room(s, Step(t))
    ensures Inv(McStep(s, t))
  {
    EmptyTest(s);
    NextIndexInRange(s.sh.consHead, s.size);
    TakeKeepsInv(s, McStep(s, t), t);
  }

  lemma {:induction false} SStoreKeepsInv(s: State, t: Tid)
    requires Inv(s) && t < |s.pcs| && s.pcs[t].SStore?
    ensures Inv(ScStep(s, t))
  {
    assert At(s, t);
    NextIndexInRange(s.sh.consHead, s.size);
    TakeKeepsInv(s, ScStep(s, t), t);
  }

  /** The publishing consumer owns the oldest ticket. */
  lemma {:induction false} PublisherOwnsTail(s: State, t: Tid)
    requires Inv(s) && t < |s.pcs| && (s.pcs[t].MPublish? || s.pcs[t].SPublish?)
    ensures s.h.tk[t] == s.h.ct
  {
    assert At(s, t);
    if s.pcs[t].SPublish? {
      assert AloneAt(s, t) && HeldByConsumer(s, s.h.ct);
      assert Consuming(s.pcs[s.h.takers[s.h.ct]]);
    }
  }

  ghost predicate Releases(s: State, s': State, t: Tid)
    requires Inv(s)
  {
    && MovesOnly(s, s', t) && (s.pcs[t].MPublish? || s.pcs[t].SPublish?) && s'.pcs[t].Returned?
    && s'.sh == s.sh.(consTail := NextIndex(s.pcs[t].head, s.size))
    && s'.h == s.h.(ct := s.h.ct + 1, out := s.h.out + [s.pcs[t].buf])
  }

  lemma {:induction false} ReleaseKeepsThreads(s: State, s': State, t: Tid)
    requires Inv(s) && Releases(s, s', t)
    ensures Recorded(s') && FieldsAreSlots(s') && Threads(s')
  {
    assert At(s, t);
    PublisherOwnsTail(s, t);
    NextIndexIsNextSlot(s.h.ct, s.size);
    assert Recorded(s') && At(s', t);
    forall u: nat | u < |s.pcs| && u != t ensures Rely(s, s', u) { assert At(s, u); }
    ThreadsKept(s, s', t);
  }

  lemma {:induction false} ReleaseKeepsInv(s: State, s': State, t: Tid)
    requires Inv(s) && Releases(s, s', t)
    ensures Inv(s')
  {
    ReleaseKeepsThreads(s, s', t);
    AloneKept(s, s', t);
    ProducerTicketsKept(s, s', t);
    assert At(s, t);
    PublisherOwnsTail(s, t);
    forall k: nat | s'.h.ct <= k < s'.h.ch ensures HeldByConsumer(s', k) { assert HeldByConsumer(s, k); }
    forall k: nat | k < s'.h.ct ensures Delivered(s', k) {
      if k < s.h.ct { assert Delivered(s, k); }
    }
  }

  lemma {:induction false} McKeepsInv(s: State, t: Tid)
    requires Inv(s) && Enabled(s, Step(t)) && !Producing(s.pcs[t]) && !Exclusive(s.pcs[t]) && Room(s, Step(t))
    ensures Inv(McStep(s, t))
  {
    match s.pcs[t]
    case MHead => MLoadKeepsInv(s, t);
    case MTail(_) => MLoadKeepsInv(s, t);
    case MCas(i) => if s.sh.consHead == i { MCasKeepsInv(s, t); } else { MLoadKeepsInv(s, t); }
    case MRead(_) => ReadKeepsInv(s, t);
    case MWait(_, _) => MWaitKeepsInv(s, t);
    case MPublish(_, _) => ReleaseKeepsInv(s, McStep(s, t), t);
  }

  lemma {:induction false} ScKeepsInv(s: State, t: Tid)
    requires Inv(s) && t < |s.pcs|
    requires s.pcs[t].SHead? || s.pcs[t].STail? || s.pcs[t].SStore? || s.pcs[t].SRead? || s.pcs[t].SPublish?
    ensures Inv(ScStep(s, t))
  {
    match s.pcs[t]
    case SHead(_) => ScLocalKeepsInv(s, t);
    case STail(_, _) => ScLocalKeepsInv(s, t);
    case SStore(_, _) => SStoreKeepsInv(s, t);
    case SRead(_, _) => ReadKeepsInv(s, t);
    case SPublish(_, _, _) => ReleaseKeepsInv(s, ScStep(s, t), t);
  }

  // ------------------------------------------------------------------ every step

  lemma {:induction false} InvIsKept(s: State, a: Action)
    requires Inv(s) && Enabled(s, a) && Room(s, a)
    ensures Inv(Next(s, a))
  {
    if !a.Step? {
      StartKeepsInv(s, a);
    } else if Producing(s.pcs[a.t]) {
      EnqueueKeepsInv(s, a.t);
    } else if s.pcs[a.t].KHead? || s.pcs[a.t].KTail? {
      PeekTestKeepsInv(s, a.t);
    } else if s.pcs[a.t].KHeadAgain? || s.pcs[a.t].KSlot? {
      PeekReadKeepsInv(s, a.t);
    } else if Exclusive(s.pcs[a.t]) {
      ScKeepsInv(s, a.t);
    } else {
      McKeepsInv(s, a.t);
    }
  }

  lemma {:induction false} InitialInv(s: State)
    requires Initial(s)
    ensures Inv(s)
  {
    assert Slot(0, s.size) == 0;
  }
}
