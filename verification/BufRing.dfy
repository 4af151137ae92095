/**
 The ring as sequential code over its array, for callers that do not overlap: the same
 loops, on fields that nobody else moves.
 */
module BufRing {
  import opened Options
  import opened RingArithmetic

  const ENOBUFS: int := 55

  /** What the ring stands for: a queue of at most `cap` buffers, and the two counters. */
  datatype Fifo<T> = Fifo(items: seq<T>, cap: nat, bufs: nat, bytes: nat)

  function Push<T>(q: Fifo<T>, x: T, nbytes: int): (Fifo<T>, int) {
    if |q.items| >= q.cap then (q, ENOBUFS)
    else (q.(items := q.items + [x], bufs := (q.bufs + 1) % WORD64, bytes := (q.bytes + nbytes) % WORD64), 0)
  }

  function Front<T>(q: Fifo<T>): Option<T> { if q.items == [] then None else Some(q.items[0]) }

  function Pop<T>(q: Fifo<T>): Fifo<T> { if q.items == [] then q else q.(items := q.items[1..]) }

  /** The buffers under tickets `lo` to `hi`, read off the slots. */
  ghost function Window<T>(slots: seq<T>, lo: nat, hi: nat): (s: seq<T>)
    requires |slots| > 0 && lo <= hi
    ensures |s| == hi - lo && forall i: nat :: i < hi - lo ==> s[i] == slots[Slot(lo + i, |slots|)]
  {
    seq(hi - lo, i requires 0 <= i < hi - lo => slots[Slot(lo + i, |slots|)])
  }

  /** Writing the slot of the next ticket extends the window and changes nothing in it. */
  lemma {:induction false} WindowGrows<T>(slots: seq<T>, lo: nat, hi: nat, x: T)
    requires |slots| > 0 && lo <= hi < lo + |slots|
    ensures Window(slots[Slot(hi, |slots|) := x], lo, hi + 1) == Window(slots, lo, hi) + [x]
  {
    forall k: nat | lo <= k < hi ensures Slot(k, |slots|) != Slot(hi, |slots|) { SlotInjective(k, hi, |slots|); }
  }

  lemma {:induction false} WindowShrinks<T>(slots: seq<T>, lo: nat, hi: nat)
    requires |slots| > 0 && lo < hi
    ensures Window(slots, lo + 1, hi) == Window(slots, lo, hi)[1..]
    ensures Window(slots, lo, hi)[0] == slots[Slot(lo, |slots|)]
  {
  }

  class Ring<T> {
    var prodHead: nat
    var prodTail: nat
    var consHead: nat
    var consTail: nat
    var prodBufs: nat
    var prodBytes: nat
    var drops: nat
    const size: nat
    const mask: nat
    const ring: array<T>
    ghost var ct: nat
    ghost var pt: nat

    ghost predicate Valid()
      reads this
    {
      && 0 < size < WORD32 / 2 && PowerOfTwo(size) && mask == size - 1 && ring.Length == size
      && ct <= pt < ct + size
      && prodHead == prodTail == Slot(pt, size) && consHead == consTail == Slot(ct, size)
    }

    ghost function Contents(): (s: seq<T>)
      requires Valid()
      reads this, ring
      ensures |s| == pt - ct
    {
      Window(ring[..], ct, pt)
    }

    ghost function View(): Fifo<T>
      requires Valid()
      reads this, ring
    {
      Fifo(Contents(), size - 1, prodBufs, prodBytes)
    }

    /** buf_ring_alloc is only declared; an empty ring with a power-of-two size is what it returns. */
    constructor (size: nat, filler: T)
      requires 0 < size < WORD32 / 2 && PowerOfTwo(size)
      ensures Valid() && fresh(ring) && this.size == size && drops == 0
      ensures View() == Fifo([], size - 1, 0, 0)
    {
      this.size, mask := size, size - 1;
      ring := new T[size](_ => filler);
      prodHead, prodTail, consHead, consTail := 0, 0, 0, 0;
      prodBufs, prodBytes, drops := 0, 0, 0;
      ct, pt := 0, 0;
    }

    lemma {:induction false} Tests()
      requires Valid()
      ensures NextIndex(prodHead, size) == consTail <==> pt + 1 == ct + size
      ensures consHead == prodTail <==> pt == ct
    {
      FullTestIsExact(ct, pt, size);
      SlotInjective(ct, pt, size);
    }

    /** atomic_cmpset_int on the producer head. */
    method CmpsetProdHead(wanted: nat, src: nat) returns (success: bool)
      modifies this`prodHead
      ensures success == (old(prodHead) == wanted)
      ensures prodHead == if success then src else old(prodHead)
    {
      success := prodHead == wanted;
      if success {
        prodHead := src;
      }
    }

    method CmpsetConsHead(wanted: nat, src: nat) returns (success: bool)
      modifies this`consHead
      ensures success == (old(consHead) == wanted)
      ensures consHead == if success then src else old(consHead)
    {
      success := consHead == wanted;
      if success {
        consHead := src;
      }
    }

    /** The reservation loop: it fails exactly on a full ring, else the head moves on. */
    method Reserve() returns (reserved: bool, head: nat)
      requires Valid()
      modifies this`prodHead
      ensures head == old(prodHead) && reserved == (pt + 1 < ct + size)
      ensures prodHead == if reserved then Slot(pt + 1, size) else old(prodHead)
    {
      Tests();
      NextIndexIsNextSlot(pt, size);
      head, reserved := prodHead, false;
      while !reserved
        invariant !reserved ==> prodHead == old(prodHead)
        invariant reserved ==> prodHead == NextIndex(old(prodHead), size) != consTail
        invariant head == old(prodHead)
        decreases if reserved then 0 else 1
      {
        head := prodHead;
        var tail := consTail;
        var next := NextIndex(head, size);
        if next == tail {
          return;
        }
        reserved := CmpsetProdHead(head, next);
      }
    }

    /** buf_ring_enqueue_bytes: ENOBUFS exactly when full, else the buffer goes to the back. */
    method EnqueueBytes(buf: T, nbytes: int) returns (err: int)
      requires Valid()
      modifies this`prodHead, this`prodTail, this`prodBufs, this`prodBytes, this`pt, ring
      ensures Valid() && (View(), err) == Push(old(View()), buf, nbytes)
    {
      var reserved, head := Reserve();
      if !reserved {
        return ENOBUFS;
      }
      WindowGrows(ring[..], ct, pt, buf);
      NextIndexIsNextSlot(pt, size);
      ring[head] := buf;
      assert ring[..] == old(ring[..])[head := buf];
      assert prodTail == head;  // no enqueue precedes us: the spin-wait is over at once
      prodBufs := (prodBufs + 1) % WORD64;
      prodBytes := (prodBytes + nbytes) % WORD64;
      prodTail := NextIndex(head, size);
      pt := pt + 1;
      err := 0;
      assert Contents() == old(Contents()) + [buf];
    }

    /** The consumer's reservation loop: it fails exactly on an empty ring. */
    method Take() returns (taken: bool, head: nat)
      requires Valid()
      modifies this`consHead
      ensures head == old(consHead) && taken == (ct < pt)
      ensures consHead == if taken then Slot(ct + 1, size) else old(consHead)
    {
      Tests();
      NextIndexIsNextSlot(ct, size);
      head, taken := consHead, false;
      while !taken
        invariant !taken ==> consHead == old(consHead)
        invariant taken ==> consHead == NextIndex(old(consHead), size) && old(consHead) != prodTail
        invariant head == old(consHead)
        decreases if taken then 0 else 1
      {
        head := consHead;
        var tail := prodTail;
        var next := NextIndex(head, size);
        if head == tail {
          return;
        }
        taken := CmpsetConsHead(head, next);
      }
    }

    /** buf_ring_dequeue_mc: NULL exactly when empty, else the oldest buffer. */
    method DequeueMc() returns (r: Option<T>)
      requires Valid()
      modifies this`consHead, this`consTail, this`ct
      ensures Valid() && r == Front(old(View())) && View() == Pop(old(View()))
    {
      var taken, head := Take();
      if !taken {
        return None;
      }
      WindowShrinks(ring[..], ct, pt);
      NextIndexIsNextSlot(ct, size);
      var buf := ring[head];
      assert consTail == head;  // no dequeue precedes us
      consTail := NextIndex(head, size);
      ct := ct + 1;
      r := Some(buf);
    }

    /** buf_ring_dequeue_sc */
    method DequeueSc() returns (r: Option<T>)
      requires Valid()
      modifies this`consHead, this`consTail, this`ct
      ensures Valid() && r == Front(old(View())) && View() == Pop(old(View()))
    {
      Tests();
      var head, tail := consHead, prodTail;
      var next := NextIndex(head, size);
      if head == tail {
        return None;
      }
      NextIndexIsNextSlot(ct, size);
      WindowShrinks(ring[..], ct, pt);
      consHead := next;
      var buf := ring[head];
      consTail := next;
      ct := ct + 1;
      r := Some(buf);
    }

    /** buf_ring_peek */
    method Peek() returns (r: Option<T>)
      requires Valid()
      ensures r == Front(View())
    {
      Tests();
      if consHead == prodTail {
        return None;
      }
      r := Some(ring[consHead]);
    }

    /** buf_ring_full */
    method IsFull() returns (full: bool)
      requires Valid()
      ensures full == (|Contents()| == size - 1)
    {
      Tests();
      full := NextIndex(prodHead, size) == consTail;
    }

    /** buf_ring_empty */
    method IsEmpty() returns (empty: bool)
      requires Valid()
      ensures empty == (Contents() == [])
    {
      Tests();
      empty := consHead == prodTail;
    }

    /** buf_ring_count, in 32-bit unsigned arithmetic. */
    method Count() returns (n: nat)
      requires Valid()
      ensures n == |Contents()|
    {
      CountOf(ct, pt, size);
      n := And((size + prodTail - consTail) % WORD32, mask);
    }
  }

  // ------------------------------------------------------------------ every operation sequence

  datatype Op<T> = EnqueueOp(x: T, nbytes: int) | McOp | ScOp | PeekOp | CountOp

  datatype Answer<T> = Code(err: int) | Buffer(r: Option<T>) | Number(n: nat)

  function FifoStep<T>(q: Fifo<T>, op: Op<T>): (Fifo<T>, Answer<T>) {
    match op
    case EnqueueOp(x, n) => var (q', e) := Push(q, x, n); (q', Code(e))
    case McOp => (Pop(q), Buffer(Front(q)))
    case ScOp => (Pop(q), Buffer(Front(q)))
    case PeekOp => (q, Buffer(Front(q)))
    case CountOp => (q, Number(|q.items|))
  }

  function FifoRun<T>(q: Fifo<T>, ops: seq<Op<T>>): (Fifo<T>, seq<Answer<T>>)
    decreases |ops|
  {
    if ops == [] then (q, [])
    else
      var (q', rest) := FifoRun(q, ops[..|ops| - 1]);
      var (e, a) := FifoStep(q', ops[|ops| - 1]);
      (e, rest + [a])
  }

  /** Any sequence of calls on the ring answers as the bounded queue does. */
  method Replay<T>(br: Ring<T>, ops: seq<Op<T>>) returns (answers: seq<Answer<T>>)
    requires br.Valid()
    modifies br, br.ring
    ensures br.Valid() && (br.View(), answers) == FifoRun(old(br.View()), ops)
  {
    answers := [];
    for k := 0 to |ops|
      invariant br.Valid() && (br.View(), answers) == FifoRun(old(br.View()), ops[..k])
    {
      assert ops[..k + 1][..k] == ops[..k];
      match ops[k] {
        case EnqueueOp(x, n) =>
          var e := br.EnqueueBytes(x, n);
          answers := answers + [Code(e)];
        case McOp =>
          var r := br.DequeueMc();
          answers := answers + [Buffer(r)];
        case ScOp =>
          var r := br.DequeueSc();
          answers := answers + [Buffer(r)];
        case PeekOp =>
          var r := br.Peek();
          answers := answers + [Buffer(r)];
        case CountOp =>
          var n := br.Count();
          answers := answers + [Number(n)];
      }
    }
    assert ops[..|ops|] == ops;
  }

  /** What a call had accepted, and what it handed out. */
  function PushedBy<T>(q: Fifo<T>, op: Op<T>): seq<T> {
    if op.EnqueueOp? && Push(q, op.x, op.nbytes).1 == 0 then [op.x] else []
  }

  function PoppedBy<T>(q: Fifo<T>, op: Op<T>): seq<T> {
    if (op.McOp? || op.ScOp?) && Front(q).Some? then [Front(q).value] else []
  }

  function Pushed<T>(q: Fifo<T>, ops: seq<Op<T>>): seq<T>
    decreases |ops|
  {
    if ops == [] then []
    else Pushed(q, ops[..|ops| - 1]) + PushedBy(FifoRun(q, ops[..|ops| - 1]).0, ops[|ops| - 1])
  }

  function Popped<T>(q: Fifo<T>, ops: seq<Op<T>>): seq<T>
    decreases |ops|
  {
    if ops == [] then []
    else Popped(q, ops[..|ops| - 1]) + PoppedBy(FifoRun(q, ops[..|ops| - 1]).0, ops[|ops| - 1])
  }

  lemma {:induction false} StepIsFifo<T>(q: Fifo<T>, op: Op<T>)
    requires |q.items| <= q.cap
    ensures
      var q' := FifoStep(q, op).0;
      q.items + PushedBy(q, op) == PoppedBy(q, op) + q'.items && |q'.items| <= q'.cap == q.cap
  {
  }

  lemma {:induction false} Compose<T>(a: seq<T>, pushed: seq<T>, popped: seq<T>, b: seq<T>, push: seq<T>, pop: seq<T>, c: seq<T>)
    requires a + pushed == popped + b && b + push == pop + c
    ensures a + (pushed + push) == (popped + pop) + c
  {
    calc {
      a + (pushed + push);
      (a + pushed) + push;
      popped + (b + push);
      (popped + pop) + c;
    }
  }

  /** First in, first out, within the capacity, over every run. */
  lemma {:induction false} RunIsFifo<T>(q: Fifo<T>, ops: seq<Op<T>>)
    requires |q.items| <= q.cap
    ensures q.items + Pushed(q, ops) == Popped(q, ops) + FifoRun(q, ops).0.items
    ensures |FifoRun(q, ops).0.items| <= q.cap && FifoRun(q, ops).0.cap == q.cap
    decreases |ops|
  {
    if ops != [] {
      var before, op := ops[..|ops| - 1], ops[|ops| - 1];
      RunIsFifo(q, before);
      var q1 := FifoRun(q, before).0;
      var q2 := FifoStep(q1, op).0;
      StepIsFifo(q1, op);
      Compose(q.items, Pushed(q, before), Popped(q, before), q1.items, PushedBy(q1, op), PoppedBy(q1, op), q2.items);
    }
  }

  /**
   So every answer is determined by what went in and came out before: with `all` the buffers
   ever in the queue and `k` of them gone, an enqueue is refused exactly when `cap` are
   left, a dequeue or peek returns `all[k]`, and the count is what is left.
   */
  lemma {:induction false} AnswersTellHistory<T>(q: Fifo<T>, before: seq<Op<T>>, op: Op<T>)
    requires |q.items| <= q.cap
    ensures
      var (all, k) := (q.items + Pushed(q, before), |Popped(q, before)|);
      var (run, run') := (FifoRun(q, before), FifoRun(q, before + [op]));
      && k <= |all| && run'.1 == run.1 + [
           match op
           case EnqueueOp(_, _) => Code(if |all| - k < q.cap then 0 else ENOBUFS)
           case CountOp => Number(|all| - k)
           case _ => Buffer(if k == |all| then None else Some(all[k]))]
  {
    RunIsFifo(q, before);
    var ops := before + [op];
    assert ops[..|ops| - 1] == before && ops[|ops| - 1] == op;
    var all, out, left := q.items + Pushed(q, before), Popped(q, before), FifoRun(q, before).0.items;
    assert all == out + left && (left != [] ==> all[|out|] == left[0]);
  }
}
