/**
 The interface output queue as values: a driver-owned stage in front of the main queue,
 and the counters around them. ALTQ and the token bucket are off.
 */
module IfQueueSpec {
  import opened Options
  import opened Sequences
  import opened RingArithmetic

  datatype Queue<M> = Queue(drv: seq<M>, main: seq<M>, maxlen: int, drvMaxlen: int, drops: nat)

  /** The one queue the two stages stand for. */
  function Whole<M>(q: Queue<M>): seq<M> { q.drv + q.main }

  predicate Full<M>(q: Queue<M>) { |q.main| >= q.maxlen }

  function Enqueue<M>(q: Queue<M>, m: M): Queue<M> {
    if Full(q) then q.(drops := q.drops + 1) else q.(main := q.main + [m])
  }

  /** How many packets one bulk refill of the empty driver stage moves, given `n` waiting. */
  function Refill(n: nat, drvMaxlen: int): (k: nat)
    ensures k <= n && k <= (if drvMaxlen > 0 then drvMaxlen else 0)
    ensures k == n || k >= drvMaxlen
  {
    if drvMaxlen <= 0 then 0 else if n <= drvMaxlen then n else drvMaxlen
  }

  function DrvDequeue<M>(q: Queue<M>): (Queue<M>, Option<M>) {
    if q.drv != [] then (q.(drv := q.drv[1..]), Some(q.drv[0]))
    else if q.main == [] then (q, None)
    else
      var k := Refill(|q.main| - 1, q.drvMaxlen);
      (q.(drv := q.main[1..k + 1], main := q.main[k + 1..]), Some(q.main[0]))
  }

  function DrvPrepend<M>(q: Queue<M>, m: M): Queue<M> { q.(drv := [m] + q.drv) }

  function DrvPurge<M>(q: Queue<M>): Queue<M> { q.(drv := [], main := []) }

  // ------------------------------------------------------------------ one deque

  /** Whatever the stage sizes, the driver takes the front of the whole queue. */
  lemma {:induction false} DrvDequeueTakesFront<M>(q: Queue<M>)
    ensures
      var (q', m) := DrvDequeue(q);
      if Whole(q) == [] then m == None && q' == q
      else m == Some(Whole(q)[0]) && Whole(q') == Whole(q)[1..]
  {
    var (q', _) := DrvDequeue(q);
    if q.drv != [] {
      assert Whole(q)[1..] == q.drv[1..] + q.main;
    } else if q.main != [] {
      assert Whole(q) == q.main;
      RefillKeepsOrder(q.main, Refill(|q.main| - 1, q.drvMaxlen));
      assert Whole(q') == q.main[1..];
    }
  }

  lemma {:induction false} RefillKeepsOrder<M>(main: seq<M>, k: nat)
    requires k < |main|
    ensures main[1..k + 1] + main[k + 1..] == main[1..]
  {
  }

  // ------------------------------------------------------------------ whole runs

  /** `len` and `mcast` are the attributes of the packet that the counters use. */
  datatype Op<M> =
    | HandOff(m: M, len: int, mcast: bool, adj: int)
    | Take
    | GiveBack(m: M)
    | Purge

  /**
   `held` are the packets the driver has taken and not given back, `last` the most recent
   one while it is still held. `refused` and `bytes` are the plain, unbounded tallies.
   */
  datatype Net<M> = Net(
    q: Queue<M>, obytes: nat, omcasts: nat,
    handed: seq<M>, freed: seq<M>, held: multiset<M>, last: Option<M>,
    refused: nat, bytes: int, mcasts: nat)

  /** A driver gives back only what it holds. */
  ghost predicate Allowed<M>(n: Net<M>, op: Op<M>) { op.GiveBack? ==> op.m in n.held }

  /** IFQ_HANDOFF_ADJ, IFQ_DRV_DEQUEUE, IFQ_DRV_PREPEND, IFQ_DRV_PURGE. */
  ghost function Apply<M>(n: Net<M>, op: Op<M>): Net<M> {
    match op
    case HandOff(m, len, mcast, adj) =>
      var n' := n.(q := Enqueue(n.q, m), handed := n.handed + [m]);
      if Full(n.q) then n'.(freed := n.freed + [m], refused := n.refused + 1)
      else
        n'.(obytes := (n.obytes + len + adj) % WORD64,
            omcasts := if mcast then (n.omcasts + 1) % WORD64 else n.omcasts,
            bytes := n.bytes + len + adj, mcasts := if mcast then n.mcasts + 1 else n.mcasts)
    case Take =>
      var (q', m) := DrvDequeue(n.q);
      n.(q := q', last := m, held := if m.Some? then n.held + multiset{m.value} else n.held)
    case GiveBack(m) =>
      n.(q := DrvPrepend(n.q, m), held := n.held - multiset{m}, last := None)
    case Purge =>
      n.(q := DrvPurge(n.q), freed := n.freed + Whole(n.q))
  }

  ghost predicate AllAllowed<M>(n: Net<M>, ops: seq<Op<M>>)
    decreases |ops|
  {
    ops == [] || (Allowed(n, ops[0]) && AllAllowed(Apply(n, ops[0]), ops[1..]))
  }

  ghost function Run<M>(n: Net<M>, ops: seq<Op<M>>): Net<M>
    decreases |ops|
  {
    if ops == [] then n else Run(Apply(n, ops[0]), ops[1..])
  }

  ghost predicate Fresh<M>(n: Net<M>) {
    && n.q.drv == [] && n.q.main == [] && n.q.drops == 0 && n.obytes == 0 && n.omcasts == 0
    && n.handed == [] && n.freed == [] && n.held == multiset{} && n.last == None
    && n.refused == 0 && n.bytes == 0 && n.mcasts == 0
  }

  /** Every packet handed in is in exactly one place, and the counters are exact. */
  ghost predicate Conserved<M>(n: Net<M>) {
    && multiset(n.handed) == multiset(n.q.drv) + multiset(n.q.main) + n.held + multiset(n.freed)
    && n.q.drops == n.refused
    && n.obytes == n.bytes % WORD64 && n.omcasts == n.mcasts % WORD64
  }

  lemma {:induction false} TakeConserves<M>(n: Net<M>)
    requires Conserved(n)
    ensures Conserved(Apply(n, Take))
  {
    var n' := Apply(n, Take);
    DrvDequeueTakesFront(n.q);
    if Whole(n.q) != [] {
      var w := Whole(n.q);
      assert w == [w[0]] + w[1..];
      assert multiset(w) == multiset{w[0]} + multiset(w[1..]);
      assert multiset(Whole(n'.q)) == multiset(n'.q.drv) + multiset(n'.q.main);
    }
  }

  lemma {:induction false} RefusalConserves<M>(n: Net<M>, m: M, len: int, mcast: bool, adj: int)
    requires Conserved(n) && Full(n.q)
    ensures Conserved(Apply(n, HandOff(m, len, mcast, adj)))
  {
    assert multiset(n.handed + [m]) == multiset(n.handed) + multiset{m};
    assert multiset(n.freed + [m]) == multiset(n.freed) + multiset{m};
  }

  lemma {:induction false} AcceptanceConserves<M>(n: Net<M>, m: M, len: int, mcast: bool, adj: int)
    requires Conserved(n) && !Full(n.q)
    ensures Conserved(Apply(n, HandOff(m, len, mcast, adj)))
  {
    assert multiset(n.handed + [m]) == multiset(n.handed) + multiset{m};
    assert multiset(n.q.main + [m]) == multiset(n.q.main) + multiset{m};
    CountersAdd(n, len, adj);
  }

  lemma {:induction false} CountersAdd<M>(n: Net<M>, len: int, adj: int)
    requires Conserved(n)
    ensures (n.obytes + len + adj) % WORD64 == (n.bytes + len + adj) % WORD64
    ensures (n.omcasts + 1) % WORD64 == (n.mcasts + 1) % WORD64
  {
    AddWord(n.bytes, len + adj);
    AddWord(n.mcasts, 1);
  }

  lemma {:induction false} GiveBackConserves<M>(n: Net<M>, m: M)
    requires Conserved(n) && m in n.held
    ensures Conserved(Apply(n, GiveBack(m)))
  {
    assert multiset([m] + n.q.drv) == multiset{m} + multiset(n.q.drv);
    assert n.held == (n.held - multiset{m}) + multiset{m};
  }

  lemma {:induction false} PurgeConserves<M>(n: Net<M>)
    requires Conserved(n)
    ensures Conserved(Apply(n, Purge))
  {
    assert multiset(n.freed + Whole(n.q)) == multiset(n.freed) + (multiset(n.q.drv) + multiset(n.q.main));
  }

  lemma {:induction false} ApplyConserves<M>(n: Net<M>, op: Op<M>)
    requires Conserved(n) && Allowed(n, op)
    ensures Conserved(Apply(n, op))
  {
    match op
    case HandOff(m, len, mcast, adj) =>
      if Full(n.q) {
        RefusalConserves(n, m, len, mcast, adj);
      } else {
        AcceptanceConserves(n, m, len, mcast, adj);
      }
    case Take => TakeConserves(n);
    case GiveBack(m) => GiveBackConserves(n, m);
    case Purge => PurgeConserves(n);
  }

  /** Conservation over every run. */
  lemma {:induction false} RunConserves<M>(n: Net<M>, ops: seq<Op<M>>)
    requires Conserved(n) && AllAllowed(n, ops)
    ensures Conserved(Run(n, ops))
    decreases |ops|
  {
    if ops != [] {
      ApplyConserves(n, ops[0]);
      RunConserves(Apply(n, ops[0]), ops[1..]);
    }
  }

  /** When no packet is handed in twice, each is in one place only, and nothing else is anywhere. */
  lemma {:induction false} ExactlyOnePlace<M>(n: Net<M>, ops: seq<Op<M>>, m: M)
    requires Fresh(n) && AllAllowed(n, ops)
    requires Distinct(Run(n, ops).handed)
    ensures
      var e := Run(n, ops);
      multiset(e.q.drv)[m] + multiset(e.q.main)[m] + e.held[m] + multiset(e.freed)[m] ==
      if m in e.handed then 1 else 0
  {
    RunConserves(n, ops);
    DistinctCount(Run(n, ops).handed, m);
    var e := Run(n, ops);
    assert multiset(e.handed)[m] ==
           multiset(e.q.drv)[m] + multiset(e.q.main)[m] + e.held[m] + multiset(e.freed)[m];
  }

  // ------------------------------------------------------------------ the main queue is bounded

  /** The main queue never exceeds its maximum. */
  lemma {:induction false} MainStaysBounded<M>(n: Net<M>, ops: seq<Op<M>>)
    requires |n.q.main| <= n.q.maxlen
    ensures |Run(n, ops).q.main| <= n.q.maxlen == Run(n, ops).q.maxlen
    decreases |ops|
  {
    if ops != [] {
      MainStaysBounded(Apply(n, ops[0]), ops[1..]);
    }
  }

  /**
   At every point of every run a packet handed in is refused exactly when the main queue
   has its maximum length: then it is freed and counted as dropped and nothing else
   changes, else it is appended.
   */
  lemma {:induction false} RefusedExactlyAtMaximum<M>(n: Net<M>, ops: seq<Op<M>>, k: nat)
    requires |n.q.main| <= n.q.maxlen && k < |ops| && ops[k].HandOff?
    ensures
      var (n1, m) := (Run(n, ops[..k]), ops[k].m);
      var n2 := Apply(n1, ops[k]);
      && (n2.q.drops > n1.q.drops <==> |n1.q.main| == n1.q.maxlen)
      && (n2.q.drops > n1.q.drops ==>
            n2.q == n1.q.(drops := n1.q.drops + 1) && n2.freed == n1.freed + [m] &&
            n2.obytes == n1.obytes && n2.omcasts == n1.omcasts)
      && (n2.q.drops == n1.q.drops ==>
            n2.q == n1.q.(main := n1.q.main + [m]) && n2.freed == n1.freed)
  {
    MainStaysBounded(n, ops[..k]);
  }

  // ------------------------------------------------------------------ refinement to one deque

  /** The same operations on a plain deque that refuses exactly the packets in `refuse`. */
  ghost function DequeStep<M>(d: seq<M>, op: Op<M>, refuse: bool): (seq<M>, Option<M>) {
    match op
    case HandOff(m, _, _, _) => (if refuse then d else d + [m], None)
    case Take => if d == [] then (d, None) else (d[1..], Some(d[0]))
    case GiveBack(m) => ([m] + d, None)
    case Purge => ([], None)
  }

  ghost function DequeRun<M>(d: seq<M>, ops: seq<Op<M>>, refusals: seq<bool>): (seq<M>, seq<Option<M>>)
    requires |refusals| == |ops|
    decreases |ops|
  {
    if ops == [] then (d, [])
    else
      var (d', out) := DequeStep(d, ops[0], refusals[0]);
      var (e, outs) := DequeRun(d', ops[1..], refusals[1..]);
      (e, [out] + outs)
  }

  ghost function Refusals<M>(n: Net<M>, ops: seq<Op<M>>): (r: seq<bool>)
    ensures |r| == |ops|
    decreases |ops|
  {
    if ops == [] then [] else [Full(n.q)] + Refusals(Apply(n, ops[0]), ops[1..])
  }

  /** What the driver's takes return, operation by operation. */
  ghost function Taken<M>(n: Net<M>, ops: seq<Op<M>>): seq<Option<M>>
    decreases |ops|
  {
    if ops == [] then []
    else [if ops[0].Take? then Apply(n, ops[0]).last else None] + Taken(Apply(n, ops[0]), ops[1..])
  }

  lemma {:induction false} StepRefinesDeque<M>(n: Net<M>, op: Op<M>)
    ensures
      var n' := Apply(n, op);
      DequeStep(Whole(n.q), op, Full(n.q)) == (Whole(n'.q), if op.Take? then n'.last else None)
  {
    var w := Whole(Apply(n, op).q);
    match op
    case HandOff(m, _, _, _) =>
      if Full(n.q) {
        assert w == Whole(n.q);
      } else {
        assert w == Whole(n.q) + [m];
      }
    case Take => DrvDequeueTakesFront(n.q);
    case GiveBack(m) => assert w == [m] + Whole(n.q);
    case Purge => assert w == [];
  }

  /** For every run and every driver-stage length the two stages behave as that one deque. */
  lemma {:induction false} RunRefinesDeque<M>(n: Net<M>, ops: seq<Op<M>>)
    ensures DequeRun(Whole(n.q), ops, Refusals(n, ops)) == (Whole(Run(n, ops).q), Taken(n, ops))
    decreases |ops|
  {
    if ops != [] {
      var n' := Apply(n, ops[0]);
      StepRefinesDeque(n, ops[0]);
      RunRefinesDeque(n', ops[1..]);
      assert Refusals(n, ops)[1..] == Refusals(n', ops[1..]);
    }
  }

  // ------------------------------------------------------------------ the driver stage is bounded

  /** Every packet given back is the one taken last, not yet given back. */
  ghost predicate Disciplined<M>(n: Net<M>, ops: seq<Op<M>>)
    decreases |ops|
  {
    ops == [] ||
    ((ops[0].GiveBack? ==> n.last == Some(ops[0].m)) && Disciplined(Apply(n, ops[0]), ops[1..]))
  }

  function StageLimit(drvMaxlen: int): nat { if drvMaxlen > 0 then drvMaxlen else 0 }

  ghost predicate StageBounded<M>(n: Net<M>) {
    |n.q.drv| + (if n.last.Some? then 1 else 0) <= StageLimit(n.q.drvMaxlen) + 1
  }

  lemma {:induction false} StageStaysBounded<M>(n: Net<M>, ops: seq<Op<M>>)
    requires StageBounded(n) && Disciplined(n, ops)
    ensures StageBounded(Run(n, ops)) && Run(n, ops).q.drvMaxlen == n.q.drvMaxlen
    ensures |Run(n, ops).q.drv| <= StageLimit(n.q.drvMaxlen) + 1
    decreases |ops|
  {
    if ops != [] {
      StageStaysBounded(Apply(n, ops[0]), ops[1..]);
    }
  }

  /** The bound is met: a refill that fills the stage, and the packet given back. */
  lemma {:induction false} StageBoundIsMet<M>(n: Net<M>)
    requires n.q.drv == [] && |n.q.main| > StageLimit(n.q.drvMaxlen)
    ensures
      var n' := Run(n, [Take, GiveBack(n.q.main[0])]);
      && Disciplined(n, [Take, GiveBack(n.q.main[0])])
      && |n'.q.drv| == StageLimit(n.q.drvMaxlen) + 1
  {
    var m := n.q.main[0];
    var n1 := Apply(n, Take);
    assert [Take, GiveBack(m)][1..] == [GiveBack(m)];
    assert [GiveBack(m)][1..] == [];
    assert Run(n, [Take, GiveBack(m)]) == Run(n1, [GiveBack(m)]);
    assert Run(n1, [GiveBack(m)]) == Apply(n1, GiveBack(m));
  }
}
