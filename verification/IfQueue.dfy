/**
 The interface queues on the heap: mbufs chained through `nextpkt`, with head, tail and
 length, and the driver stage that refills in bulk from the main queue.
 */
module IfQueue {
  import opened Options
  import opened Sequences
  import opened RingArithmetic
  import opened IfQueueSpec

  class Mbuf {
    var nextpkt: Mbuf?
    const len: int
    const mcast: bool

    constructor (len: int, mcast: bool)
      ensures nextpkt == null && this.len == len && this.mcast == mcast
    {
      nextpkt := null;
      this.len := len;
      this.mcast := mcast;
    }
  }

  /** A head/tail/length triple, as both stages of the queue have it. */
  class PktList {
    var head: Mbuf?
    var tail: Mbuf?
    var len: int
    ghost var chain: seq<Mbuf>

    /** The links spell out `chain`: no cycle, the tail last, NULL ends exactly when empty. */
    ghost predicate Valid()
      reads this, chain
    {
      && len == |chain|
      && (chain == [] ==> head == null && tail == null)
      && (chain != [] ==> head == chain[0] && tail == chain[|chain| - 1] && tail.nextpkt == null)
      && (forall i :: 0 <= i < |chain| - 1 ==> chain[i].nextpkt == chain[i + 1])
      && (forall i, j :: 0 <= i < j < |chain| ==> chain[i] != chain[j])
    }

    constructor ()
      ensures Valid() && chain == []
    {
      head, tail, len, chain := null, null, 0, [];
    }

    /** The length and both end pointers agree on emptiness. */
    lemma {:induction false} EmptyAgrees()
      requires Valid()
      ensures head == null <==> chain == []
      ensures tail == null <==> chain == []
      ensures len == 0 <==> chain == []
    {
    }

    /** _IF_ENQUEUE */
    method Enqueue(m: Mbuf)
      requires Valid() && m !in chain
      modifies this, m`nextpkt, if tail == null then {} else {tail}
      ensures Valid() && chain == old(chain) + [m]
    {
      m.nextpkt := null;
      if tail == null {
        head := m;
      } else {
        tail.nextpkt := m;
      }
      tail := m;
      len := len + 1;
      chain := chain + [m];
    }

    /** _IF_PREPEND */
    method Prepend(m: Mbuf)
      requires Valid() && m !in chain
      modifies this, m`nextpkt
      ensures Valid() && chain == [m] + old(chain)
    {
      m.nextpkt := head;
      if tail == null {
        tail := m;
      }
      head := m;
      len := len + 1;
      chain := [m] + chain;
    }

    /** _IF_DEQUEUE */
    method Dequeue() returns (m: Mbuf?)
      requires Valid()
      modifies this, if head == null then {} else {head}
      ensures Valid()
      ensures old(chain) == [] ==> m == null && chain == []
      ensures old(chain) != [] ==> m == old(chain)[0] && chain == old(chain)[1..] && m.nextpkt == null
    {
      m := head;
      if m != null {
        head := m.nextpkt;
        if head == null {
          tail := null;
        }
        m.nextpkt := null;
        len := len - 1;
        chain := chain[1..];
      }
    }

    /** _IF_DRAIN: `freed` lists the m_freem calls in order. */
    method Drain() returns (freed: seq<Mbuf>)
      requires Valid()
      modifies this, chain
      ensures Valid() && chain == [] && freed == old(chain)
    {
      freed := [];
      ghost var k := 0;
      while true
        invariant 0 <= k <= |old(chain)| && Valid()
        invariant freed == old(chain)[..k] && chain == old(chain)[k..]
        decreases |chain|
      {
        assert head != null ==> head == old(chain)[k];
        var m := Dequeue();
        if m == null {
          break;
        }
        freed := freed + [m];
        k := k + 1;
      }
    }
  }

  /** struct ifaltq with ALTQ and the token bucket off. */
  class OutputQueue {
    const main: PktList
    const drv: PktList
    var maxlen: int
    var drvMaxlen: int
    var drops: nat

    ghost predicate Valid()
      reads this, main, drv, main.chain, drv.chain
    {
      && main != drv && main.Valid() && drv.Valid()
      && (forall m :: m in main.chain ==> m !in drv.chain)
    }

    ghost function View(): Queue<Mbuf>
      reads this, main, drv
    {
      Queue(drv.chain, main.chain, maxlen, drvMaxlen, drops)
    }

    constructor (maxlen: int, drvMaxlen: int)
      ensures Valid() && fresh(main) && fresh(drv)
      ensures View() == Queue([], [], maxlen, drvMaxlen, 0)
    {
      main := new PktList();
      drv := new PktList();
      this.maxlen, this.drvMaxlen, drops := maxlen, drvMaxlen, 0;
    }

    /** IFQ_ENQUEUE: a refused packet is freed and counted. */
    method Enqueue(m: Mbuf) returns (accepted: bool, freed: seq<Mbuf>)
      requires Valid() && m !in main.chain && m !in drv.chain
      modifies this`drops, main, m`nextpkt, main.chain
      ensures Valid() && View() == IfQueueSpec.Enqueue(old(View()), m)
      ensures accepted == !Full(old(View())) && freed == if accepted then [] else [m]
      ensures accepted <==> |old(main.chain)| < maxlen
      ensures main.chain == (if accepted then old(main.chain) + [m] else old(main.chain)) && drv.chain == old(drv.chain)
      ensures drops == old(drops) + if accepted then 0 else 1
    {
      assert main.tail != null ==> main.tail in main.chain;
      if main.len >= maxlen {
        freed, accepted := [m], false;
      } else {
        main.Enqueue(m);
        freed, accepted := [], true;
      }
      if !accepted {
        drops := drops + 1;
      }
    }

    /** One round of the refill loop: the front of the main queue goes to the end of the stage. */
    method MoveOne() returns (moved: bool)
      requires Valid()
      modifies main, drv, main.chain, drv.chain
      ensures Valid() && moved == (old(main.chain) != [])
      ensures !moved ==> main.chain == old(main.chain) && drv.chain == old(drv.chain)
      ensures moved ==> main.chain == old(main.chain)[1..] && drv.chain == old(drv.chain) + [old(main.chain)[0]]
    {
      assert main.head != null ==> main.head in main.chain;
      assert drv.tail != null ==> drv.tail in drv.chain;
      var m0 := main.Dequeue();
      if m0 == null {
        return false;
      }
      drv.Enqueue(m0);
      return true;
    }

    /** The bulk refill: packets move from the main queue until the stage is full. */
    method FillStage()
      requires Valid() && drv.chain == []
      modifies main, drv, main.chain
      ensures Valid()
      ensures
        var k := Refill(|old(main.chain)|, drvMaxlen);
        drv.chain == old(main.chain)[..k] && main.chain == old(main.chain)[k..]
    {
      ghost var was := main.chain;
      ghost var k := 0;
      while drv.len < drvMaxlen
        invariant Valid() && 0 <= k <= |was| && k <= StageLimit(drvMaxlen)
        invariant drv.chain == was[..k] && main.chain == was[k..]
        decreases |main.chain|
      {
        var moved := MoveOne();
        if !moved {
          break;
        }
        k := k + 1;
      }
    }

    /** The other half of IFQ_DRV_DEQUEUE: the stage is empty, so take from the main queue and refill. */
    method TakeAndRefill() returns (m: Mbuf?)
      requires Valid() && drv.chain == []
      modifies main, drv, main.chain
      ensures Valid()
      ensures old(main.chain) == [] ==> m == null && main.chain == [] && drv.chain == []
      ensures old(main.chain) != [] ==>
                var k := Refill(|old(main.chain)| - 1, drvMaxlen);
                && m == old(main.chain)[0] && m.nextpkt == null && m !in main.chain && m !in drv.chain
                && drv.chain == old(main.chain)[1..k + 1] && main.chain == old(main.chain)[k + 1..]
    {
      ghost var was := main.chain;
      assert main.head != null ==> main.head in main.chain;
      m := main.Dequeue();
      FillStage();
      if was != [] {
        SliceTail(was, Refill(|was| - 1, drvMaxlen));
      }
    }

    /** IFQ_DRV_DEQUEUE */
    method DrvDequeue() returns (m: Mbuf?)
      requires Valid()
      modifies main, drv, main.chain, drv.chain
      ensures Valid()
      ensures View() == IfQueueSpec.DrvDequeue(old(View())).0
      ensures IfQueueSpec.DrvDequeue(old(View())).1 == if m == null then None else Some(m)
      ensures m != null ==> m.nextpkt == null && m !in main.chain && m !in drv.chain
    {
      assert drv.head != null ==> drv.head in drv.chain;
      m := drv.Dequeue();
      if m == null {
        m := TakeAndRefill();
      }
    }

    /** IFQ_DRV_PREPEND */
    method DrvPrepend(m: Mbuf)
      requires Valid() && m !in main.chain && m !in drv.chain
      modifies drv, m`nextpkt
      ensures Valid() && View() == IfQueueSpec.DrvPrepend(old(View()), m)
    {
      drv.Prepend(m);
    }

    /** IFQ_DRV_PURGE: the stage is walked along its links, then the main queue drained. */
    method DrvPurge() returns (freed: seq<Mbuf>)
      requires Valid()
      modifies main, drv, main.chain
      ensures Valid() && View() == IfQueueSpec.DrvPurge(old(View()))
      ensures freed == old(Whole(View()))
    {
      freed := [];
      var n := drv.head;
      ghost var k := 0;
      while n != null
        invariant 0 <= k <= |drv.chain| && freed == drv.chain[..k]
        invariant n == if k < |drv.chain| then drv.chain[k] else null
        decreases |drv.chain| - k
      {
        var m := n;
        n := m.nextpkt;
        freed := freed + [m];
        k := k + 1;
      }
      drv.head, drv.tail, drv.len, drv.chain := null, null, 0, [];
      var rest := main.Drain();
      freed := freed + rest;
    }
  }

  /** The part of struct ifnet that handing a packet to the output queue touches. */
  class Ifnet {
    const snd: OutputQueue
    var obytes: nat
    var omcasts: nat
    var oactive: bool

    constructor (snd: OutputQueue)
      ensures this.snd == snd && obytes == 0 && omcasts == 0 && !oactive
    {
      this.snd := snd;
      obytes, omcasts, oactive := 0, 0, false;
    }

    /**
     IFQ_HANDOFF_ADJ: `started` says whether if_start is called. A refused packet changes
     nothing but the drop count, and is freed.
     */
    method HandOff(m: Mbuf, adj: int) returns (accepted: bool, started: bool, freed: seq<Mbuf>)
      requires snd.Valid() && m !in snd.main.chain && m !in snd.drv.chain
      modifies this`obytes, this`omcasts, snd`drops, snd.main, m`nextpkt, snd.main.chain
      ensures snd.Valid() && snd.View() == IfQueueSpec.Enqueue(old(snd.View()), m)
      ensures accepted == !Full(old(snd.View())) && freed == if accepted then [] else [m]
      ensures started == (accepted && !oactive)
      ensures obytes == if accepted then (old(obytes) + m.len + adj) % WORD64 else old(obytes)
      ensures omcasts == if accepted && m.mcast then (old(omcasts) + 1) % WORD64 else old(omcasts)
    {
      var len, mcast := m.len, m.mcast;
      accepted, freed := snd.Enqueue(m);
      started := false;
      if accepted {
        obytes := (obytes + len + adj) % WORD64;
        if mcast {
          omcasts := (omcasts + 1) % WORD64;
        }
        if !oactive {
          started := true;
        }
      }
    }
  }

  // ------------------------------------------------------------------ whole runs

  /** The packets a run hands to the interface. */
  ghost function HandedIn(ops: seq<Op<Mbuf>>): seq<Mbuf> {
    if ops == [] then [] else (if ops[0].HandOff? then [ops[0].m] else []) + HandedIn(ops[1..])
  }

  /** The attributes an operation names are those of its packet. */
  predicate Describes(op: Op<Mbuf>) { op.HandOff? ==> op.len == op.m.len && op.mcast == op.m.mcast }

  /** The heap shows the state `n`. */
  ghost predicate Shows(ifp: Ifnet, n: Net<Mbuf>)
    reads ifp, ifp.snd, ifp.snd.main, ifp.snd.drv, ifp.snd.main.chain, ifp.snd.drv.chain
  {
    ifp.snd.Valid() && ifp.snd.View() == n.q && ifp.obytes == n.obytes && ifp.omcasts == n.omcasts
  }

  /** A packet given to a queue is in no queue yet; the macros rely on it. */
  ghost predicate Ready(n: Net<Mbuf>, op: Op<Mbuf>) {
    (op.HandOff? || op.GiveBack?) ==> op.m !in n.q.drv && op.m !in n.q.main
  }

  ghost function PacketOf(op: Op<Mbuf>): set<Mbuf> { if op.HandOff? || op.GiveBack? then {op.m} else {} }

  /** One operation on the heap does what the value specification says. */
  method Perform(ifp: Ifnet, op: Op<Mbuf>, ghost n: Net<Mbuf>) returns (m: Mbuf?, freed: seq<Mbuf>)
    requires Shows(ifp, n) && Ready(n, op) && Describes(op)
    modifies ifp, ifp.snd, ifp.snd.main, ifp.snd.drv, ifp.snd.main.chain, ifp.snd.drv.chain, PacketOf(op)
    ensures Shows(ifp, Apply(n, op)) && Apply(n, op).freed == n.freed + freed
    ensures op.Take? ==> Apply(n, op).last == if m == null then None else Some(m)
    ensures !op.Take? ==> m == null
  {
    m, freed := null, [];
    match op {
      case HandOff(p, _, _, adj) =>
        var _, _, gone := ifp.HandOff(p, adj);
        freed := gone;
      case Take =>
        m := ifp.snd.DrvDequeue();
      case GiveBack(p) =>
        ifp.snd.DrvPrepend(p);
      case Purge =>
        freed := ifp.snd.DrvPurge();
    }
  }

  /** What is queued or held was handed in. */
  lemma {:induction false} PlacedWasHandedIn(n: Net<Mbuf>, m: Mbuf)
    requires Conserved(n) && (m in n.q.drv || m in n.q.main || m in n.held)
    ensures m in n.handed
  {
    assert m in multiset(n.handed);
  }

  /** What the driver holds is in neither queue. */
  lemma {:induction false} HeldIsNotQueued(n: Net<Mbuf>, m: Mbuf)
    requires Conserved(n) && Distinct(n.handed) && m in n.held
    ensures m !in n.q.drv && m !in n.q.main
  {
    DistinctCount(n.handed, m);
    assert multiset(n.handed)[m] ==
           multiset(n.q.drv)[m] + multiset(n.q.main)[m] + n.held[m] + multiset(n.freed)[m];
    assert m in n.q.drv ==> m in multiset(n.q.drv);
    assert m in n.q.main ==> m in multiset(n.q.main);
  }

  /** What a run needs of its callers: give back what is held, hand in each packet once. */
  ghost predicate Playable(n: Net<Mbuf>, ops: seq<Op<Mbuf>>) {
    && Conserved(n) && AllAllowed(n, ops) && Distinct(n.handed + HandedIn(ops))
    && forall i :: 0 <= i < |ops| ==> Describes(ops[i])
  }

  /** From that, every operation finds its packet in no queue. */
  lemma {:induction false} PlayableIsReady(n: Net<Mbuf>, ops: seq<Op<Mbuf>>)
    requires Playable(n, ops) && ops != []
    ensures Ready(n, ops[0]) && (ops[0].GiveBack? ==> ops[0].m in n.handed)
  {
    var all := n.handed + HandedIn(ops);
    assert n.handed == all[..|n.handed|];
    if ops[0].HandOff? {
      assert all[|n.handed|] == ops[0].m;
      var m := ops[0].m;
      if m in n.q.drv || m in n.q.main {
        PlacedWasHandedIn(n, m);
      }
    } else if ops[0].GiveBack? {
      PlacedWasHandedIn(n, ops[0].m);
      HeldIsNotQueued(n, ops[0].m);
    }
  }

  lemma {:induction false} HandedOn(n: Net<Mbuf>, ops: seq<Op<Mbuf>>)
    requires ops != []
    ensures Apply(n, ops[0]).handed + HandedIn(ops[1..]) == n.handed + HandedIn(ops)
  {
    var x := if ops[0].HandOff? then [ops[0].m] else [];
    assert Apply(n, ops[0]).handed == n.handed + x;
    assert (n.handed + x) + HandedIn(ops[1..]) == n.handed + (x + HandedIn(ops[1..]));
  }

  lemma {:induction false} PlayableOn(n: Net<Mbuf>, ops: seq<Op<Mbuf>>)
    requires Playable(n, ops) && ops != []
    ensures Playable(Apply(n, ops[0]), ops[1..])
  {
    var n', rest := Apply(n, ops[0]), ops[1..];
    ApplyConserves(n, ops[0]);
    HandedOn(n, ops);
    forall i | 0 <= i < |rest|
      ensures Describes(rest[i])
    {
      assert rest[i] == ops[i + 1];
    }
    assert Playable(n', rest);
  }

  /** An operation touches no other packets than those handed in so far and its own. */
  lemma {:induction false} TouchesHandedIn(n: Net<Mbuf>, ops: seq<Op<Mbuf>>)
    requires Playable(n, ops) && ops != []
    ensures forall m :: m in n.q.main || m in n.q.drv || m in PacketOf(ops[0]) ==> m in n.handed + HandedIn(ops)
  {
    forall m | m in n.q.main || m in n.q.drv || m in PacketOf(ops[0])
      ensures m in n.handed + HandedIn(ops)
    {
      if m in n.q.main || m in n.q.drv {
        PlacedWasHandedIn(n, m);
      } else if ops[0].GiveBack? {
        PlayableIsReady(n, ops);
      } else {
        assert HandedIn(ops)[0] == m;
      }
    }
  }

  /** All the packets there are. */
  ghost predicate Within(n: Net<Mbuf>, ops: seq<Op<Mbuf>>, packets: set<Mbuf>) {
    forall m :: m in n.handed + HandedIn(ops) ==> m in packets
  }

  /** What the first operation may rely on, and what it leaves to the rest. */
  lemma {:induction false} PlayFirst(n: Net<Mbuf>, ops: seq<Op<Mbuf>>, packets: set<Mbuf>)
    requires Playable(n, ops) && Within(n, ops, packets) && ops != []
    ensures Ready(n, ops[0]) && Describes(ops[0])
    ensures forall m :: m in n.q.main || m in n.q.drv || m in PacketOf(ops[0]) ==> m in packets
    ensures Playable(Apply(n, ops[0]), ops[1..]) && Within(Apply(n, ops[0]), ops[1..], packets)
  {
    PlayableIsReady(n, ops);
    TouchesHandedIn(n, ops);
    PlayableOn(n, ops);
    HandedOn(n, ops);
  }

  /** One operation, within a given set of packets. */
  method PerformWithin(ifp: Ifnet, op: Op<Mbuf>, ghost n: Net<Mbuf>, ghost packets: set<Mbuf>)
    returns (x: Option<Mbuf>, freed: seq<Mbuf>)
    requires Shows(ifp, n) && Ready(n, op) && Describes(op)
    requires forall m :: m in n.q.main || m in n.q.drv || m in PacketOf(op) ==> m in packets
    modifies ifp, ifp.snd, ifp.snd.main, ifp.snd.drv, packets
    ensures Shows(ifp, Apply(n, op)) && Apply(n, op).freed == n.freed + freed
    ensures x == if op.Take? then Apply(n, op).last else None
  {
    assert ifp.snd.main.chain == n.q.main && ifp.snd.drv.chain == n.q.drv;
    var m;
    m, freed := Perform(ifp, op, n);
    x := if m == null then None else Some(m);
  }

  /**
   Every such run on the heap ends where the value specification says, and the driver's
   takes and the frees are those of the specification.
   */
  method Replay(ifp: Ifnet, ops: seq<Op<Mbuf>>, ghost n: Net<Mbuf>, ghost packets: set<Mbuf>)
    returns (taken: seq<Option<Mbuf>>, freed: seq<Mbuf>)
    requires Shows(ifp, n) && Playable(n, ops) && Within(n, ops, packets)
    modifies ifp, ifp.snd, ifp.snd.main, ifp.snd.drv, packets
    ensures Shows(ifp, Run(n, ops)) && taken == Taken(n, ops) && n.freed + freed == Run(n, ops).freed
    decreases |ops|
  {
    if ops == [] {
      return [], [];
    }
    PlayFirst(n, ops, packets);
    var x, gone := PerformWithin(ifp, ops[0], n, packets);
    ghost var n' := Apply(n, ops[0]);
    var taken', freed' := Replay(ifp, ops[1..], n', packets);
    taken, freed := [x] + taken', gone + freed';
    Regroup(n.freed, gone, freed');
  }
}
