/**
 What a whole lap inside the load-to-compare-and-set window does, for every ring size: a
 sleeping producer loses a ring's worth of buffers, a sleeping consumer hands one out twice.
 */
module BufRingLap {
  import opened RingArithmetic
  import opened BufRingProtocol
  import opened BufRingInvariant
  import opened BufRingTheorems
  import opened BufRingDrain

  ghost predicate Quiet(pc: Pc) { pc.Idle? || pc.Returned? }

  /** Nothing is in flight but thread `z`, which sleeps without holding a ticket. */
  ghost predicate Resting(s: State, z: Tid) {
    && Inv(s) && s.h.pt == s.h.ph && s.h.ct == s.h.ch && z < |s.pcs|
    && !OwnsProd(s.pcs[z]) && !OwnsCons(s.pcs[z]) && !Exclusive(s.pcs[z])
    && forall u: nat :: u < |s.pcs| && u != z ==> Quiet(s.pcs[u])
  }

  /** `e` comes from `s` by complete calls of other threads than `z`. */
  ghost predicate Asleep(s: State, e: State, z: Tid) {
    Resting(s, z) && Resting(e, z) && |e.pcs| == |s.pcs| && e.size == s.size &&
    e.pcs[z] == s.pcs[z] && e.h.tk[z] == s.h.tk[z]
  }

  /** Run `acts` leads from `s` to `e`, with the given buffers accepted and handed out. */
  ghost predicate Runs(s: State, acts: seq<Action>, e: State, accepted: seq<Buf>, got: seq<Buf>) {
    && WellFormed(s) && Legal(s, acts) && Exec(s, acts) == e
    && Accepts(s, acts) == accepted && Gots(s, acts) == got
  }

  lemma {:induction false} RunsOn(s: State, a: seq<Action>, m: State, b: seq<Action>, e: State,
                                  acc: seq<Buf>, got: seq<Buf>, acc': seq<Buf>, got': seq<Buf>)
    requires Runs(s, a, m, acc, got) && Runs(m, b, e, acc', got')
    ensures Runs(s, a + b, e, acc + acc', got + got')
  {
    RunConcat(s, a, b);
    AcceptsConcat(s, a, b);
    GotsConcat(s, a, b);
  }

  lemma {:induction false} SleepsOn(s: State, a: seq<Action>, m: State, b: seq<Action>, e: State, z: Tid,
                                    acc: seq<Buf>, got: seq<Buf>, acc': seq<Buf>, got': seq<Buf>)
    requires Runs(s, a, m, acc, got) && Runs(m, b, e, acc', got') && Asleep(s, m, z) && Asleep(m, e, z)
    ensures Runs(s, a + b, e, acc + acc', got + got') && Asleep(s, e, z)
  {
    RunsOn(s, a, m, b, e, acc, got, acc', got');
  }

  lemma {:induction false} RunsOne(s: State, a: Action)
    requires WellFormed(s) && Enabled(s, a)
    ensures WellFormed(Next(s, a)) && Runs(s, [a], Next(s, a), AcceptedBy(s, a), GotBy(s, a))
  {
    NextWellFormed(s, a);
    Prepend(s, a, []);
  }

  /** A step that neither publishes nor hands out, and does not lack room. */
  ghost predicate Hop(s: State, a: Action, e: State) {
    && WellFormed(s) && Enabled(s, a) && Room(s, a) && Next(s, a) == e
    && AcceptedBy(s, a) == [] && GotBy(s, a) == []
  }

  lemma {:induction false} ThreeHops(s: State, a: Action, s1: State, b: Action, s2: State, c: Action, e: State)
    requires WellFormed(s) && Hop(s, a, s1) && Hop(s1, b, s2) && Hop(s2, c, e)
    ensures Runs(s, [a] + [b] + [c], e, [], []) && (Inv(s) ==> Inv(e))
  {
    RunsOne(s, a);
    RunsOne(s1, b);
    RunsOne(s2, c);
    RunsOn(s, [a], s1, [b], s2, [], [], [], []);
    RunsOn(s, [a] + [b], s2, [c], e, [], [], [], []);
    if Inv(s) {
      InvIsKept(s, a);
      InvIsKept(s1, b);
      InvIsKept(s2, c);
    }
  }

  // ------------------------------------------------------------------ one whole enqueue

  /** Thread `t` has loaded the indices and is about to compare and set. */
  ghost function AtCas(s: State, t: Tid, b: Buf): State
    requires t < |s.pcs| == |s.h.tk|
  {
    s.(pcs := s.pcs[t := ECas(b, 0, s.sh.prodHead)], h := s.h.(tk := s.h.tk[t := s.h.ph]))
  }

  /** It has succeeded. */
  ghost function PastCas(s: State, t: Tid, b: Buf): State
    requires t < |s.pcs| == |s.h.tk| && s.size > 0
  {
    var i := s.sh.prodHead;
    s.(sh := s.sh.(prodHead := NextIndex(i, s.size)), pcs := s.pcs[t := EWrite(b, 0, i)],
       h := s.h.(ph := s.h.ph + 1, items := s.h.items + [Item(b, 0, t)], tk := s.h.tk[t := s.h.ph]))
  }

  lemma {:induction false} EnqueuePath(s: State, t: Tid, b: Buf) returns (s1: State, s2: State)
    requires Inv(s) && t < |s.pcs| && Quiet(s.pcs[t]) && s.h.ph + 1 < s.h.ct + s.size
    ensures Hop(s, StartEnqueue(t, b, 0), s1) && Hop(s1, Step(t), s2) && Hop(s2, Step(t), AtCas(s, t, b))
  {
    FullTest(s);
    s1 := Next(s, StartEnqueue(t, b, 0));
    NextWellFormed(s, StartEnqueue(t, b, 0));
    s2 := Next(s1, Step(t));
    NextWellFormed(s1, Step(t));
  }

  lemma {:induction false} ReservePath(s: State, t: Tid, b: Buf)
    requires t < |s.pcs| == |s.h.tk| && WellFormed(AtCas(s, t, b)) && NextIndex(s.sh.prodHead, s.size) != s.sh.consTail
    ensures Hop(AtCas(s, t, b), Step(t), PastCas(s, t, b))
  {
  }

  lemma {:induction false} EnqueueLoads(s: State, t: Tid, b: Buf) returns (acts: seq<Action>)
    requires Inv(s) && t < |s.pcs| && Quiet(s.pcs[t]) && s.h.ph + 1 < s.h.ct + s.size
    ensures Runs(s, acts, AtCas(s, t, b), [], []) && Inv(AtCas(s, t, b))
  {
    var s1, s2 := EnqueuePath(s, t, b);
    ThreeHops(s, StartEnqueue(t, b, 0), s1, Step(t), s2, Step(t), AtCas(s, t, b));
    acts := [StartEnqueue(t, b, 0)] + [Step(t)] + [Step(t)];
  }

  /** And there it may sleep. */
  lemma {:induction false} ProducerLies(s: State, z: Tid, b: Buf) returns (acts: seq<Action>, e: State)
    requires Resting(s, z) && Quiet(s.pcs[z]) && s.h.ph + 1 < s.h.ct + s.size
    ensures Runs(s, acts, e, [], []) && Resting(e, z) && |e.pcs| == |s.pcs| && e.pcs[z] == ECas(b, 0, s.sh.prodHead)
    ensures e.size == s.size && e.sh == s.sh && e.h == s.h.(tk := e.h.tk)
  {
    acts := EnqueueLoads(s, z, b);
    e := AtCas(s, z, b);
  }

  lemma {:induction false} EnqueueReserves(s: State, t: Tid, b: Buf) returns (acts: seq<Action>)
    requires Inv(s) && t < |s.pcs| && Quiet(s.pcs[t]) && s.h.ph + 1 < s.h.ct + s.size
    ensures Runs(s, acts, PastCas(s, t, b), [], []) && Inv(PastCas(s, t, b))
  {
    var loads := EnqueueLoads(s, t, b);
    var m := AtCas(s, t, b);
    FullTest(s);
    ReservePath(s, t, b);
    InvIsKept(m, Step(t));
    RunsOne(m, Step(t));
    acts := loads + [Step(t)];
    RunsOn(s, loads, m, [Step(t)], PastCas(s, t, b), [], [], [], []);
  }

  /** The one reservation outstanding is published. */
  lemma {:induction false} PublishesOne(m: State, i: nat) returns (acts: seq<Action>, e: State)
    requires Inv(m) && m.h.pt + 1 == m.h.ph && i < m.size
    ensures Runs(m, acts, e, [m.h.items[m.h.pt].buf], []) && Inv(e) && SameButProducers(m, e) && e.h.pt == m.h.ph
    ensures Slot(m.h.pt, m.size) != i ==> e.sh.ring[i] == m.sh.ring[i]
  {
    InvQueues(m);
    acts := DrainProducers(m, i);
    e := Exec(m, acts);
    RunKeepsInv(m, acts);
    assert BufsOf(m.h.items, m.h.pt, m.h.ph) == [m.h.items[m.h.pt].buf];
    assert Slot(m.h.pt, m.size) != i ==> Untouched(m, i);
  }

  /** Back at rest: the producer has returned, the others are as they were. */
  lemma {:induction false} EnqueueRests(s: State, t: Tid, b: Buf, e: State, z: Tid)
    requires Resting(s, z) && t < |s.pcs| && t != z
    requires Inv(e) && SameButProducers(PastCas(s, t, b), e) && e.h.pt == s.h.ph + 1
    ensures Asleep(s, e, z)
  {
    var m := PastCas(s, t, b);
    forall u: nat | u < |s.pcs|
      ensures u != z ==> Quiet(e.pcs[u])
      ensures u == z ==> e.pcs[u] == s.pcs[u] && e.h.tk[u] == s.h.tk[u]
    {
      assert ProducerOnwards(m, e, u) && At(e, u);
    }
  }

  lemma {:induction false} Enqueues(s: State, t: Tid, b: Buf, z: Tid, i: nat) returns (acts: seq<Action>, e: State)
    requires Resting(s, z) && t < |s.pcs| && t != z && s.h.ph + 1 < s.h.ct + s.size && i < s.size
    ensures Runs(s, acts, e, [b], []) && Asleep(s, e, z)
    ensures e.h.ph == s.h.ph + 1 && e.h.ch == s.h.ch
    ensures e.h.items == s.h.items + [Item(b, 0, t)]
    ensures Slot(s.h.ph, s.size) != i ==> e.sh.ring[i] == s.sh.ring[i]
  {
    var first := EnqueueReserves(s, t, b);
    var m := PastCas(s, t, b);
    var second;
    second, e := PublishesOne(m, i);
    acts := first + second;
    EnqueueRests(s, t, b, e, z);
    RunsOn(s, first, m, second, e, [], [], [b], []);
  }

  // ------------------------------------------------------------------ one whole multi-consumer dequeue

  ghost function AtTake(s: State, t: Tid): State
    requires t < |s.pcs| == |s.h.tk|
  {
    s.(pcs := s.pcs[t := MCas(s.sh.consHead)], h := s.h.(tk := s.h.tk[t := s.h.ch]))
  }

  ghost function PastTake(s: State, t: Tid): State
    requires t < |s.pcs| == |s.h.tk| && s.size > 0
  {
    var i := s.sh.consHead;
    s.(sh := s.sh.(consHead := NextIndex(i, s.size)), pcs := s.pcs[t := MRead(i)],
       h := s.h.(ch := s.h.ch + 1, takers := s.h.takers + [t], tk := s.h.tk[t := s.h.ch]))
  }

  lemma {:induction false} StartMcHop(s: State, t: Tid)
    requires WellFormed(s) && t < |s.pcs| && Quiet(s.pcs[t]) && forall u :: 0 <= u < |s.pcs| ==> !Exclusive(s.pcs[u])
    ensures Hop(s, StartMc(t), Goto(s, t, MHead))
  {
  }

  lemma {:induction false} DequeuePath(s: State, t: Tid, z: Tid) returns (s1: State, s2: State)
    requires Resting(s, z) && t < |s.pcs| && Quiet(s.pcs[t]) && s.h.ch < s.h.pt
    ensures Hop(s, StartMc(t), s1) && Hop(s1, Step(t), s2) && Hop(s2, Step(t), AtTake(s, t))
  {
    EmptyTest(s);
    s1 := Goto(s, t, MHead);
    StartMcHop(s, t);
    NextWellFormed(s, StartMc(t));
    s2 := Next(s1, Step(t));
    NextWellFormed(s1, Step(t));
  }

  lemma {:induction false} TakePath(s: State, t: Tid)
    requires t < |s.pcs| == |s.h.tk| && WellFormed(AtTake(s, t)) && s.sh.consHead != s.sh.prodTail
    ensures Hop(AtTake(s, t), Step(t), PastTake(s, t))
  {
  }

  lemma {:induction false} DequeueLoads(s: State, t: Tid, z: Tid) returns (acts: seq<Action>)
    requires Resting(s, z) && t < |s.pcs| && Quiet(s.pcs[t]) && s.h.ch < s.h.pt
    ensures Runs(s, acts, AtTake(s, t), [], []) && Inv(AtTake(s, t))
  {
    var s1, s2 := DequeuePath(s, t, z);
    ThreeHops(s, StartMc(t), s1, Step(t), s2, Step(t), AtTake(s, t));
    acts := [StartMc(t)] + [Step(t)] + [Step(t)];
  }

  /** And there it may sleep. */
  lemma {:induction false} ConsumerLies(s: State, z: Tid) returns (acts: seq<Action>, e: State)
    requires Resting(s, z) && Quiet(s.pcs[z]) && s.h.ch < s.h.pt
    ensures Runs(s, acts, e, [], []) && Resting(e, z) && |e.pcs| == |s.pcs| && e.pcs[z] == MCas(s.sh.consHead)
    ensures e.size == s.size && e.sh == s.sh && e.h == s.h.(tk := e.h.tk)
  {
    acts := DequeueLoads(s, z, z);
    e := AtTake(s, z);
  }

  lemma {:induction false} DequeueTakes(s: State, t: Tid, z: Tid) returns (acts: seq<Action>)
    requires Resting(s, z) && t < |s.pcs| && Quiet(s.pcs[t]) && s.h.ch < s.h.pt
    ensures Runs(s, acts, PastTake(s, t), [], []) && Inv(PastTake(s, t))
  {
    var loads := DequeueLoads(s, t, z);
    var m := AtTake(s, t);
    EmptyTest(s);
    TakePath(s, t);
    InvIsKept(m, Step(t));
    RunsOne(m, Step(t));
    acts := loads + [Step(t)];
    RunsOn(s, loads, m, [Step(t)], PastTake(s, t), [], [], [], []);
  }

  lemma {:induction false} ReturnsOne(m: State) returns (acts: seq<Action>, e: State)
    requires Inv(m) && m.h.ct + 1 == m.h.ch
    ensures Runs(m, acts, e, [], [m.h.items[m.h.ct].buf]) && Inv(e) && SameButConsumers(m, e) && e.h.ct == m.h.ch
  {
    InvQueues(m);
    acts := DrainConsumers(m);
    e := Exec(m, acts);
    RunKeepsInv(m, acts);
    RunGots(m, acts);
    assert Delivered(e, m.h.ct);
    assert Gots(m, acts) == [e.h.out[m.h.ct]];
  }

  lemma {:induction false} DequeueRests(s: State, t: Tid, e: State, z: Tid)
    requires Resting(s, z) && t < |s.pcs| && t != z
    requires Inv(e) && SameButConsumers(PastTake(s, t), e) && e.h.ct == s.h.ch + 1
    ensures Asleep(s, e, z)
  {
    var m := PastTake(s, t);
    forall u: nat | u < |s.pcs|
      ensures u != z ==> Quiet(e.pcs[u])
      ensures u == z ==> e.pcs[u] == s.pcs[u] && e.h.tk[u] == s.h.tk[u]
    {
      assert ConsumerOnwards(m, e, u) && At(e, u);
    }
  }

  lemma {:induction false} Dequeues(s: State, t: Tid, z: Tid) returns (acts: seq<Action>, e: State)
    requires Resting(s, z) && t < |s.pcs| && t != z && s.h.ch < s.h.ph
    ensures Runs(s, acts, e, [], [s.h.items[s.h.ch].buf]) && Asleep(s, e, z)
    ensures e.h.ch == s.h.ch + 1 && e.h.ph == s.h.ph
    ensures e.h.items == s.h.items && e.sh.ring == s.sh.ring
  {
    var first := DequeueTakes(s, t, z);
    var m := PastTake(s, t);
    var second;
    second, e := ReturnsOne(m);
    acts := first + second;
    DequeueRests(s, t, e, z);
    RunsOn(s, first, m, second, e, [], [], [], [s.h.items[s.h.ch].buf]);
  }
  // ------------------------------------------------------------------ many of them

  /** Thread `t` enqueues `bufs`, one call after the other. */
  lemma {:induction false} EnqueueAll(s: State, t: Tid, bufs: seq<Buf>, z: Tid) returns (acts: seq<Action>, e: State)
    requires Resting(s, z) && t < |s.pcs| && t != z && s.h.ph + |bufs| < s.h.ct + s.size
    ensures Runs(s, acts, e, bufs, []) && Asleep(s, e, z)
    ensures e.h.ph == s.h.ph + |bufs| && e.h.ch == s.h.ch
    decreases |bufs|
  {
    if bufs == [] {
      return [], s;
    }
    var b, bufs' := bufs[0], bufs[1..];
    var first, m := Enqueues(s, t, b, z, 0);
    var rest;
    rest, e := EnqueueAll(m, t, bufs', z);
    acts := first + rest;
    SleepsOn(s, first, m, rest, e, z, [b], [], bufs', []);
    assert bufs == [b] + bufs';
  }

  /** Thread `t` enqueues and thread `u` dequeues the same buffer. */
  lemma {:induction false} PutAndTake(s: State, t: Tid, u: Tid, b: Buf, z: Tid, i: nat) returns (acts: seq<Action>, e: State)
    requires Resting(s, z) && t < |s.pcs| && t != z && u < |s.pcs| && u != z && i < s.size && s.size > 1
    requires s.h.ch == s.h.ph && Slot(s.h.ph, s.size) != i
    ensures Runs(s, acts, e, [b], [b]) && Asleep(s, e, z)
    ensures e.h.ph == e.h.ch == s.h.ph + 1 && e.sh.ring[i] == s.sh.ring[i]
  {
    var put, m := Enqueues(s, t, b, z, i);
    var take;
    take, e := Dequeues(m, u, z);
    acts := put + take;
    SleepsOn(s, put, m, take, e, z, [b], [], [], [b]);
  }

  /** They do so with `bufs`, one after the other; slot `i` stays out of it. */
  lemma {:induction false} Alternate(s: State, t: Tid, u: Tid, bufs: seq<Buf>, z: Tid, i: nat) returns (acts: seq<Action>, e: State)
    requires Resting(s, z) && t < |s.pcs| && t != z && u < |s.pcs| && u != z && i < s.size && s.size > 1
    requires s.h.ch == s.h.ph && forall k: nat :: s.h.ph <= k < s.h.ph + |bufs| ==> Slot(k, s.size) != i
    ensures Runs(s, acts, e, bufs, bufs) && Asleep(s, e, z)
    ensures e.h.ph == e.h.ch == s.h.ph + |bufs| && e.sh.ring[i] == s.sh.ring[i]
    decreases |bufs|
  {
    if bufs == [] {
      return [], s;
    }
    var b, bufs' := bufs[0], bufs[1..];
    var first, m := PutAndTake(s, t, u, b, z, i);
    var rest;
    rest, e := Alternate(m, t, u, bufs', z, i);
    acts := first + rest;
    SleepsOn(s, first, m, rest, e, z, [b], [b], bufs', bufs');
    assert bufs == [b] + bufs';
  }

  ghost function Start(n: nat, x: Buf): State {
    State(n, Shared(0, 0, 0, 0, 0, 0, seq(n, _ => x)), [Idle, Idle, Idle],
          History(0, 0, 0, 0, [], [], [], [0, 0, 0]))
  }

  lemma {:induction false} StartRests(n: nat, x: Buf)
    requires 2 <= n < WORD32 && PowerOfTwo(n)
    ensures Initial(Start(n, x)) && Resting(Start(n, x), 0)
  {
    InitialInv(Start(n, x));
  }

  lemma {:induction false} LapSlot(n: nat, k: nat)
    requires n > 0
    ensures Slot(k + n, n) == Slot(k, n) && (k < n ==> Slot(k, n) == k)
  {
  }

  // ------------------------------------------------------------------ the sleeping producer

  /** Thread 0 has loaded the indices of an empty ring. */
  lemma {:induction false} ProducerSleeps(n: nat, x: Buf, b: Buf) returns (s: State, acts: seq<Action>, e: State)
    requires 2 <= n < WORD32 && PowerOfTwo(n)
    ensures Initial(s) && s.size == n && Runs(s, acts, e, [], [])
    ensures Resting(e, 0) && |e.pcs| == 3 && e.size == n && e.pcs[0] == ECas(b, 0, 0) && e.h.ph == e.h.ch == 0
  {
    s := Start(n, x);
    StartRests(n, x);
    acts, e := ProducerLies(s, 0, b);
  }

  /** All but one slot are filled. */
  lemma {:induction false} Fill(s: State, bufs: seq<Buf>) returns (acts: seq<Action>, e: State)
    requires Resting(s, 0) && |s.pcs| == 3 && s.h.ph == s.h.ch == 0 && |bufs| == s.size - 1 > 0
    ensures Runs(s, acts, e, bufs, []) && Asleep(s, e, 0) && e.h.ph == |bufs| && e.h.ch == 0
    ensures e.h.items[0].buf == bufs[0]
  {
    var b, bufs' := bufs[0], bufs[1..];
    var first, m := Enqueues(s, 1, b, 0, 0);
    var rest;
    rest, e := EnqueueAll(m, 1, bufs', 0);
    RunKeepsItems(m, rest);
    acts := first + rest;
    SleepsOn(s, first, m, rest, e, 0, [b], [], bufs', []);
    assert bufs == [b] + bufs';
  }

  /** Then one is emptied. */
  lemma {:induction false} FillAndTake(s: State, bufs: seq<Buf>) returns (acts: seq<Action>, e: State)
    requires Resting(s, 0) && |s.pcs| == 3 && s.h.ph == s.h.ch == 0 && |bufs| == s.size - 1 > 0
    ensures Runs(s, acts, e, bufs, [bufs[0]]) && Asleep(s, e, 0) && e.h.ph == |bufs| && e.h.ch == 1
  {
    var a, m := Fill(s, bufs);
    var b;
    b, e := Dequeues(m, 2, 0);
    acts := a + b;
    SleepsOn(s, a, m, b, e, 0, bufs, [], [], [bufs[0]]);
  }

  /** And filled again: the head has made a whole lap. */
  lemma {:induction false} MakeLap(s: State, bufs: seq<Buf>, b: Buf) returns (acts: seq<Action>, e: State)
    requires Resting(s, 0) && |s.pcs| == 3 && s.h.ph == s.h.ch == 0 && |bufs| == s.size - 1 > 0
    ensures Runs(s, acts, e, bufs + [b], [bufs[0]]) && Asleep(s, e, 0) && e.h.ph == s.size && e.h.ch == 1
  {
    var first, m := FillAndTake(s, bufs);
    var last;
    last, e := Enqueues(m, 1, b, 0, 0);
    acts := first + last;
    SleepsOn(s, first, m, last, e, 0, bufs, [bufs[0]], [b], []);
    assert [bufs[0]] + [] == [bufs[0]];
  }

  /** It wakes up: the compare-and-set succeeds. */
  lemma {:induction false} ProducerWakes(m: State, b: Buf) returns (w: State)
    requires Resting(m, 0) && |m.pcs| == 3 && m.pcs[0] == ECas(b, 0, 0) && m.h.ph == m.size && m.h.ch == 1
    ensures Runs(m, [Step(0)], w, [], []) && ProducersQueued(w) && w.size == m.size
    ensures w.pcs == [EWrite(b, 0, 0), m.pcs[1], m.pcs[2]]
    ensures w.h.pt == m.size && w.h.ph == m.size + 1 && w.h.ch == w.h.ct == 1
    ensures w.h.items[m.size].buf == b && w.sh.consHead == Slot(1, m.size)
  {
    LapSlot(m.size, 0);
    RunsOne(m, Step(0));
    LateProducerQueues(m, 0);
    w := Next(m, Step(0));
  }

  /** Its buffer is accepted a lap too far, and the ring looks empty. */
  lemma {:induction false} LateAccept(w: State, b: Buf) returns (acts: seq<Action>, e: State)
    requires ProducersQueued(w) && |w.pcs| == 3 && w.pcs[0] == EWrite(b, 0, 0) && Quiet(w.pcs[1]) && Quiet(w.pcs[2])
    requires w.h.pt == w.size && w.h.ph == w.size + 1 && w.h.ch == w.h.ct == 1
    requires w.h.items[w.size].buf == b && w.sh.consHead == Slot(1, w.size)
    ensures Runs(w, acts, e, [b], []) && e.size == w.size && |e.pcs| == 3
    ensures e.h.ph == e.h.pt == w.size + 1 && e.h.ch == e.h.ct == 1
    ensures e.sh.prodTail == e.sh.consHead && Quiet(e.pcs[1]) && Quiet(e.pcs[2]) && !Exclusive(e.pcs[0])
  {
    LapSlot(w.size, 1);
    acts := DrainProducers(w, 0);
    e := Exec(w, acts);
    assert BufsOf(w.h.items, w.size, w.size + 1) == [b];
    OthersStayQuiet(w, e);
  }

  lemma {:induction false} OthersStayQuiet(w: State, e: State)
    requires SameButProducers(w, e) && |w.pcs| == 3 && OwnsProd(w.pcs[0]) && Quiet(w.pcs[1]) && Quiet(w.pcs[2])
    ensures !Exclusive(e.pcs[0]) && Quiet(e.pcs[1]) && Quiet(e.pcs[2])
  {
    assert ProducerOnwards(w, e, 0) && ProducerOnwards(w, e, 1) && ProducerOnwards(w, e, 2);
  }

  lemma {:induction false} LooksEmpty(m: State, t: Tid) returns (acts: seq<Action>, e: State)
    requires WellFormed(m) && t < |m.pcs| && Quiet(m.pcs[t]) && m.sh.consHead == m.sh.prodTail
    requires forall u :: 0 <= u < |m.pcs| ==> !Exclusive(m.pcs[u])
    ensures Runs(m, acts, e, [], []) && e.size == m.size && |e.pcs| == |m.pcs| && e.pcs[t] == Returned(Null)
    ensures e.h == m.h.(tk := e.h.tk)
  {
    var s1 := Goto(m, t, MHead);
    StartMcHop(m, t);
    NextWellFormed(m, StartMc(t));
    var s2 := Next(s1, Step(t));
    NextWellFormed(s1, Step(t));
    e := Next(s2, Step(t));
    ThreeHops(m, StartMc(t), s1, Step(t), s2, Step(t), e);
    acts := [StartMc(t)] + [Step(t)] + [Step(t)];
  }

  lemma {:induction false} LateReturn(w: State, b: Buf) returns (acts: seq<Action>, e: State)
    requires ProducersQueued(w) && |w.pcs| == 3 && w.pcs[0] == EWrite(b, 0, 0) && Quiet(w.pcs[1]) && Quiet(w.pcs[2])
    requires w.h.pt == w.size && w.h.ph == w.size + 1 && w.h.ch == w.h.ct == 1
    requires w.h.items[w.size].buf == b && w.sh.consHead == Slot(1, w.size)
    ensures Runs(w, acts, e, [b], []) && |e.pcs| == 3 && e.pcs[2] == Returned(Null) && !Ordered(e)
  {
    var a1, m := LateAccept(w, b);
    var a2;
    a2, e := LooksEmpty(m, 2);
    acts := a1 + a2;
    RunsOn(w, a1, m, a2, e, [b], [], [], []);
  }

  lemma {:induction false} Overrun(m: State, b: Buf) returns (acts: seq<Action>, e: State)
    requires Resting(m, 0) && |m.pcs| == 3 && m.pcs[0] == ECas(b, 0, 0) && m.h.ph == m.size > 1 && m.h.ch == 1
    ensures Runs(m, acts, e, [b], []) && |e.pcs| == 3 && e.pcs[2] == Returned(Null) && !Ordered(e)
  {
    var w := ProducerWakes(m, b);
    var rest;
    rest, e := LateReturn(w, b);
    acts := [Step(0)] + rest;
    RunsOn(m, [Step(0)], w, rest, e, [], [], [b], []);
  }

  lemma {:induction false} LapAndOverrun(s: State, bufs: seq<Buf>) returns (acts: seq<Action>, e: State)
    requires Resting(s, 0) && |s.pcs| == 3 && s.h.ph == s.h.ch == 0 && |bufs| == s.size + 1 > 2
    requires s.pcs[0] == ECas(bufs[s.size], 0, 0)
    ensures Runs(s, acts, e, bufs, [bufs[0]]) && |e.pcs| == 3 && e.pcs[2] == Returned(Null) && !Ordered(e)
  {
    var n := s.size;
    var a1, m := MakeLap(s, bufs[..n - 1], bufs[n - 1]);
    assert bufs[..n - 1] + [bufs[n - 1]] == bufs[..n];
    var a2;
    a2, e := Overrun(m, bufs[n]);
    acts := a1 + a2;
    RunsOn(s, a1, m, a2, e, bufs[..n], [bufs[0]], [bufs[n]], []);
    assert bufs[..n] + [bufs[n]] == bufs;
  }

  /**
   For every ring size and any buffers: a producer that sleeps while the head makes a lap
   leaves n + 1 buffers accepted and one handed out, and the next dequeue returns NULL.
   */
  lemma {:induction false} SleepingProducerLosesBuffers(n: nat, bufs: seq<Buf>)
    returns (s: State, acts: seq<Action>, e: State)
    requires 2 <= n < WORD32 && PowerOfTwo(n) && |bufs| == n + 1
    ensures Initial(s) && s.size == n && Runs(s, acts, e, bufs, [bufs[0]])
    ensures |e.pcs| == 3 && e.pcs[2] == Returned(Null) && !Ordered(e)
  {
    var a1, s1;
    s, a1, s1 := ProducerSleeps(n, bufs[0], bufs[n]);
    var a2;
    a2, e := LapAndOverrun(s1, bufs);
    acts := a1 + a2;
    RunsOn(s, a1, s1, a2, e, [], [], bufs, [bufs[0]]);
  }

  // ------------------------------------------------------------------ the sleeping consumer

  /** Thread 0 has loaded the indices while the first buffer is in slot 0, and another takes it. */
  lemma {:induction false} ConsumerSleeps(n: nat, b: Buf) returns (s: State, acts: seq<Action>, m: State)
    requires 2 <= n < WORD32 && PowerOfTwo(n)
    ensures Initial(s) && s.size == n && Runs(s, acts, m, [b], []) && Resting(m, 0)
    ensures |m.pcs| == 3 && m.size == n && m.pcs[0] == MCas(0) && m.h.ph == 1 && m.h.ch == 0
    ensures m.sh.ring[0] == b && m.h.items[0].buf == b
  {
    s := Start(n, b);
    StartRests(n, b);
    var a1, s1 := Enqueues(s, 1, b, 0, 0);
    assert Stored(s1, 0);
    var a2;
    a2, m := ConsumerLies(s1, 0);
    acts := a1 + a2;
    RunsOn(s, a1, s1, a2, m, [b], [], [], []);
  }

  /** The ring is emptied and the head makes the rest of its lap. */
  lemma {:induction false} TakeLap(m: State, bufs: seq<Buf>) returns (acts: seq<Action>, e: State)
    requires Resting(m, 0) && |m.pcs| == 3 && m.size == |bufs| > 1 && m.h.ph == 1 && m.h.ch == 0
    requires m.h.items[0].buf == bufs[0]
    ensures Runs(m, acts, e, bufs[1..], bufs) && Asleep(m, e, 0)
    ensures e.h.ph == e.h.ch == m.size && e.sh.ring[0] == m.sh.ring[0]
  {
    var a, m' := Dequeues(m, 2, 0);
    forall k: nat | 1 <= k < m.size
      ensures Slot(k, m.size) != 0
    {
      LapSlot(m.size, k);
    }
    var b;
    b, e := Alternate(m', 1, 2, bufs[1..], 0, 0);
    acts := a + b;
    SleepsOn(m, a, m', b, e, 0, [], [bufs[0]], bufs[1..], bufs[1..]);
    assert [bufs[0]] + bufs[1..] == bufs;
  }

  lemma {:induction false} ConsumerWakes(m: State) returns (acts: seq<Action>, e: State)
    requires Resting(m, 0) && m.pcs[0] == MCas(0) && m.h.ph == m.h.ch == m.size
    ensures Runs(m, acts, e, [], [m.sh.ring[0]])
  {
    var n, w := m.size, Next(m, Step(0));
    LapSlot(n, 0);
    RunsOne(m, Step(0));
    LateConsumerQueues(m, 0);
    var rest := DrainConsumers(w);
    e := Exec(w, rest);
    acts := [Step(0)] + rest;
    assert Gots(w, rest) == [m.sh.ring[0]];
    RunsOn(m, [Step(0)], w, rest, e, [], [], [], [m.sh.ring[0]]);
  }

  /**
   For every ring size and any buffers: a consumer that sleeps while the head makes a lap
   takes from the empty ring and hands the first buffer out a second time.
   */
  lemma {:induction false} SleepingConsumerDuplicates(n: nat, bufs: seq<Buf>)
    returns (s: State, acts: seq<Action>, e: State)
    requires 2 <= n < WORD32 && PowerOfTwo(n) && |bufs| == n
    ensures Initial(s) && s.size == n && Runs(s, acts, e, bufs, bufs + [bufs[0]])
    ensures !(Gots(s, acts) <= Accepts(s, acts))
  {
    var a1, s1;
    s, a1, s1 := ConsumerSleeps(n, bufs[0]);
    var a2, s2 := TakeLap(s1, bufs);
    var a3;
    a3, e := ConsumerWakes(s2);
    acts := a1 + (a2 + a3);
    RunsOn(s1, a2, s2, a3, e, bufs[1..], bufs, [], [bufs[0]]);
    assert [bufs[0]] + (bufs[1..] + []) == bufs;
    RunsOn(s, a1, s1, a2 + a3, e, [bufs[0]], [], bufs[1..] + [], bufs + [bufs[0]]);
  }
}
