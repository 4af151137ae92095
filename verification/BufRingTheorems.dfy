/**
 The ring over whole runs: when its order holds, what consumers get, and what the single
 consumer may rely on.
 */
module BufRingTheorems {
  import opened Sequences
  import opened RingArithmetic
  import opened BufRingProtocol
  import opened BufRingInvariant

  // ------------------------------------------------------------------ hypotheses on runs

  /** Every successful compare-and-set of the run finds room. */
  ghost predicate Roomy(s: State, acts: seq<Action>)
    requires WellFormed(s) && Legal(s, acts)
    decreases |acts|
  {
    acts == [] ||
    (Room(s, acts[0]) && (NextWellFormed(s, acts[0]); Roomy(Next(s, acts[0]), acts[1..])))
  }

  /** Fewer than `size` head advances between a head load and the compare-and-set it feeds. */
  ghost predicate FreshCas(s: State, a: Action)
    requires WellFormed(s) && Enabled(s, a)
  {
    var pc := s.pcs[a.t];
    && (a.Step? && pc.ECas? && s.sh.prodHead == pc.head ==> s.h.ph < s.h.tk[a.t] + s.size)
    && (a.Step? && pc.MCas? && s.sh.consHead == pc.head ==> s.h.ch < s.h.tk[a.t] + s.size)
  }

  ghost predicate Fresh(s: State, acts: seq<Action>)
    requires WellFormed(s) && Legal(s, acts)
    decreases |acts|
  {
    acts == [] ||
    (FreshCas(s, acts[0]) && (NextWellFormed(s, acts[0]); Fresh(Next(s, acts[0]), acts[1..])))
  }

  ghost predicate AlwaysOrdered(s: State, acts: seq<Action>)
    requires WellFormed(s) && Legal(s, acts)
    decreases |acts|
  {
    Ordered(s) &&
    (acts == [] || (NextWellFormed(s, acts[0]); AlwaysOrdered(Next(s, acts[0]), acts[1..])))
  }

  lemma {:induction false} RunKeepsInv(s: State, acts: seq<Action>)
    requires Inv(s) && Legal(s, acts) && Roomy(s, acts)
    ensures Inv(Exec(s, acts))
    decreases |acts|
  {
    if acts != [] {
      InvIsKept(s, acts[0]);
      RunKeepsInv(Next(s, acts[0]), acts[1..]);
    }
  }

  /** A compare-and-set without room breaks the order at once. */
  lemma {:induction false} NoRoomBreaksOrder(s: State, a: Action)
    requires Inv(s) && Enabled(s, a) && !Room(s, a)
    ensures !Ordered(Next(s, a))
  {
    FullTest(s);
    EmptyTest(s);
  }

  /**
   Exactly when the ring works: its indices stay in order throughout a run if and only if
   the full or empty test, repeated on the live fields, would pass at each successful
   compare-and-set.
   */
  lemma {:induction false} OrderedIffRoomy(s: State, acts: seq<Action>)
    requires Inv(s) && Legal(s, acts)
    ensures AlwaysOrdered(s, acts) <==> Roomy(s, acts)
    decreases |acts|
  {
    if acts != [] {
      if Room(s, acts[0]) {
        InvIsKept(s, acts[0]);
        OrderedIffRoomy(Next(s, acts[0]), acts[1..]);
      } else {
        NoRoomBreaksOrder(s, acts[0]);
        NextWellFormed(s, acts[0]);
        assert !AlwaysOrdered(Next(s, acts[0]), acts[1..]);
      }
    }
  }

  /** Within one lap an unchanged head index means an unchanged head. */
  lemma {:induction false} FreshCasHasRoom(s: State, a: Action)
    requires Inv(s) && Enabled(s, a) && FreshCas(s, a)
    ensures Room(s, a)
  {
    var pc := s.pcs[a.t];
    assert At(s, a.t);
    if a.Step? && pc.ECas? && s.sh.prodHead == pc.head {
      SlotInjective(s.h.tk[a.t], s.h.ph, s.size);
      FullTest(s);
    } else if a.Step? && pc.MCas? && s.sh.consHead == pc.head {
      SlotInjective(s.h.tk[a.t], s.h.ch, s.size);
      EmptyTest(s);
    }
  }

  lemma {:induction false} FreshIsRoomy(s: State, acts: seq<Action>)
    requires Inv(s) && Legal(s, acts) && Fresh(s, acts)
    ensures Roomy(s, acts)
    decreases |acts|
  {
    if acts != [] {
      FreshCasHasRoom(s, acts[0]);
      InvIsKept(s, acts[0]);
      FreshIsRoomy(Next(s, acts[0]), acts[1..]);
    }
  }

  // ------------------------------------------------------------------ first in, first out

  /** What the action publishes: the buffer of an enqueue that is about to return 0. */
  function AcceptedBy(s: State, a: Action): seq<Buf>
    requires a.t < |s.pcs|
  {
    if a.Step? && s.pcs[a.t].EPublish? then [s.pcs[a.t].buf] else []
  }

  /** What the action hands out: the buffer of a dequeue that is about to return it. */
  function GotBy(s: State, a: Action): seq<Buf>
    requires a.t < |s.pcs|
  {
    if a.Step? && (s.pcs[a.t].MPublish? || s.pcs[a.t].SPublish?) then [s.pcs[a.t].buf] else []
  }

  /** The accepted buffers of a run, in the order `br_prod_tail` passed them. */
  ghost function Accepts(s: State, acts: seq<Action>): seq<Buf>
    requires WellFormed(s) && Legal(s, acts)
    decreases |acts|
  {
    if acts == [] then []
    else
      NextWellFormed(s, acts[0]);
      AcceptedBy(s, acts[0]) + Accepts(Next(s, acts[0]), acts[1..])
  }

  /** The buffers a run's dequeues returned, in the order `br_cons_tail` passed them. */
  ghost function Gots(s: State, acts: seq<Action>): seq<Buf>
    requires WellFormed(s) && Legal(s, acts)
    decreases |acts|
  {
    if acts == [] then []
    else
      NextWellFormed(s, acts[0]);
      GotBy(s, acts[0]) + Gots(Next(s, acts[0]), acts[1..])
  }

  /** The bytes those accepted enqueues announced. */
  ghost function AcceptedBytes(s: State, acts: seq<Action>): int
    requires WellFormed(s) && Legal(s, acts)
    decreases |acts|
  {
    if acts == [] then 0
    else
      NextWellFormed(s, acts[0]);
      (if AcceptedBy(s, acts[0]) == [] then 0 else s.pcs[acts[0].t].nbytes) +
      AcceptedBytes(Next(s, acts[0]), acts[1..])
  }

  ghost function BufsOf(items: seq<Item>, lo: nat, hi: nat): (r: seq<Buf>)
    requires lo <= hi <= |items|
    ensures |r| == hi - lo && forall i :: 0 <= i < hi - lo ==> r[i] == items[lo + i].buf
  {
    seq(hi - lo, i requires 0 <= i < hi - lo => items[lo + i].buf)
  }

  /** The action takes the front: a successful compare-and-set or the lock-holder's store. */
  predicate Takes(s: State, a: Action)
    requires a.t < |s.pcs|
  {
    a.Step? && (s.pcs[a.t].SStore? || (s.pcs[a.t].MCas? && s.pcs[a.t].head == s.sh.consHead))
  }

  /** One action moves one thread, and forgets no record. */
  lemma {:induction false} StepMoves(s: State, a: Action)
    requires WellFormed(s) && Enabled(s, a)
    ensures MovesOnly(s, Next(s, a), a.t) && s.h.items <= Next(s, a).h.items
  {
  }

  /** What one action adds to the records. */
  lemma {:induction false} StepCounts(s: State, a: Action)
    requires WellFormed(s) && Enabled(s, a)
    ensures
      var s' := Next(s, a);
      && s'.h.pt == s.h.pt + |AcceptedBy(s, a)|
      && s'.h.ch == s.h.ch + (if Takes(s, a) then 1 else 0)
      && s'.h.out == s.h.out + GotBy(s, a)
  {
  }

  /** The buffer an action publishes is the one stored under ticket `pt`. */
  lemma {:induction false} AcceptedIsRecorded(s: State, a: Action)
    requires Inv(s) && Enabled(s, a)
    ensures AcceptedBy(s, a) != [] ==>
              && s.h.pt < s.h.ph && s.h.items[s.h.pt].buf == AcceptedBy(s, a)[0]
              && s.h.items[s.h.pt].nbytes == s.pcs[a.t].nbytes
  {
    assert At(s, a.t);
  }

  /** What a run leaves in the records is what its steps published and handed out. */
  ghost predicate Records(s: State, e: State, accepted: seq<Buf>, bytes: int, got: seq<Buf>)
    requires Recorded(s) && Recorded(e)
  {
    && s.h.items <= e.h.items && s.h.pt <= e.h.pt
    && accepted == BufsOf(e.h.items, s.h.pt, e.h.pt)
    && bytes == BytesTo(e.h.items, e.h.pt) - BytesTo(e.h.items, s.h.pt)
    && e.h.out == s.h.out + got
  }

  lemma {:induction false} StepRecords(s: State, a: Action)
    requires Inv(s) && Enabled(s, a) && Inv(Next(s, a))
    ensures Records(s, Next(s, a), AcceptedBy(s, a),
                    if AcceptedBy(s, a) == [] then 0 else s.pcs[a.t].nbytes, GotBy(s, a))
  {
    StepMoves(s, a);
    StepCounts(s, a);
    AcceptedIsRecorded(s, a);
  }

  lemma {:induction false} RecordsCompose(s: State, m: State, e: State, b: seq<Buf>, b': seq<Buf>, n: int, n': int, g: seq<Buf>, g': seq<Buf>)
    requires Recorded(s) && Recorded(m) && Recorded(e)
    requires Records(s, m, b, n, g) && Records(m, e, b', n', g')
    ensures Records(s, e, b + b', n + n', g + g')
  {
    BytesOfPrefix(m.h.items, e.h.items, m.h.pt);
    BytesOfPrefix(m.h.items, e.h.items, s.h.pt);
  }

  lemma {:induction false} RunRecords(s: State, acts: seq<Action>)
    requires Inv(s) && Legal(s, acts) && Roomy(s, acts)
    ensures Inv(Exec(s, acts))
    ensures Records(s, Exec(s, acts), Accepts(s, acts), AcceptedBytes(s, acts), Gots(s, acts))
    decreases |acts|
  {
    if acts != [] {
      var m := Next(s, acts[0]);
      InvIsKept(s, acts[0]);
      StepRecords(s, acts[0]);
      RunRecords(m, acts[1..]);
      RecordsCompose(s, m, Exec(m, acts[1..]), AcceptedBy(s, acts[0]), Accepts(m, acts[1..]),
                     if AcceptedBy(s, acts[0]) == [] then 0 else s.pcs[acts[0].t].nbytes,
                     AcceptedBytes(m, acts[1..]), GotBy(s, acts[0]), Gots(m, acts[1..]));
    }
  }

  /**
   No loss, no duplication, first in first out: from an empty ring, what all consumers
   together received is a prefix of what all producers together had accepted, and the
   difference is what the ring still holds. The counters agree whenever no producer is
   inside its update block.
   */
  lemma {:induction false} FirstInFirstOut(s: State, acts: seq<Action>)
    requires Initial(s) && Legal(s, acts) && Roomy(s, acts)
    ensures Gots(s, acts) <= Accepts(s, acts)
    ensures |Accepts(s, acts)| - |Gots(s, acts)| < s.size
    ensures
      var e := Exec(s, acts);
      (forall t :: 0 <= t < |e.pcs| ==> !Updating(e.pcs[t])) ==>
        && e.sh.bufs == |Accepts(s, acts)| % WORD64
        && e.sh.bytes == AcceptedBytes(s, acts) % WORD64
  {
    InitialInv(s);
    RunRecords(s, acts);
    var e := Exec(s, acts);
    assert s.h.out == [];
    assert Gots(s, acts) == e.h.out;
    forall k: nat | k < e.h.ct
      ensures e.h.out[k] == Accepts(s, acts)[k]
    {
      assert Delivered(e, k);
    }
  }

  /** The order, the masked fields and the slots, in every state of such a run. */
  lemma {:induction false} EveryReachableState(s: State, acts: seq<Action>)
    requires Initial(s) && Legal(s, acts) && Roomy(s, acts)
    ensures Inv(Exec(s, acts)) && Ordered(Exec(s, acts)) && FieldsAreSlots(Exec(s, acts))
    ensures
      var e := Exec(s, acts);
      forall t: nat, u: nat ::
        t < |e.pcs| && u < |e.pcs| && t != u &&
        (OwnsProd(e.pcs[t]) || OwnsCons(e.pcs[t])) && (OwnsProd(e.pcs[u]) || OwnsCons(e.pcs[u])) ==>
          e.pcs[t].head != e.pcs[u].head
  {
    InitialInv(s);
    RunKeepsInv(s, acts);
    var e := Exec(s, acts);
    forall t: nat, u: nat |
      t < |e.pcs| && u < |e.pcs| && t != u &&
      (OwnsProd(e.pcs[t]) || OwnsCons(e.pcs[t])) && (OwnsProd(e.pcs[u]) || OwnsCons(e.pcs[u]))
      ensures e.pcs[t].head != e.pcs[u].head
    {
      SlotsAreDisjoint(e, t, u);
    }
  }

  /** Two operations in flight never hold the same slot. */
  lemma {:induction false} SlotsAreDisjoint(s: State, t: Tid, u: Tid)
    requires Inv(s) && t < |s.pcs| && u < |s.pcs| && t != u
    requires OwnsProd(s.pcs[t]) || OwnsCons(s.pcs[t])
    requires OwnsProd(s.pcs[u]) || OwnsCons(s.pcs[u])
    ensures s.pcs[t].head != s.pcs[u].head
  {
    assert At(s, t) && At(s, u);
    LapSlots(s, s.h.tk[t], s.h.tk[u]);
  }

  // ------------------------------------------------------------------ linearization

  /** The queue the ring stands for: published and not yet taken. */
  ghost function Queue(s: State): seq<Buf>
    requires Recorded(s)
  {
    BufsOf(s.h.items, s.h.ch, s.h.pt)
  }

  lemma {:induction false} TakerFindsFront(s: State, a: Action)
    requires Inv(s) && Enabled(s, a) && Room(s, a) && Takes(s, a)
    ensures s.h.ch < s.h.pt
  {
    assert At(s, a.t);
    EmptyTest(s);
  }

  lemma {:induction false} QueuePops(s: State, s': State)
    requires Recorded(s) && Recorded(s') && s.h.items <= s'.h.items
    requires s'.h.ch == s.h.ch + 1 && s'.h.pt == s.h.pt && s.h.ch < s.h.pt
    ensures Queue(s') == Queue(s)[1..]
  {
  }

  lemma {:induction false} QueueGrows(s: State, s': State, more: seq<Buf>)
    requires Recorded(s) && Recorded(s') && s.h.items <= s'.h.items && |more| <= 1
    requires s'.h.ch == s.h.ch && s'.h.pt == s.h.pt + |more|
    requires more != [] ==> s'.h.items[s.h.pt].buf == more[0]
    ensures Queue(s') == Queue(s) + more
  {
  }

  /** Every step is a push of its own buffer, a pop, or invisible. */
  lemma {:induction false} StepRefinesQueue(s: State, a: Action)
    requires Inv(s) && Enabled(s, a) && Room(s, a)
    ensures Inv(Next(s, a))
    ensures Takes(s, a) ==> Queue(s) != [] && Queue(Next(s, a)) == Queue(s)[1..]
    ensures !Takes(s, a) ==> Queue(Next(s, a)) == Queue(s) + AcceptedBy(s, a)
  {
    InvIsKept(s, a);
    StepMoves(s, a);
    StepCounts(s, a);
    if Takes(s, a) {
      TakerFindsFront(s, a);
      QueuePops(s, Next(s, a));
    } else {
      AcceptedIsRecorded(s, a);
      QueueGrows(s, Next(s, a), AcceptedBy(s, a));
    }
  }

  /** Thread `t` is bound to return `b`, or has. */
  ghost predicate Bound(s: State, t: Tid, b: Buf)
    requires Recorded(s) && t < |s.pcs|
  {
    || (OwnsCons(s.pcs[t]) && s.h.tk[t] < s.h.ph && s.h.items[s.h.tk[t]].buf == b)
    || (s.pcs[t].SStore? && s.h.ch < s.h.ph && s.h.items[s.h.ch].buf == b)
    || s.pcs[t] == Returned(Got(b))
  }

  lemma {:induction false} TakeBinds(s: State, a: Action)
    requires Inv(s) && Enabled(s, a) && Room(s, a) && Takes(s, a)
    ensures Inv(Next(s, a)) && |Queue(s)| > 0 && Bound(Next(s, a), a.t, Queue(s)[0])
  {
    TakerFindsFront(s, a);
    InvIsKept(s, a);
    assert At(s, a.t);
  }

  /** The owner's own steps carry the buffer to its return. */
  lemma {:induction false} OwnStepKeepsBound(s: State, t: Tid, b: Buf)
    requires Inv(s) && Enabled(s, Step(t)) && (OwnsCons(s.pcs[t]) || s.pcs[t].SStore?) && Bound(s, t, b)
    requires Inv(Next(s, Step(t)))
    ensures Bound(Next(s, Step(t)), t, b)
  {
    assert At(s, t);
    StepMoves(s, Step(t));
    StepCounts(s, Step(t));
  }

  /** While one thread has the consumers' lock, no other takes. */
  lemma {:induction false} LockKeepsTakersOut(s: State, a: Action, t: Tid)
    requires Alone(s) && t < |s.pcs| && Exclusive(s.pcs[t]) && a.t < |s.pcs| && a.t != t
    ensures !Takes(s, a)
  {
    assert AloneAt(s, t);
  }

  /** The steps of others leave what the thread is bound to alone. */
  lemma {:induction false} OtherStepKeepsBound(s: State, a: Action, t: Tid, b: Buf)
    requires Inv(s) && Enabled(s, a) && t < |s.pcs| && a.t != t && Bound(s, t, b)
    requires Inv(Next(s, a))
    ensures Bound(Next(s, a), t, b)
  {
    StepMoves(s, a);
    StepCounts(s, a);
    if s.pcs[t].SStore? {
      LockKeepsTakersOut(s, a, t);
    }
  }

  lemma {:induction false} BoundStep(s: State, a: Action, t: Tid, b: Buf)
    requires Inv(s) && Enabled(s, a) && Room(s, a) && t < |s.pcs| && Bound(s, t, b)
    requires a.t == t ==> a.Step?
    ensures Inv(Next(s, a)) && Bound(Next(s, a), t, b)
  {
    InvIsKept(s, a);
    if a.t == t {
      OwnStepKeepsBound(s, t, b);
    } else {
      OtherStepKeepsBound(s, a, t, b);
    }
  }

  /** Thread `t` calls nothing anew during the run. */
  ghost predicate OnlySteps(acts: seq<Action>, t: Tid) {
    forall i :: 0 <= i < |acts| ==> StepsIfBy(acts[i], t)
  }

  predicate StepsIfBy(a: Action, t: Tid) { a.t == t ==> a.Step? }

  lemma {:induction false} OnlyStepsTail(acts: seq<Action>, t: Tid)
    requires acts != [] && OnlySteps(acts, t)
    ensures StepsIfBy(acts[0], t) && OnlySteps(acts[1..], t)
  {
  }

  /** Whoever took the front returns it, whatever the others do meanwhile. */
  lemma {:induction false} BoundRun(s: State, acts: seq<Action>, t: Tid, b: Buf)
    requires Inv(s) && Legal(s, acts) && Roomy(s, acts) && t < |s.pcs| && Bound(s, t, b)
    requires OnlySteps(acts, t)
    ensures Recorded(Exec(s, acts)) && Bound(Exec(s, acts), t, b)
    decreases |acts|
  {
    if acts != [] {
      var rest := acts[1..];
      OnlyStepsTail(acts, t);
      NextWellFormed(s, acts[0]);
      BoundStep(s, acts[0], t, b);
      BoundRun(Next(s, acts[0]), rest, t, b);
    }
  }

  /** The lock-holding consumer's NULL is exact: it is decided at the load of `br_prod_tail`. */
  lemma {:induction false} ScNullIffEmpty(s: State, t: Tid)
    requires Inv(s) && t < |s.pcs| && s.pcs[t].STail?
    ensures Next(s, Step(t)).pcs[t] == Returned(Null) <==> Queue(s) == []
    ensures Queue(s) != [] ==>
              Next(s, Step(t)).pcs[t] == SStore(s.pcs[t].want, s.pcs[t].head)
  {
    assert At(s, t);
    EmptyTest(s);
  }

  /** A finished call keeps its result until its thread calls again. */
  lemma {:induction false} ResultStays(s: State, acts: seq<Action>, t: Tid)
    requires WellFormed(s) && Legal(s, acts) && t < |s.pcs| && s.pcs[t].Returned?
    requires OnlySteps(acts, t)
    ensures Exec(s, acts).pcs[t] == s.pcs[t]
    decreases |acts|
  {
    if acts != [] {
      var rest := acts[1..];
      OnlyStepsTail(acts, t);
      NextWellFormed(s, acts[0]);
      StepMoves(s, acts[0]);
      ResultStays(Next(s, acts[0]), rest, t);
    }
  }

  /**
   The single consumer's dequeue is a pop at its load of `br_prod_tail`: whatever the
   producers do until it returns, it returns NULL if nothing was published then, and
   otherwise the buffer that was oldest then.
   */
  lemma {:induction false} ScDequeueIsAPop(s: State, acts: seq<Action>, t: Tid)
    requires Inv(s) && t < |s.pcs| && s.pcs[t].STail?
    requires acts != [] && acts[0] == Step(t) && Legal(s, acts) && Roomy(s, acts)
    requires OnlySteps(acts, t)
    ensures Exec(s, acts).pcs[t].Returned? ==>
              Exec(s, acts).pcs[t].ret == if Queue(s) == [] then Null else Got(Queue(s)[0])
  {
    var s', rest := Next(s, acts[0]), acts[1..];
    OnlyStepsTail(acts, t);
    ScNullIffEmpty(s, t);
    NextWellFormed(s, acts[0]);
    InvIsKept(s, acts[0]);
    if Queue(s) == [] {
      ResultStays(s', rest, t);
    } else {
      BoundRun(s', rest, t, Queue(s)[0]);
    }
  }

  /** Between that load and its store the front cannot change under the consumer. */
  lemma {:induction false} ScFrontIsStable(s: State, a: Action, t: Tid)
    requires Inv(s) && Enabled(s, a) && Room(s, a) && t < |s.pcs| && a.t != t
    requires Exclusive(s.pcs[t]) && Queue(s) != []
    ensures Inv(Next(s, a)) && Queue(Next(s, a)) != [] && Queue(Next(s, a))[0] == Queue(s)[0]
    ensures Queue(s) <= Queue(Next(s, a))
  {
    LockKeepsTakersOut(s, a, t);
    StepRefinesQueue(s, a);
  }

  /** Thread `t` is in a dequeue that an accepted peek of `m` led to, or has returned `m` from it. */
  ghost predicate Promised(s: State, t: Tid, m: Buf)
    requires t < |s.pcs|
  {
    var pc := s.pcs[t];
    || ((pc.SHead? || pc.STail? || pc.SStore? || pc.SRead? || pc.SPublish?) && pc.want == Exactly(m))
    || pc == Returned(Got(m))
  }

  /** The consumer finds the ring nonempty, and what it reads is what was promised. */
  lemma {:induction false} PromiseIsKept(s: State, a: Action, t: Tid, m: Buf)
    requires Inv(s) && Enabled(s, a) && t < |s.pcs| && StepsIfBy(a, t) && Promised(s, t, m)
    ensures Promised(Next(s, a), t, m)
  {
    if a.t == t {
      assert At(s, t);
      EmptyTest(s);
    } else {
      StepMoves(s, a);
    }
  }

  lemma {:induction false} PromiseRun(s: State, acts: seq<Action>, t: Tid, m: Buf)
    requires Inv(s) && Legal(s, acts) && Roomy(s, acts) && t < |s.pcs| && OnlySteps(acts, t) && Promised(s, t, m)
    ensures Promised(Exec(s, acts), t, m)
    decreases |acts|
  {
    if acts != [] {
      OnlyStepsTail(acts, t);
      PromiseIsKept(s, acts[0], t, m);
      InvIsKept(s, acts[0]);
      PromiseRun(Next(s, acts[0]), acts[1..], t, m);
    }
  }

  /**
   drbr_dequeue_cond: the mbuf shown to the predicate is the oldest published one, and when
   the predicate accepts it, then whatever the producers do until the call returns, what it
   returns is that mbuf.
   */
  lemma {:induction false} PeekedIsDequeued(s: State, acts: seq<Action>, t: Tid, m: Buf)
    requires Inv(s) && t < |s.pcs| && s.pcs[t] == KAsk(m)
    requires acts != [] && acts[0] == Answer(t, true) && Legal(s, acts) && Roomy(s, acts)
    requires OnlySteps(acts[1..], t)
    ensures Queue(s) != [] && Queue(s)[0] == m
    ensures Exec(s, acts).pcs[t].Returned? ==> Exec(s, acts).pcs[t].ret == Got(m)
  {
    assert At(s, t);
    InvIsKept(s, acts[0]);
    PromiseRun(Next(s, acts[0]), acts[1..], t, m);
  }

  /** ENOBUFS tells the truth exactly when the head has not moved since it was loaded. */
  lemma {:induction false} NoBufsIffFull(s: State, t: Tid)
    requires Inv(s) && t < |s.pcs| && s.pcs[t].ETail? && Next(s, Step(t)).pcs[t] == Returned(NoBufs)
    ensures s.h.ph + 1 == s.h.ct + s.size <==> s.sh.prodHead == s.pcs[t].head
  {
    assert At(s, t);
    FullTest(s);
    var i := s.pcs[t].head;
    if s.h.ph + 1 == s.h.ct + s.size {
      NextIndexIsNextSlot(s.h.ph, s.size);
      NextIndexIsNextSlot(s.h.tk[t], s.size);
      SlotSuccessorInjective(s.h.ph, s.h.tk[t], s.size);
    }
  }

  lemma {:induction false} SlotSuccessorInjective(a: nat, b: nat, n: nat)
    requires n > 0 && Slot(a + 1, n) == Slot(b + 1, n)
    ensures Slot(a, n) == Slot(b, n)
  {
    if n > 1 {
      SlotAdd(a, 1, n);
      SlotAdd(b, 1, n);
    }
  }

  /** Likewise NULL from the multi-consumer dequeue. */
  lemma {:induction false} McNullIffEmpty(s: State, t: Tid)
    requires Inv(s) && t < |s.pcs| && s.pcs[t].MTail? && Next(s, Step(t)).pcs[t] == Returned(Null)
    ensures Queue(s) == [] <==> s.sh.consHead == s.pcs[t].head
  {
    EmptyTest(s);
  }

  // ------------------------------------------------------------------ one producer, one consumer

  /** Only `p` enqueues and dequeues are the lock-protected ones. */
  ghost predicate SoloAction(a: Action, p: Tid) {
    !a.StartMc? && (a.StartEnqueue? ==> a.t == p)
  }

  ghost predicate SoloActs(acts: seq<Action>, p: Tid) {
    forall i :: 0 <= i < |acts| ==> SoloAction(acts[i], p)
  }

  ghost predicate SoloAt(s: State, t: Tid, p: Tid)
    requires |s.h.tk| == |s.pcs| && t < |s.pcs|
  {
    && (Consuming(s.pcs[t]) ==> Exclusive(s.pcs[t]))
    && (Producing(s.pcs[t]) ==> t == p)
    && (s.pcs[t].ETail? || s.pcs[t].ECas? ==> s.h.tk[t] == s.h.ph)
  }

  ghost predicate Solo(s: State, p: Tid)
    requires |s.h.tk| == |s.pcs|
  {
    forall t: nat :: t < |s.pcs| ==> SoloAt(s, t, p)
  }

  /** The producer head moves by a compare-and-set only. */
  lemma {:induction false} HeadMoves(s: State, a: Action)
    requires WellFormed(s) && Enabled(s, a)
    ensures Next(s, a).h.ph == s.h.ph || (a.Step? && s.pcs[a.t].ECas?)
  {
  }

  lemma {:induction false} SoloOwnStep(s: State, a: Action, p: Tid)
    requires WellFormed(s) && Enabled(s, a) && SoloAt(s, a.t, p) && SoloAction(a, p)
    requires |Next(s, a).h.tk| == |s.pcs|
    ensures SoloAt(Next(s, a), a.t, p) && FreshCas(s, a)
  {
  }

  lemma {:induction false} SoloStep(s: State, a: Action, p: Tid)
    requires WellFormed(s) && Enabled(s, a) && Solo(s, p) && SoloAction(a, p)
    ensures WellFormed(Next(s, a)) && Solo(Next(s, a), p) && FreshCas(s, a)
  {
    NextWellFormed(s, a);
    StepMoves(s, a);
    HeadMoves(s, a);
    assert SoloAt(s, a.t, p);
    SoloOwnStep(s, a, p);
    forall t: nat | t < |s.pcs| && t != a.t
      ensures SoloAt(Next(s, a), t, p)
    {
      assert SoloAt(s, t, p);
    }
  }

  /** There the window hypothesis holds of itself. */
  lemma {:induction false} SoloIsFresh(s: State, acts: seq<Action>, p: Tid)
    requires WellFormed(s) && Legal(s, acts) && Solo(s, p) && SoloActs(acts, p)
    ensures Fresh(s, acts)
    decreases |acts|
  {
    if acts != [] {
      SoloStep(s, acts[0], p);
      SoloIsFresh(Next(s, acts[0]), acts[1..], p);
    }
  }

  /** So with one producer and one consumer nothing is asked of the schedule. */
  lemma {:induction false} SingleProducerSingleConsumer(s: State, acts: seq<Action>, p: Tid)
    requires Initial(s) && Legal(s, acts) && SoloActs(acts, p)
    ensures Gots(s, acts) <= Accepts(s, acts)
    ensures AlwaysOrdered(s, acts)
  {
    SoloIsFresh(s, acts, p);
    InitialInv(s);
    FreshIsRoomy(s, acts);
    FirstInFirstOut(s, acts);
    OrderedIffRoomy(s, acts);
  }
}
