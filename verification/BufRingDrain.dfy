/**
 Running reservations to their end, also in states where the index order is already broken:
 spin-waits end, and compare-and-sets without room are exactly the steps after which first
 in, first out can fail.
 */
module BufRingDrain {
  import opened Sequences
  import opened RingArithmetic
  import opened BufRingProtocol
  import opened BufRingInvariant
  import opened BufRingTheorems

  // ------------------------------------------------------------------ runs put together

  lemma {:induction false} Prepend(s: State, a: Action, rest: seq<Action>)
    requires WellFormed(s) && Enabled(s, a) && WellFormed(Next(s, a)) && Legal(Next(s, a), rest)
    ensures Legal(s, [a] + rest) && Exec(s, [a] + rest) == Exec(Next(s, a), rest)
    ensures Accepts(s, [a] + rest) == AcceptedBy(s, a) + Accepts(Next(s, a), rest)
    ensures Gots(s, [a] + rest) == GotBy(s, a) + Gots(Next(s, a), rest)
    ensures Roomy(s, [a] + rest) <==> Room(s, a) && Roomy(Next(s, a), rest)
    ensures Fresh(s, [a] + rest) <==> FreshCas(s, a) && Fresh(Next(s, a), rest)
  {
    assert ([a] + rest)[1..] == rest;
  }

  /** What a run counts, whether or not its compare-and-sets have room. */
  lemma {:induction false} RunAccepts(s: State, acts: seq<Action>)
    requires WellFormed(s) && Legal(s, acts)
    ensures Exec(s, acts).h.pt == s.h.pt + |Accepts(s, acts)|
    decreases |acts|
  {
    if acts != [] {
      NextWellFormed(s, acts[0]);
      StepCounts(s, acts[0]);
      RunAccepts(Next(s, acts[0]), acts[1..]);
    }
  }

  lemma {:induction false} RunGots(s: State, acts: seq<Action>)
    requires WellFormed(s) && Legal(s, acts)
    ensures Exec(s, acts).h.out == s.h.out + Gots(s, acts)
    decreases |acts|
  {
    if acts != [] {
      var s', rest := Next(s, acts[0]), acts[1..];
      NextWellFormed(s, acts[0]);
      StepCounts(s, acts[0]);
      RunGots(s', rest);
      Regroup(s.h.out, GotBy(s, acts[0]), Gots(s', rest));
    }
  }

  lemma {:induction false} RunKeepsItems(s: State, acts: seq<Action>)
    requires WellFormed(s) && Legal(s, acts)
    ensures s.h.items <= Exec(s, acts).h.items
    decreases |acts|
  {
    if acts != [] {
      NextWellFormed(s, acts[0]);
      StepMoves(s, acts[0]);
      RunKeepsItems(Next(s, acts[0]), acts[1..]);
    }
  }

  lemma {:induction false} RunConcat(s: State, a: seq<Action>, b: seq<Action>)
    requires WellFormed(s)
    ensures Legal(s, a + b) <==> Legal(s, a) && Legal(Exec(s, a), b)
    ensures Legal(s, a + b) ==> Exec(s, a + b) == Exec(Exec(s, a), b)
    decreases |a|
  {
    if a == [] {
      assert a + b == b;
    } else {
      assert (a + b)[0] == a[0] && (a + b)[1..] == a[1..] + b;
      if Enabled(s, a[0]) {
        NextWellFormed(s, a[0]);
        RunConcat(Next(s, a[0]), a[1..], b);
      }
    }
  }

  lemma {:induction false} AcceptsConcat(s: State, a: seq<Action>, b: seq<Action>)
    requires WellFormed(s) && Legal(s, a) && Legal(Exec(s, a), b) && Legal(s, a + b)
    ensures Accepts(s, a + b) == Accepts(s, a) + Accepts(Exec(s, a), b)
    decreases |a|
  {
    if a == [] {
      assert a + b == b;
    } else {
      assert a + b == [a[0]] + (a[1..] + b) && a == [a[0]] + a[1..];
      var s' := Next(s, a[0]);
      NextWellFormed(s, a[0]);
      RunConcat(s', a[1..], b);
      AcceptsConcat(s', a[1..], b);
      Prepend(s, a[0], a[1..] + b);
      Prepend(s, a[0], a[1..]);
      Regroup(AcceptedBy(s, a[0]), Accepts(s', a[1..]), Accepts(Exec(s, a), b));
    }
  }

  lemma {:induction false} GotsConcat(s: State, a: seq<Action>, b: seq<Action>)
    requires WellFormed(s) && Legal(s, a) && Legal(Exec(s, a), b) && Legal(s, a + b)
    ensures Gots(s, a + b) == Gots(s, a) + Gots(Exec(s, a), b)
    decreases |a|
  {
    if a == [] {
      assert a + b == b;
    } else {
      assert a + b == [a[0]] + (a[1..] + b) && a == [a[0]] + a[1..];
      var s' := Next(s, a[0]);
      NextWellFormed(s, a[0]);
      RunConcat(s', a[1..], b);
      GotsConcat(s', a[1..], b);
      Prepend(s, a[0], a[1..] + b);
      Prepend(s, a[0], a[1..]);
      Regroup(GotBy(s, a[0]), Gots(s', a[1..]), Gots(Exec(s, a), b));
    }
  }

  lemma {:induction false} RoomyConcat(s: State, a: seq<Action>, b: seq<Action>)
    requires WellFormed(s) && Legal(s, a) && Legal(Exec(s, a), b) && Legal(s, a + b)
    ensures Roomy(s, a + b) <==> Roomy(s, a) && Roomy(Exec(s, a), b)
    decreases |a|
  {
    if a == [] {
      assert a + b == b;
    } else {
      assert (a + b)[0] == a[0] && (a + b)[1..] == a[1..] + b;
      NextWellFormed(s, a[0]);
      RoomyConcat(Next(s, a[0]), a[1..], b);
    }
  }

  // ------------------------------------------------------------------ draining producers

  /** How many of its own steps a thread is from publishing. */
  function StepsLeft(pc: Pc): nat {
    match pc
    case EWrite(_, _, _) => 7
    case EWait(_, _, _) => 6
    case EBufsLoad(_, _, _) => 5
    case EBufsStore(_, _, _, _) => 4
    case EBytesLoad(_, _, _) => 3
    case EBytesStore(_, _, _, _) => 2
    case EPublish(_, _, _) => 1
    case MRead(_) => 3
    case MWait(_, _) => 2
    case MPublish(_, _) => 1
    case SRead(_, _) => 2
    case SPublish(_, _, _) => 1
    case _ => 0
  }

  /** Ticket `k` is held by a thread that will publish its buffer once the tail gets there. */
  ghost predicate QueuedProducer(s: State, k: nat)
    requires WellFormed(s) && k < |s.h.items|
  {
    var t := s.h.items[k].owner;
    && t < |s.pcs| && OwnsProd(s.pcs[t]) && s.h.tk[t] == k
    && s.pcs[t].head == Slot(k, s.size) && s.pcs[t].buf == s.h.items[k].buf
  }

  /** The producers' half of the invariant that does not depend on the index order. */
  ghost predicate ProducersQueued(s: State) {
    && WellFormed(s) && s.h.pt <= s.h.ph == |s.h.items| && s.sh.prodTail == Slot(s.h.pt, s.size)
    && forall k: nat :: s.h.pt <= k < s.h.ph ==> QueuedProducer(s, k)
  }

  /** The producer whose turn it is. */
  ghost function TailProducer(s: State): (t: Tid)
    requires ProducersQueued(s) && s.h.pt < s.h.ph
    ensures t < |s.pcs| && OwnsProd(s.pcs[t]) && Enabled(s, Step(t))
  {
    assert QueuedProducer(s, s.h.pt);
    s.h.items[s.h.pt].owner
  }

  /** What draining producers leaves alone. */
  ghost predicate SameButProducers(s: State, e: State) {
    && e.size == s.size && |e.pcs| == |s.pcs| && |e.h.tk| == |s.h.tk| == |s.pcs|
    && e.sh.prodHead == s.sh.prodHead && e.sh.consHead == s.sh.consHead && e.sh.consTail == s.sh.consTail
    && e.h == s.h.(pt := e.h.pt, tk := e.h.tk)
    && forall u: nat :: u < |s.pcs| ==> ProducerOnwards(s, e, u)
  }

  ghost predicate ProducerOnwards(s: State, e: State, u: Tid)
    requires |e.pcs| == |s.pcs| && |e.h.tk| == |s.h.tk| == |s.pcs| && u < |s.pcs|
  {
    && e.h.tk[u] == s.h.tk[u]
    && (e.pcs[u] == s.pcs[u] ||
        (OwnsProd(s.pcs[u]) && (OwnsProd(e.pcs[u]) || e.pcs[u] == Returned(Accepted))))
  }

  /** The owner of the tail ticket moves; no compare-and-set is involved. */
  lemma {:induction false} ProducerMoves(s: State)
    requires ProducersQueued(s) && s.h.pt < s.h.ph
    ensures
      var t := TailProducer(s);
      var s' := Next(s, Step(t));
      && Room(s, Step(t)) && FreshCas(s, Step(t))
      && SameButProducers(s, s') && GotBy(s, Step(t)) == []
      && s'.sh.ring == (if s.pcs[t].EWrite? then s.sh.ring[Slot(s.h.pt, s.size) := s.pcs[t].buf] else s.sh.ring)
      && (if s.pcs[t].EPublish? then
            && s'.h.pt == s.h.pt + 1 && AcceptedBy(s, Step(t)) == [s.h.items[s.h.pt].buf]
            && s'.sh.prodTail == Slot(s'.h.pt, s.size)
          else
            && s'.h.pt == s.h.pt && AcceptedBy(s, Step(t)) == [] && s'.sh.prodTail == s.sh.prodTail
            && OwnsProd(s'.pcs[t]) && StepsLeft(s'.pcs[t]) == StepsLeft(s.pcs[t]) - 1
            && s'.pcs[t].head == s.pcs[t].head && s'.pcs[t].buf == s.pcs[t].buf)
  {
    assert QueuedProducer(s, s.h.pt);
    NextIndexIsNextSlot(s.h.pt, s.size);
  }

  lemma {:induction false} ProducerMoveKeepsQueue(s: State)
    requires ProducersQueued(s) && s.h.pt < s.h.ph
    ensures ProducersQueued(Next(s, Step(TailProducer(s))))
  {
    var t := TailProducer(s);
    var s' := Next(s, Step(t));
    ProducerMoves(s);
    NextWellFormed(s, Step(t));
    StepMoves(s, Step(t));
    assert QueuedProducer(s, s.h.pt);
    forall k: nat | s'.h.pt <= k < s'.h.ph
      ensures QueuedProducer(s', k)
    {
      assert QueuedProducer(s, k);
    }
  }

  lemma {:induction false} SameButProducersTrans(s: State, m: State, e: State)
    requires SameButProducers(s, m) && SameButProducers(m, e)
    ensures SameButProducers(s, e)
  {
    forall u: nat | u < |s.pcs|
      ensures ProducerOnwards(s, e, u)
    {
      assert ProducerOnwards(s, m, u) && ProducerOnwards(m, e, u);
    }
  }

  /** A slot that none of the outstanding tickets names. */
  ghost predicate Untouched(s: State, i: nat)
    requires s.size > 0
  {
    forall k: nat :: s.h.pt <= k < s.h.ph ==> Slot(k, s.size) != i
  }

  lemma {:induction false} ProducerMoveUntouched(s: State, i: nat)
    requires ProducersQueued(s) && s.h.pt < s.h.ph && i < s.size && Untouched(s, i)
    ensures
      var s' := Next(s, Step(TailProducer(s)));
      s'.size == s.size && Untouched(s', i) && |s'.sh.ring| == s.size && s'.sh.ring[i] == s.sh.ring[i]
  {
    ProducerMoves(s);
  }

  lemma {:induction false} ProducerMoveAccepts(s: State)
    requires ProducersQueued(s) && s.h.pt < s.h.ph
    ensures
      var s' := Next(s, Step(TailProducer(s)));
      && s'.h.items == s.h.items && s'.h.ph == s.h.ph && s.h.pt <= s'.h.pt <= s.h.ph
      && AcceptedBy(s, Step(TailProducer(s))) + BufsOf(s.h.items, s'.h.pt, s.h.ph) == BufsOf(s.h.items, s.h.pt, s.h.ph)
  {
    ProducerMoves(s);
  }

  /** The queued producers publish, one after the other, by steps of their own. */
  lemma {:induction false} DrainProducers(s: State, i: nat) returns (acts: seq<Action>)
    requires ProducersQueued(s) && i < s.size
    ensures Legal(s, acts) && Roomy(s, acts) && Fresh(s, acts)
    ensures forall j :: 0 <= j < |acts| ==> acts[j].Step?
    ensures
      var e := Exec(s, acts);
      && SameButProducers(s, e) && e.h.pt == s.h.ph && e.sh.prodTail == Slot(s.h.ph, s.size)
      && (Untouched(s, i) ==> e.sh.ring[i] == s.sh.ring[i])
    ensures Accepts(s, acts) == BufsOf(s.h.items, s.h.pt, s.h.ph) && Gots(s, acts) == []
    decreases s.h.ph - s.h.pt, if s.h.pt < s.h.ph then StepsLeft(s.pcs[TailProducer(s)]) else 0
  {
    if s.h.pt == s.h.ph {
      return [];
    }
    var a := Step(TailProducer(s));
    ProducerMoves(s);
    ProducerMoveKeepsQueue(s);
    ProducerMoveAccepts(s);
    if Untouched(s, i) {
      ProducerMoveUntouched(s, i);
    }
    var s' := Next(s, a);
    var rest := DrainProducers(s', i);
    acts := [a] + rest;
    Prepend(s, a, rest);
    SameButProducersTrans(s, s', Exec(s', rest));
  }

  // ------------------------------------------------------------------ draining consumers

  /** What a consumer between reservation and return returns. */
  function Due(s: State, t: Tid): Buf
    requires WellFormed(s) && t < |s.pcs| && OwnsCons(s.pcs[t])
  {
    if s.pcs[t].MRead? || s.pcs[t].SRead? then s.sh.ring[s.pcs[t].head] else s.pcs[t].buf
  }

  ghost predicate QueuedConsumer(s: State, k: nat)
    requires WellFormed(s) && k < |s.h.takers|
  {
    var t := s.h.takers[k];
    t < |s.pcs| && OwnsCons(s.pcs[t]) && s.h.tk[t] == k && s.pcs[t].head == Slot(k, s.size)
  }

  ghost predicate ConsumersQueued(s: State) {
    && WellFormed(s) && s.h.ct <= s.h.ch == |s.h.takers| && s.sh.consTail == Slot(s.h.ct, s.size)
    && forall k: nat :: s.h.ct <= k < s.h.ch ==> QueuedConsumer(s, k)
  }

  /** The consumer whose turn it is. */
  ghost function TailConsumer(s: State): (t: Tid)
    requires ConsumersQueued(s) && s.h.ct < s.h.ch
    ensures t < |s.pcs| && OwnsCons(s.pcs[t]) && Enabled(s, Step(t))
  {
    assert QueuedConsumer(s, s.h.ct);
    s.h.takers[s.h.ct]
  }

  ghost predicate SameButConsumers(s: State, e: State) {
    && e.size == s.size && |e.pcs| == |s.pcs| && |e.h.tk| == |s.h.tk| == |s.pcs|
    && e.sh == s.sh.(consTail := e.sh.consTail)
    && e.h == s.h.(ct := e.h.ct, out := e.h.out, tk := e.h.tk)
    && forall u: nat :: u < |s.pcs| ==> ConsumerOnwards(s, e, u)
  }

  ghost predicate ConsumerOnwards(s: State, e: State, u: Tid)
    requires |e.pcs| == |s.pcs| && |e.h.tk| == |s.h.tk| == |s.pcs| && u < |s.pcs|
  {
    && e.h.tk[u] == s.h.tk[u]
    && (e.pcs[u] == s.pcs[u] ||
        (OwnsCons(s.pcs[u]) && (OwnsCons(e.pcs[u]) || e.pcs[u].Returned?)))
  }

  lemma {:induction false} ConsumerMoves(s: State)
    requires ConsumersQueued(s) && s.h.ct < s.h.ch
    ensures
      var t := TailConsumer(s);
      var s' := Next(s, Step(t));
      && Room(s, Step(t)) && FreshCas(s, Step(t))
      && SameButConsumers(s, s') && AcceptedBy(s, Step(t)) == []
      && (if s.pcs[t].MPublish? || s.pcs[t].SPublish? then
            && s'.h.ct == s.h.ct + 1 && GotBy(s, Step(t)) == [Due(s, t)]
            && s'.sh.consTail == Slot(s'.h.ct, s.size)
          else
            && s'.h.ct == s.h.ct && GotBy(s, Step(t)) == [] && s'.sh.consTail == s.sh.consTail
            && OwnsCons(s'.pcs[t]) && StepsLeft(s'.pcs[t]) == StepsLeft(s.pcs[t]) - 1
            && s'.pcs[t].head == s.pcs[t].head)
  {
    assert QueuedConsumer(s, s.h.ct);
    NextIndexIsNextSlot(s.h.ct, s.size);
  }

  /** A consumer's own steps do not change what it will return. */
  lemma {:induction false} DueIsFixed(s: State)
    requires ConsumersQueued(s) && s.h.ct < s.h.ch && WellFormed(Next(s, Step(TailConsumer(s))))
    ensures
      var t := TailConsumer(s);
      var s' := Next(s, Step(t));
      OwnsCons(s'.pcs[t]) ==> Due(s', t) == Due(s, t)
  {
    assert QueuedConsumer(s, s.h.ct);
  }

  lemma {:induction false} ConsumerMoveKeepsQueue(s: State)
    requires ConsumersQueued(s) && s.h.ct < s.h.ch
    ensures ConsumersQueued(Next(s, Step(TailConsumer(s))))
  {
    var t := TailConsumer(s);
    assert QueuedConsumer(s, s.h.ct);
    var s' := Next(s, Step(t));
    ConsumerMoves(s);
    NextWellFormed(s, Step(t));
    StepMoves(s, Step(t));
    forall k: nat | s'.h.ct <= k < s'.h.ch
      ensures QueuedConsumer(s', k)
    {
      assert QueuedConsumer(s, k);
    }
  }

  lemma {:induction false} SameButConsumersTrans(s: State, m: State, e: State)
    requires SameButConsumers(s, m) && SameButConsumers(m, e)
    ensures SameButConsumers(s, e)
  {
    forall u: nat | u < |s.pcs|
      ensures ConsumerOnwards(s, e, u)
    {
      assert ConsumerOnwards(s, m, u) && ConsumerOnwards(m, e, u);
    }
  }

  /** The queued consumers return, one after the other; the first of them what it is due. */
  lemma {:induction false} DrainConsumers(s: State) returns (acts: seq<Action>)
    requires ConsumersQueued(s)
    ensures Legal(s, acts) && Roomy(s, acts) && Fresh(s, acts)
    ensures forall j :: 0 <= j < |acts| ==> acts[j].Step?
    ensures
      var e := Exec(s, acts);
      SameButConsumers(s, e) && e.h.ct == s.h.ch && |e.h.out| == |s.h.out| + s.h.ch - s.h.ct
    ensures Accepts(s, acts) == [] && |Gots(s, acts)| == s.h.ch - s.h.ct
    ensures s.h.ct < s.h.ch ==> Gots(s, acts)[0] == Due(s, TailConsumer(s))
    decreases s.h.ch - s.h.ct, if s.h.ct < s.h.ch then StepsLeft(s.pcs[TailConsumer(s)]) else 0
  {
    if s.h.ct == s.h.ch {
      return [];
    }
    ConsumerMoves(s);
    ConsumerMoveKeepsQueue(s);
    DueIsFixed(s);
    var a := Step(TailConsumer(s));
    StepCounts(s, a);
    var s' := Next(s, a);
    var rest := DrainConsumers(s');
    acts := [a] + rest;
    Prepend(s, a, rest);
    SameButConsumersTrans(s, s', Exec(s', rest));
  }
  // ------------------------------------------------------------------ from a state in order

  lemma {:induction false} InvQueues(s: State)
    requires Inv(s)
    ensures ProducersQueued(s) && ConsumersQueued(s)
  {
    forall k: nat | s.h.pt <= k < s.h.ph
      ensures QueuedProducer(s, k)
    {
      assert HeldByProducer(s, k) && At(s, s.h.items[k].owner);
    }
    forall k: nat | s.h.ct <= k < s.h.ch
      ensures QueuedConsumer(s, k)
    {
      assert HeldByConsumer(s, k) && At(s, s.h.takers[k]);
    }
  }

  /**
   The spin-waits never deadlock: from any reachable state some schedule of the threads
   already inside the ring publishes every outstanding reservation.
   */
  lemma {:induction false} Drain(s: State) returns (acts: seq<Action>)
    requires Inv(s)
    ensures Legal(s, acts) && Roomy(s, acts)
    ensures forall j :: 0 <= j < |acts| ==> acts[j].Step?
    ensures
      var e := Exec(s, acts);
      Inv(e) && e.h.pt == e.h.ph == s.h.ph && e.h.ct == e.h.ch == s.h.ch
  {
    InvQueues(s);
    var first := DrainProducers(s, 0);
    RunKeepsInv(s, first);
    var m := Exec(s, first);
    InvQueues(m);
    var second := DrainConsumers(m);
    acts := first + second;
    RunConcat(s, first, second);
    RoomyConcat(s, first, second);
    RunKeepsInv(m, second);
  }

  // ------------------------------------------------------------------ whose turn it is

  ghost function NextProducer(s: State): (t: Tid)
    requires Inv(s) && s.h.pt < s.h.ph
    ensures t < |s.pcs| && OwnsProd(s.pcs[t]) && t == s.h.items[s.h.pt].owner
  {
    InvQueues(s);
    TailProducer(s)
  }

  ghost function NextConsumer(s: State): (t: Tid)
    requires Inv(s) && s.h.ct < s.h.ch
    ensures t < |s.pcs| && OwnsCons(s.pcs[t]) && t == s.h.takers[s.h.ct]
  {
    InvQueues(s);
    TailConsumer(s)
  }

  /** With reservations outstanding exactly one producer has the turn. */
  lemma {:induction false} OneProducer(s: State)
    requires Inv(s) && s.h.pt < s.h.ph
    ensures forall t: nat :: t < |s.pcs| ==>
              (OwnsProd(s.pcs[t]) && s.h.tk[t] == s.h.pt <==> t == NextProducer(s))
  {
    assert HeldByProducer(s, s.h.pt);
    forall u: nat | u < |s.pcs| && OwnsProd(s.pcs[u]) && s.h.tk[u] == s.h.pt
      ensures u == NextProducer(s)
    {
      assert At(s, u);
    }
  }

  /** It is not blocked, and each step brings it closer to publishing. */
  lemma {:induction false} ProducerTurn(s: State)
    requires Inv(s) && s.h.pt < s.h.ph
    ensures Enabled(s, Step(NextProducer(s))) && Room(s, Step(NextProducer(s)))
    ensures
      var t := NextProducer(s);
      var s' := Next(s, Step(t));
      && s'.h.ph == s.h.ph && s'.h.ch == s.h.ch && s'.h.ct == s.h.ct
      && (if s.pcs[t].EPublish? then s'.h.pt == s.h.pt + 1
          else s'.h.pt == s.h.pt && OwnsProd(s'.pcs[t]) && s'.h.items == s.h.items &&
               StepsLeft(s'.pcs[t]) == StepsLeft(s.pcs[t]) - 1)
  {
    InvQueues(s);
    ProducerMoves(s);
  }

  lemma {:induction false} OneConsumer(s: State)
    requires Inv(s) && s.h.ct < s.h.ch
    ensures forall t: nat :: t < |s.pcs| ==>
              (OwnsCons(s.pcs[t]) && s.h.tk[t] == s.h.ct <==> t == NextConsumer(s))
  {
    assert HeldByConsumer(s, s.h.ct);
    forall u: nat | u < |s.pcs| && OwnsCons(s.pcs[u]) && s.h.tk[u] == s.h.ct
      ensures u == NextConsumer(s)
    {
      assert At(s, u);
    }
  }

  lemma {:induction false} ConsumerTurn(s: State)
    requires Inv(s) && s.h.ct < s.h.ch
    ensures Enabled(s, Step(NextConsumer(s))) && Room(s, Step(NextConsumer(s)))
    ensures
      var t := NextConsumer(s);
      var s' := Next(s, Step(t));
      && s'.h.ph == s.h.ph && s'.h.ch == s.h.ch && s'.h.pt == s.h.pt
      && (if s.pcs[t].MPublish? || s.pcs[t].SPublish? then s'.h.ct == s.h.ct + 1
          else s'.h.ct == s.h.ct && OwnsCons(s'.pcs[t]) && s'.h.takers == s.h.takers &&
               StepsLeft(s'.pcs[t]) == StepsLeft(s.pcs[t]) - 1)
  {
    InvQueues(s);
    ConsumerMoves(s);
  }

  /** Nobody else can take the turn away or push its owner back. */
  lemma {:induction false} ProducerTurnIsKept(s: State, a: Action)
    requires Inv(s) && Enabled(s, a) && Room(s, a) && s.h.pt < s.h.ph && a.t != NextProducer(s)
    ensures Inv(Next(s, a)) && Next(s, a).h.pt == s.h.pt < Next(s, a).h.ph
    ensures NextProducer(Next(s, a)) == NextProducer(s)
    ensures Next(s, a).pcs[NextProducer(s)] == s.pcs[NextProducer(s)]
  {
    InvIsKept(s, a);
    StepMoves(s, a);
    StepCounts(s, a);
    assert At(s, a.t) && HeldByProducer(s, s.h.pt);
  }

  /** Only the consumer whose turn it is publishes. */
  lemma {:induction false} PublisherHasTurn(s: State, a: Action)
    requires Inv(s) && Enabled(s, a) && s.h.ct < s.h.ch && a.t != NextConsumer(s)
    ensures GotBy(s, a) == []
  {
    if GotBy(s, a) != [] {
      PublisherOwnsTail(s, a.t);
      OneConsumer(s);
    }
  }

  lemma {:induction false} OthersKeepTakers(s: State, a: Action)
    requires WellFormed(s) && Enabled(s, a) && GotBy(s, a) == []
    ensures Next(s, a).h.ct == s.h.ct && s.h.ch <= Next(s, a).h.ch && s.h.takers <= Next(s, a).h.takers
  {
  }

  lemma {:induction false} ConsumerTurnIsKept(s: State, a: Action)
    requires Inv(s) && Enabled(s, a) && Room(s, a) && s.h.ct < s.h.ch && a.t != NextConsumer(s)
    ensures Inv(Next(s, a)) && Next(s, a).h.ct == s.h.ct < Next(s, a).h.ch
    ensures NextConsumer(Next(s, a)) == NextConsumer(s)
    ensures Next(s, a).pcs[NextConsumer(s)] == s.pcs[NextConsumer(s)]
  {
    PublisherHasTurn(s, a);
    OthersKeepTakers(s, a);
    InvIsKept(s, a);
    StepMoves(s, a);
  }

  /** How many steps of `t` a run has. */
  function OwnSteps(acts: seq<Action>, t: Tid): nat {
    if acts == [] then 0 else (if acts[0] == Step(t) then 1 else 0) + OwnSteps(acts[1..], t)
  }

  /**
   Spin-waits end: on every run with room, whatever the others do, by the time the producer
   whose turn it is has taken its few remaining steps the tail has moved on.
   */
  lemma {:induction false} ProducerWaitEnds(s: State, acts: seq<Action>)
    requires Inv(s) && s.h.pt < s.h.ph && Legal(s, acts) && Roomy(s, acts)
    requires OwnSteps(acts, NextProducer(s)) >= StepsLeft(s.pcs[NextProducer(s)])
    ensures Exec(s, acts).h.pt > s.h.pt
    decreases |acts|
  {
    var t := NextProducer(s);
    assert HeldByProducer(s, s.h.pt);
    var s', rest := Next(s, acts[0]), acts[1..];
    InvIsKept(s, acts[0]);
    if acts[0].t != t {
      ProducerTurnIsKept(s, acts[0]);
      ProducerWaitEnds(s', rest);
    } else {
      ProducerTurn(s);
      if s.pcs[t].EPublish? {
        RunAccepts(s', rest);
      } else {
        ProducerWaitEnds(s', rest);
      }
    }
  }

  lemma {:induction false} ConsumerWaitEnds(s: State, acts: seq<Action>)
    requires Inv(s) && s.h.ct < s.h.ch && Legal(s, acts) && Roomy(s, acts)
    requires OwnSteps(acts, NextConsumer(s)) >= StepsLeft(s.pcs[NextConsumer(s)])
    ensures Exec(s, acts).h.ct > s.h.ct
    decreases |acts|
  {
    var t := NextConsumer(s);
    assert HeldByConsumer(s, s.h.ct);
    var s', rest := Next(s, acts[0]), acts[1..];
    InvIsKept(s, acts[0]);
    if acts[0].t != t {
      ConsumerTurnIsKept(s, acts[0]);
      ConsumerWaitEnds(s', rest);
    } else {
      ConsumerTurn(s);
      if s.pcs[t].MPublish? || s.pcs[t].SPublish? {
        RunGots(s', rest);
        RunKeepsInv(s', rest);
      } else {
        ConsumerWaitEnds(s', rest);
      }
    }
  }

  // ------------------------------------------------------------------ without room

  lemma {:induction false} LateProducerQueues(s: State, t: Tid)
    requires Inv(s) && t < |s.pcs| && s.pcs[t].ECas? && s.pcs[t].head == s.sh.prodHead
    ensures ProducersQueued(Next(s, Step(t)))
  {
    var s' := Next(s, Step(t));
    InvQueues(s);
    NextWellFormed(s, Step(t));
    forall k: nat | s'.h.pt <= k < s'.h.ph
      ensures QueuedProducer(s', k)
    {
      assert k < s.h.ph ==> QueuedProducer(s, k);
    }
  }

  lemma {:induction false} LateConsumerQueues(s: State, t: Tid)
    requires Inv(s) && t < |s.pcs| && s.pcs[t].MCas? && s.pcs[t].head == s.sh.consHead
    ensures ConsumersQueued(Next(s, Step(t)))
  {
    var s' := Next(s, Step(t));
    InvQueues(s);
    NextWellFormed(s, Step(t));
    forall k: nat | s'.h.ct <= k < s'.h.ch
      ensures QueuedConsumer(s', k)
    {
      assert k < s.h.ch ==> QueuedConsumer(s, k);
    }
  }

  /**
   After a compare-and-set without room, letting the reservations finish shows it: a whole
   lap of buffers accepted and not handed out, or more handed out than accepted.
   */
  lemma {:induction false} NoRoomShows(s: State, a: Action) returns (rest: seq<Action>)
    requires Inv(s) && Enabled(s, a) && !Room(s, a)
    ensures WellFormed(Next(s, a)) && Legal(Next(s, a), rest) && Fresh(Next(s, a), rest)
    ensures
      var e := Exec(Next(s, a), rest);
      e.h.pt >= |e.h.out| + s.size || |e.h.out| > e.h.pt
  {
    var t, s' := a.t, Next(s, a);
    NextWellFormed(s, a);
    FullTest(s);
    EmptyTest(s);
    if s.pcs[t].ECas? {
      LateProducerQueues(s, t);
      rest := DrainProducers(s', 0);
    } else {
      LateConsumerQueues(s, t);
      rest := DrainConsumers(s');
    }
  }

  /** First in, first out, and never a full lap behind. */
  ghost predicate Fifo(s: State, acts: seq<Action>)
    requires WellFormed(s) && Legal(s, acts)
  {
    Gots(s, acts) <= Accepts(s, acts) && |Accepts(s, acts)| - |Gots(s, acts)| < s.size
  }

  /** Whatever happens next, as long as no further compare-and-set comes a whole lap late. */
  ghost predicate StaysFifo(s: State, acts: seq<Action>)
    requires WellFormed(s) && Legal(s, acts)
  {
    forall rest :: FreshAfter(s, acts, rest) ==> Fifo(s, acts + rest)
  }

  ghost predicate FreshAfter(s: State, acts: seq<Action>, rest: seq<Action>)
    requires WellFormed(s) && Legal(s, acts)
  {
    Legal(s, acts + rest) && Legal(Exec(s, acts), rest) && Fresh(Exec(s, acts), rest)
  }

  lemma {:induction false} RoomyStaysFifo(s: State, acts: seq<Action>)
    requires Initial(s) && Legal(s, acts) && Roomy(s, acts)
    ensures StaysFifo(s, acts)
  {
    InitialInv(s);
    RunKeepsInv(s, acts);
    forall rest | FreshAfter(s, acts, rest)
      ensures Fifo(s, acts + rest)
    {
      FreshIsRoomy(Exec(s, acts), rest);
      RoomyConcat(s, acts, rest);
      FirstInFirstOut(s, acts + rest);
    }
  }

  lemma {:induction false} NoRoomBreaksFifo(s: State, acts: seq<Action>, a: Action)
    requires Initial(s) && Legal(s, acts) && Roomy(s, acts) && Enabled(Exec(s, acts), a) && !Room(Exec(s, acts), a)
    ensures Legal(s, acts + [a]) && !StaysFifo(s, acts + [a])
  {
    InitialInv(s);
    RunKeepsInv(s, acts);
    var m := Exec(s, acts);
    var rest := NoRoomShows(m, a);
    Prepend(m, a, []);
    RunConcat(s, acts, [a]);
    RunConcat(s, acts + [a], rest);
    assert FreshAfter(s, acts + [a], rest);
    RunAccepts(s, acts + [a] + rest);
    RunGots(s, acts + [a] + rest);
  }

  /** A run that lacks room somewhere lacks it somewhere first. */
  lemma {:induction false} FirstWithoutRoom(s: State, acts: seq<Action>) returns (k: nat)
    requires WellFormed(s) && Legal(s, acts) && !Roomy(s, acts)
    ensures k < |acts| && Legal(s, acts[..k]) && Roomy(s, acts[..k])
    ensures Enabled(Exec(s, acts[..k]), acts[k]) && !Room(Exec(s, acts[..k]), acts[k])
    decreases |acts|
  {
    k := |acts| - 1;
    var last := [acts[k]];
    assert acts == acts[..k] + last;
    RunConcat(s, acts[..k], last);
    RoomyConcat(s, acts[..k], last);
    if !Roomy(s, acts[..k]) {
      var all := acts[..k];
      k := FirstWithoutRoom(s, all);
      assert all[..k] == acts[..k];
    }
  }

  lemma {:induction false} PrefixOfRun(s: State, acts: seq<Action>, k: nat)
    requires WellFormed(s) && Legal(s, acts) && k <= |acts|
    ensures Legal(s, acts[..k]) && (Roomy(s, acts) ==> Roomy(s, acts[..k]))
  {
    assert acts == acts[..k] + acts[k..];
    RunConcat(s, acts[..k], acts[k..]);
    RoomyConcat(s, acts[..k], acts[k..]);
  }

  ghost predicate AlwaysStaysFifo(s: State, acts: seq<Action>)
    requires WellFormed(s) && Legal(s, acts)
  {
    forall k: nat :: k <= |acts| ==> Legal(s, acts[..k]) && StaysFifo(s, acts[..k])
  }

  /**
   Exactly when the ring works, in its callers' terms: the compare-and-sets of a run have
   room if and only if at no point of the run first in, first out is already lost, that is,
   can be violated by a continuation that is never a lap late itself.
   */
  lemma {:induction false} RoomyIffFifo(s: State, acts: seq<Action>)
    requires Initial(s) && Legal(s, acts)
    ensures Roomy(s, acts) <==> AlwaysStaysFifo(s, acts)
  {
    if Roomy(s, acts) {
      forall k: nat | k <= |acts|
        ensures Legal(s, acts[..k]) && StaysFifo(s, acts[..k])
      {
        PrefixOfRun(s, acts, k);
        RoomyStaysFifo(s, acts[..k]);
      }
    } else {
      var k := FirstWithoutRoom(s, acts);
      NoRoomBreaksFifo(s, acts[..k], acts[k]);
      assert acts[..k] + [acts[k]] == acts[..k + 1];
    }
  }
}
