/**
 The ring as its callers see it: what the returned codes and pointers say about what went
 in and came out, when each answer is given, and that calls made one at a time answer as
 a bounded queue.
 */
module BufRingCalls {
  import opened RingArithmetic
  import opened BufRingProtocol
  import opened BufRingInvariant
  import opened BufRingTheorems

  // ------------------------------------------------------------------ returned codes

  /** What a thread's last enqueue call was asked to store. */
  datatype Request = Nothing | Asked(buf: Buf, nbytes: int)

  /** The arguments of each thread's current call, read off the calls alone. */
  function Ask(calls: seq<Request>, a: Action): seq<Request> {
    if a.StartEnqueue? && a.t < |calls| then calls[a.t := Asked(a.buf, a.nbytes)] else calls
  }

  /** The action makes its thread's call return `r`. */
  ghost predicate Returns(s: State, a: Action, r: Ret)
    requires WellFormed(s) && Enabled(s, a)
  {
    !s.pcs[a.t].Returned? && Next(s, a).pcs[a.t] == Returned(r)
  }

  /** The arguments of the enqueue calls of a run that returned 0, in the order they did. */
  ghost function CallsAccepted(s: State, calls: seq<Request>, acts: seq<Action>): seq<Request>
    requires WellFormed(s) && Legal(s, acts) && |calls| == |s.pcs|
    decreases |acts|
  {
    if acts == [] then []
    else
      NextWellFormed(s, acts[0]);
      var calls' := Ask(calls, acts[0]);
      (if Returns(s, acts[0], Accepted) then [calls'[acts[0].t]] else []) +
      CallsAccepted(Next(s, acts[0]), calls', acts[1..])
  }

  /** The buffers the dequeue calls of a run returned, in the order they did. */
  ghost function CallsGot(s: State, acts: seq<Action>): seq<Buf>
    requires WellFormed(s) && Legal(s, acts)
    decreases |acts|
  {
    if acts == [] then []
    else
      NextWellFormed(s, acts[0]);
      var pc := Next(s, acts[0]).pcs[acts[0].t];
      (if !s.pcs[acts[0].t].Returned? && pc.Returned? && pc.ret.Got? then [pc.ret.buf] else []) +
      CallsGot(Next(s, acts[0]), acts[1..])
  }

  predicate AllAsked(requests: seq<Request>) { forall r :: r in requests ==> r.Asked? }

  function Buffers(requests: seq<Request>): seq<Buf>
    requires AllAsked(requests)
  {
    if requests == [] then [] else [requests[0].buf] + Buffers(requests[1..])
  }

  function Bytes(requests: seq<Request>): int
    requires AllAsked(requests)
  {
    if requests == [] then 0 else requests[0].nbytes + Bytes(requests[1..])
  }

  /** A thread inside enqueue works on the arguments of its call. */
  ghost predicate Honest(s: State, calls: seq<Request>) {
    |calls| == |s.pcs| &&
    forall t: nat :: t < |s.pcs| ==> HonestAt(s.pcs[t], calls[t])
  }

  predicate HonestAt(pc: Pc, r: Request) { Producing(pc) ==> r == Asked(pc.buf, pc.nbytes) }

  lemma {:induction false} StepIsHonest(s: State, calls: seq<Request>, a: Action)
    requires WellFormed(s) && Enabled(s, a) && |calls| == |s.pcs| && HonestAt(s.pcs[a.t], calls[a.t])
    ensures HonestAt(Next(s, a).pcs[a.t], Ask(calls, a)[a.t])
    ensures Returns(s, a, Accepted) <==> AcceptedBy(s, a) != []
    ensures Returns(s, a, Accepted) ==>
              Ask(calls, a)[a.t] == Asked(AcceptedBy(s, a)[0], s.pcs[a.t].nbytes)
  {
  }

  lemma {:induction false} HonestyIsKept(s: State, calls: seq<Request>, a: Action)
    requires WellFormed(s) && Enabled(s, a) && Honest(s, calls)
    ensures Honest(Next(s, a), Ask(calls, a))
  {
    StepMoves(s, a);
    assert HonestAt(s.pcs[a.t], calls[a.t]);
    StepIsHonest(s, calls, a);
    forall t: nat | t < |s.pcs| && t != a.t
      ensures HonestAt(Next(s, a).pcs[t], Ask(calls, a)[t])
    {
      assert HonestAt(s.pcs[t], calls[t]);
    }
  }

  lemma {:induction false} GotIsReturned(s: State, a: Action)
    requires WellFormed(s) && Enabled(s, a)
    ensures
      var pc := Next(s, a).pcs[a.t];
      GotBy(s, a) == if !s.pcs[a.t].Returned? && pc.Returned? && pc.ret.Got? then [pc.ret.buf] else []
  {
  }

  lemma {:induction false} AcceptedCalls(s: State, calls: seq<Request>, acts: seq<Action>)
    requires WellFormed(s) && Legal(s, acts) && Honest(s, calls)
    ensures
      var c := CallsAccepted(s, calls, acts);
      AllAsked(c) && Buffers(c) == Accepts(s, acts) && Bytes(c) == AcceptedBytes(s, acts)
    decreases |acts|
  {
    if acts != [] {
      var a, s', calls' := acts[0], Next(s, acts[0]), Ask(calls, acts[0]);
      NextWellFormed(s, a);
      HonestyIsKept(s, calls, a);
      assert HonestAt(s.pcs[a.t], calls[a.t]);
      StepIsHonest(s, calls, a);
      AcceptedCalls(s', calls', acts[1..]);
      var rest := CallsAccepted(s', calls', acts[1..]);
      if Returns(s, a, Accepted) {
        assert CallsAccepted(s, calls, acts) == [calls'[a.t]] + rest;
        assert ([calls'[a.t]] + rest)[1..] == rest;
        assert AcceptedBy(s, a) == [calls'[a.t].buf];
      } else {
        assert CallsAccepted(s, calls, acts) == rest;
      }
    }
  }

  lemma {:induction false} ReturnedBuffers(s: State, acts: seq<Action>)
    requires WellFormed(s) && Legal(s, acts)
    ensures CallsGot(s, acts) == Gots(s, acts)
    decreases |acts|
  {
    if acts != [] {
      NextWellFormed(s, acts[0]);
      GotIsReturned(s, acts[0]);
      ReturnedBuffers(Next(s, acts[0]), acts[1..]);
    }
  }

  function NoCalls(n: nat): seq<Request> { seq(n, _ => Nothing) }

  /**
   What a run's calls returned is exactly what entered and left the ring: on every run,
   with or without room, the arguments of the enqueues that returned 0 are what was
   published, and what the dequeues returned is what was handed out.
   */
  lemma {:induction false} CodesAreTrue(s: State, acts: seq<Action>)
    requires Initial(s) && Legal(s, acts)
    ensures
      var c := CallsAccepted(s, NoCalls(|s.pcs|), acts);
      AllAsked(c) && Buffers(c) == Accepts(s, acts) && Bytes(c) == AcceptedBytes(s, acts)
    ensures CallsGot(s, acts) == Gots(s, acts)
  {
    AcceptedCalls(s, NoCalls(|s.pcs|), acts);
    ReturnedBuffers(s, acts);
  }

  /** First in, first out, of calls: arguments of successful enqueues against results of dequeues. */
  lemma {:induction false} CallsAreFifo(s: State, acts: seq<Action>)
    requires Initial(s) && Legal(s, acts) && Roomy(s, acts)
    ensures
      var c := CallsAccepted(s, NoCalls(|s.pcs|), acts);
      var e := Exec(s, acts);
      && AllAsked(c) && CallsGot(s, acts) <= Buffers(c) && |Buffers(c)| - |CallsGot(s, acts)| < s.size
      && ((forall t :: 0 <= t < |e.pcs| ==> !Updating(e.pcs[t])) ==>
            e.sh.bufs == |Buffers(c)| % WORD64 && e.sh.bytes == Bytes(c) % WORD64)
  {
    CodesAreTrue(s, acts);
    FirstInFirstOut(s, acts);
  }

  // ------------------------------------------------------------------ when each answer is given

  /**
   The enqueue's decision, at its load of `br_cons_tail`: with a head that is still current
   it refuses exactly when the ring is full and otherwise goes on to the compare-and-set;
   either way nothing is changed.
   */
  lemma {:induction false} EnqueueDecides(s: State, t: Tid)
    requires Inv(s) && t < |s.pcs| && s.pcs[t].ETail?
    ensures
      var pc, pc', full := s.pcs[t], Next(s, Step(t)).pcs[t], s.h.ph + 1 == s.h.ct + s.size;
      && (pc' == Returned(NoBufs) || pc' == ECas(pc.buf, pc.nbytes, pc.head))
      && (s.sh.prodHead == pc.head ==> (pc' == Returned(NoBufs) <==> full))
      && (s.sh.prodHead != pc.head && full ==> pc' == ECas(pc.buf, pc.nbytes, pc.head))
    ensures Next(s, Step(t)) == Goto(s, t, Next(s, Step(t)).pcs[t])
  {
    assert At(s, t);
    FullTest(s);
    if s.sh.prodHead != s.pcs[t].head && Next(s, Step(t)).pcs[t] == Returned(NoBufs) {
      NoBufsIffFull(s, t);
    }
  }

  /** The multi-consumer dequeue's, at its load of `br_prod_tail`. */
  lemma {:induction false} McDecides(s: State, t: Tid)
    requires Inv(s) && t < |s.pcs| && s.pcs[t].MTail?
    ensures
      var pc, pc', empty := s.pcs[t], Next(s, Step(t)).pcs[t], Queue(s) == [];
      && (pc' == Returned(Null) || pc' == MCas(pc.head))
      && (s.sh.consHead == pc.head ==> (pc' == Returned(Null) <==> empty))
      && (s.sh.consHead != pc.head && empty ==> pc' == MCas(pc.head))
    ensures Next(s, Step(t)) == Goto(s, t, Next(s, Step(t)).pcs[t])
  {
    assert At(s, t);
    EmptyTest(s);
  }

  /** The peek's: NULL exactly when nothing is published at its load of `br_prod_tail`. */
  lemma {:induction false} PeekDecides(s: State, t: Tid)
    requires Inv(s) && t < |s.pcs| && s.pcs[t].KTail?
    ensures Next(s, Step(t)).pcs[t] == if Queue(s) == [] then Returned(Null) else KHeadAgain
    ensures Next(s, Step(t)) == Goto(s, t, Next(s, Step(t)).pcs[t])
  {
    assert At(s, t);
    EmptyTest(s);
  }

  /** Peeking and a refusing predicate change nothing; a refused call returns NULL. */
  lemma {:induction false} PeekLeavesTheRing(s: State, a: Action)
    requires Inv(s) && Enabled(s, a)
    requires a.Answer? || a.StartCond? ||
             (a.Step? && (s.pcs[a.t].KHead? || s.pcs[a.t].KTail? || s.pcs[a.t].KHeadAgain? || s.pcs[a.t].KSlot?))
    ensures Next(s, a).sh == s.sh && Inv(Next(s, a)) && Queue(Next(s, a)) == Queue(s)
    ensures a.Answer? && !a.accept ==> Next(s, a).pcs[a.t] == Returned(Null)
  {
    InvIsKept(s, a);
    StepRefinesQueue(s, a);
  }

  /** Refusals are given nowhere else: ENOBUFS by that test, NULL by one of those or the predicate. */
  lemma {:induction false} RefusalsAreDecided(s: State, a: Action)
    requires WellFormed(s) && Enabled(s, a)
    ensures Returns(s, a, NoBufs) ==> a.Step? && s.pcs[a.t].ETail?
    ensures Returns(s, a, Null) ==>
              || (a.Step? && (s.pcs[a.t].MTail? || s.pcs[a.t].STail? || s.pcs[a.t].KTail?))
              || (a.Answer? && !a.accept)
  {
  }

  /** A compare-and-set fails only because another thread has moved the head since the load. */
  lemma {:induction false} FailureIsProgress(s: State, t: Tid)
    requires Inv(s) && t < |s.pcs| && (s.pcs[t].ECas? || s.pcs[t].MCas?)
    ensures s.pcs[t].ECas? && s.sh.prodHead != s.pcs[t].head ==>
              s.h.tk[t] < s.h.ph && Next(s, Step(t)) == Goto(s, t, EHead(s.pcs[t].buf, s.pcs[t].nbytes))
    ensures s.pcs[t].MCas? && s.sh.consHead != s.pcs[t].head ==>
              s.h.tk[t] < s.h.ch && Next(s, Step(t)) == Goto(s, t, MHead)
  {
    assert At(s, t);
  }

  // ------------------------------------------------------------------ a refused call leaves no trace

  /** No step of `t` in the run changes the ring. */
  ghost predicate LeavesRing(s: State, acts: seq<Action>, t: Tid)
    requires WellFormed(s) && Legal(s, acts)
    decreases |acts|
  {
    acts == [] ||
    ((acts[0].t == t ==> Next(s, acts[0]).sh == s.sh) &&
     (NextWellFormed(s, acts[0]); LeavesRing(Next(s, acts[0]), acts[1..], t)))
  }

  /** Once a thread holds a ticket its call does not end in a refusal. */
  predicate Committed(pc: Pc) { OwnsProd(pc) || pc == Returned(Accepted) }

  /** Before that it has only looked. */
  predicate Undecided(pc: Pc) { pc.EHead? || pc.ETail? || pc.ECas? || pc == Returned(NoBufs) }

  lemma {:induction false} EnqueueStage(s: State, a: Action)
    requires WellFormed(s) && Enabled(s, a) && a.Step?
    ensures Committed(s.pcs[a.t]) ==> Committed(Next(s, a).pcs[a.t])
    ensures Undecided(s.pcs[a.t]) ==>
              Committed(Next(s, a).pcs[a.t]) || (Undecided(Next(s, a).pcs[a.t]) && Next(s, a).sh == s.sh)
  {
  }

  lemma {:induction false} CommittedStays(s: State, acts: seq<Action>, t: Tid)
    requires WellFormed(s) && Legal(s, acts) && t < |s.pcs| && OnlySteps(acts, t) && Committed(s.pcs[t])
    ensures Committed(Exec(s, acts).pcs[t])
    decreases |acts|
  {
    if acts != [] {
      OnlyStepsTail(acts, t);
      NextWellFormed(s, acts[0]);
      StepMoves(s, acts[0]);
      if acts[0].t == t {
        EnqueueStage(s, acts[0]);
      }
      CommittedStays(Next(s, acts[0]), acts[1..], t);
    }
  }

  /** An enqueue that ends in ENOBUFS has not written anything on the way, on any run. */
  lemma {:induction false} RefusedLeavesNoTrace(s: State, acts: seq<Action>, t: Tid)
    requires WellFormed(s) && Legal(s, acts) && t < |s.pcs| && OnlySteps(acts, t)
    requires Undecided(s.pcs[t]) && Exec(s, acts).pcs[t] == Returned(NoBufs)
    ensures LeavesRing(s, acts, t)
    decreases |acts|
  {
    if acts != [] {
      var s', rest := Next(s, acts[0]), acts[1..];
      OnlyStepsTail(acts, t);
      NextWellFormed(s, acts[0]);
      StepMoves(s, acts[0]);
      if acts[0].t == t {
        EnqueueStage(s, acts[0]);
        if Committed(s'.pcs[t]) {
          CommittedStays(s', rest, t);
        }
      }
      RefusedLeavesNoTrace(s', rest, t);
    }
  }
}
