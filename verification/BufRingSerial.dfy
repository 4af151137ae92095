/**
 Calls made one at a time: from any state with nothing in flight, any thread may make any
 call, it finishes by its own steps, and its answer and effect are those of the bounded
 queue that also specifies the ring as sequential code.
 */
module BufRingSerial {
  import opened Options
  import opened Sequences
  import opened RingArithmetic
  import opened BufRingProtocol
  import opened BufRingInvariant
  import opened BufRingTheorems
  import opened BufRingDrain
  import B = BufRing

  ghost predicate Quiet(pc: Pc) { pc.Idle? || pc.Returned? }

  /** Nobody but `t` is inside a call, and what it has loaded is current. */
  ghost predicate OnlyBusy(s: State, t: Tid) {
    && Inv(s) && t < |s.pcs| && (forall u: nat :: u < |s.pcs| && u != t ==> Quiet(s.pcs[u]))
    && (s.pcs[t].ETail? || s.pcs[t].ECas? ==> s.h.tk[t] == s.h.ph)
    && (s.pcs[t].MTail? || s.pcs[t].MCas? ==> s.h.tk[t] == s.h.ch)
  }

  /** No ticket is outstanding but possibly the one of `t`. */
  lemma {:induction false} ProducerTickets(s: State, t: Tid)
    requires OnlyBusy(s, t)
    ensures s.h.ph == s.h.pt + if OwnsProd(s.pcs[t]) then 1 else 0
    ensures OwnsProd(s.pcs[t]) ==> s.h.tk[t] == s.h.pt
  {
    assert At(s, t);
    if s.h.pt < s.h.ph {
      assert HeldByProducer(s, s.h.pt) && HeldByProducer(s, s.h.ph - 1);
    }
  }

  lemma {:induction false} ConsumerTickets(s: State, t: Tid)
    requires OnlyBusy(s, t)
    ensures s.h.ch == s.h.ct + if OwnsCons(s.pcs[t]) then 1 else 0
    ensures OwnsCons(s.pcs[t]) ==> s.h.tk[t] == s.h.ct
  {
    assert At(s, t);
    if s.h.ct < s.h.ch {
      assert HeldByConsumer(s, s.h.ct) && HeldByConsumer(s, s.h.ch - 1);
    }
  }

  // ------------------------------------------------------------------ what the call will come to

  /** The answer, the queue, and the counts of buffers and bytes when the call is over. */
  datatype Fate = Fate(ret: Ret, queue: seq<Buf>, bufs: nat, bytes: int)

  ghost predicate Calling(pc: Pc) {
    Producing(pc) || (Consuming(pc) && !pc.KHead? && !pc.KTail? && !pc.KHeadAgain? && !pc.KSlot? && !pc.KAsk?)
  }

  ghost predicate IsFull(s: State) { s.h.ph + 1 == s.h.ct + s.size }

  ghost function FateOf(s: State, t: Tid): Fate
    requires Recorded(s) && t < |s.pcs| && Calling(s.pcs[t])
  {
    var pc, q, n, m := s.pcs[t], Queue(s), s.h.pt, BytesTo(s.h.items, s.h.pt);
    if Producing(pc) then
      if (pc.EHead? || pc.ETail?) && IsFull(s) then Fate(NoBufs, q, n, m)
      else Fate(Accepted, q + [pc.buf], n + 1, m + pc.nbytes)
    else if OwnsCons(pc) then
      if s.h.tk[t] < s.h.ph then Fate(Got(s.h.items[s.h.tk[t]].buf), q, n, m) else Fate(Null, q, n, m)
    else if q == [] then Fate(Null, q, n, m)
    else Fate(Got(q[0]), q[1..], n, m)
  }

  ghost predicate Reached(s: State, t: Tid, f: Fate)
    requires Recorded(s) && t < |s.pcs|
  {
    s.pcs[t] == Returned(f.ret) && Queue(s) == f.queue && s.h.pt == f.bufs && BytesTo(s.h.items, s.h.pt) == f.bytes
  }

  /** How many steps the call has left. */
  function Rank(pc: Pc): nat {
    if pc.EHead? then 10 else if pc.ETail? then 9 else if pc.ECas? then 8
    else if pc.MHead? then 6 else if pc.MTail? then 5 else if pc.MCas? then 4
    else if pc.SHead? then 5 else if pc.STail? then 4 else if pc.SStore? then 3
    else StepsLeft(pc)
  }

  lemma {:induction false} BusyRoom(s: State, t: Tid)
    requires OnlyBusy(s, t) && Calling(s.pcs[t])
    ensures Enabled(s, Step(t)) && Room(s, Step(t))
  {
    assert At(s, t);
    FullTest(s);
    EmptyTest(s);
  }

  /** What the call has loaded stays current, and it gets closer to its end. */
  ghost predicate Onwards(s: State, s': State, t: Tid)
    requires t < |s.pcs| == |s'.pcs| == |s'.h.tk|
  {
    && (s'.pcs[t].ETail? || s'.pcs[t].ECas? ==> s'.h.tk[t] == s'.h.ph)
    && (s'.pcs[t].MTail? || s'.pcs[t].MCas? ==> s'.h.tk[t] == s'.h.ch)
    && (s'.pcs[t].Returned? || (Calling(s'.pcs[t]) && Rank(s'.pcs[t]) < Rank(s.pcs[t])))
  }

  lemma {:induction false} ProducerOnwards(s: State, t: Tid)
    requires Recorded(s) && t < |s.pcs| && Producing(s.pcs[t]) && At(s, t)
    requires s.pcs[t].ETail? ==> s.h.tk[t] == s.h.ph
    requires s.pcs[t].ECas? ==> s.sh.prodHead == s.pcs[t].head
    requires s.pcs[t].EWait? ==> s.sh.prodTail == s.pcs[t].head
    ensures |EnqueueStep(s, t).h.tk| == |EnqueueStep(s, t).pcs| == |s.pcs| && Onwards(s, EnqueueStep(s, t), t)
  {
  }

  lemma {:induction false} McOnwards(s: State, t: Tid)
    requires Recorded(s) && t < |s.pcs| && Consuming(s.pcs[t]) && !Exclusive(s.pcs[t]) && At(s, t)
    requires s.pcs[t].MTail? ==> s.h.tk[t] == s.h.ch
    requires s.pcs[t].MCas? ==> s.sh.consHead == s.pcs[t].head
    requires s.pcs[t].MWait? ==> s.sh.consTail == s.pcs[t].head
    ensures |McStep(s, t).h.tk| == |McStep(s, t).pcs| == |s.pcs| && Onwards(s, McStep(s, t), t)
  {
  }

  lemma {:induction false} ScOnwards(s: State, t: Tid)
    requires Recorded(s) && t < |s.pcs| && Exclusive(s.pcs[t]) && Calling(s.pcs[t])
    ensures |ScStep(s, t).h.tk| == |ScStep(s, t).pcs| == |s.pcs| && Onwards(s, ScStep(s, t), t)
  {
  }

  lemma {:induction false} BusyOnwards(s: State, t: Tid)
    requires OnlyBusy(s, t) && Calling(s.pcs[t]) && Enabled(s, Step(t)) && |Next(s, Step(t)).h.tk| == |s.pcs|
    ensures Onwards(s, Next(s, Step(t)), t)
  {
    assert At(s, t);
    ProducerTickets(s, t);
    ConsumerTickets(s, t);
    if Producing(s.pcs[t]) {
      ProducerOnwards(s, t);
    } else if Exclusive(s.pcs[t]) {
      ScOnwards(s, t);
    } else {
      McOnwards(s, t);
    }
  }

  lemma {:induction false} BusyStep(s: State, t: Tid)
    requires OnlyBusy(s, t) && Calling(s.pcs[t])
    ensures
      var s' := Next(s, Step(t));
      && Enabled(s, Step(t)) && Room(s, Step(t)) && OnlyBusy(s', t)
      && (s'.pcs[t].Returned? || (Calling(s'.pcs[t]) && Rank(s'.pcs[t]) < Rank(s.pcs[t])))
  {
    BusyRoom(s, t);
    InvIsKept(s, Step(t));
    StepMoves(s, Step(t));
    BusyOnwards(s, t);
  }

  lemma {:induction false} BytesAfter(s: State, a: Action)
    requires Inv(s) && Enabled(s, a) && Inv(Next(s, a))
    ensures BytesTo(Next(s, a).h.items, Next(s, a).h.pt) ==
            BytesTo(s.h.items, s.h.pt) + if AcceptedBy(s, a) == [] then 0 else s.pcs[a.t].nbytes
  {
    StepMoves(s, a);
    StepCounts(s, a);
    AcceptedIsRecorded(s, a);
    BytesOfPrefix(s.h.items, Next(s, a).h.items, s.h.pt);
  }

  /** The fate is reached, or is still the fate. */
  ghost predicate SameFate(s: State, s': State, t: Tid)
    requires Recorded(s) && Recorded(s') && t < |s.pcs| == |s'.pcs| && Calling(s.pcs[t])
  {
    if s'.pcs[t].Returned? then Reached(s', t, FateOf(s, t))
    else Calling(s'.pcs[t]) && FateOf(s', t) == FateOf(s, t)
  }

  lemma {:induction false} LoadingFate(s: State, t: Tid)
    requires Recorded(s) && FieldsAreSlots(s) && t < |s.pcs| && At(s, t) && (s.pcs[t].EHead? || s.pcs[t].ETail?)
    requires Recorded(EnqueueStep(s, t)) && (s.pcs[t].ETail? ==> s.h.tk[t] == s.h.ph)
    ensures |EnqueueStep(s, t).pcs| == |s.pcs| && SameFate(s, EnqueueStep(s, t), t)
  {
    FullTest(s);
  }

  lemma {:induction false} McLookingFate(s: State, t: Tid)
    requires Recorded(s) && FieldsAreSlots(s) && t < |s.pcs| && At(s, t) && (s.pcs[t].MHead? || s.pcs[t].MTail?)
    requires Recorded(McStep(s, t)) && (s.pcs[t].MTail? ==> s.h.tk[t] == s.h.ch)
    ensures |McStep(s, t).pcs| == |s.pcs| && SameFate(s, McStep(s, t), t)
  {
    EmptyTest(s);
  }

  lemma {:induction false} ScLookingFate(s: State, t: Tid)
    requires Recorded(s) && FieldsAreSlots(s) && t < |s.pcs| && At(s, t) && (s.pcs[t].SHead? || s.pcs[t].STail?)
    requires Recorded(ScStep(s, t))
    ensures |ScStep(s, t).pcs| == |s.pcs| && SameFate(s, ScStep(s, t), t)
  {
    EmptyTest(s);
  }

  /** What a step records, in one place: queue, counts and bytes. */
  ghost predicate Recording(s: State, s': State, a: Action)
    requires Recorded(s) && Recorded(s') && a.t < |s.pcs|
  {
    && s.h.items <= s'.h.items && s'.h.pt == s.h.pt + |AcceptedBy(s, a)|
    && (Takes(s, a) ==> Queue(s) != [] && Queue(s') == Queue(s)[1..])
    && (!Takes(s, a) ==> Queue(s') == Queue(s) + AcceptedBy(s, a))
    && BytesTo(s'.h.items, s'.h.pt) == BytesTo(s.h.items, s.h.pt) + if AcceptedBy(s, a) == [] then 0 else s.pcs[a.t].nbytes
  }

  lemma {:induction false} StepRecording(s: State, a: Action)
    requires Inv(s) && Enabled(s, a) && Room(s, a) && Inv(Next(s, a))
    ensures Recording(s, Next(s, a), a)
  {
    StepMoves(s, a);
    StepCounts(s, a);
    StepRefinesQueue(s, a);
    BytesAfter(s, a);
  }

  lemma {:induction false} StoringFate(s: State, t: Tid)
    requires Recorded(s) && t < |s.pcs| && At(s, t) && (s.pcs[t].ECas? || OwnsProd(s.pcs[t])) && Enabled(s, Step(t))
    requires s.pcs[t].ECas? ==> s.sh.prodHead == s.pcs[t].head
    requires s.pcs[t].EWait? ==> s.sh.prodTail == s.pcs[t].head
    requires Recorded(Next(s, Step(t))) && Recording(s, Next(s, Step(t)), Step(t))
    ensures SameFate(s, Next(s, Step(t)), t)
  {
  }

  lemma {:induction false} TakingFate(s: State, t: Tid)
    requires Recorded(s) && t < |s.pcs| && At(s, t) && Enabled(s, Step(t)) && (s.pcs[t].MCas? || s.pcs[t].SStore?)
    requires s.pcs[t].MCas? ==> s.sh.consHead == s.pcs[t].head
    requires Recorded(Next(s, Step(t))) && Recording(s, Next(s, Step(t)), Step(t))
    ensures SameFate(s, Next(s, Step(t)), t)
  {
  }

  lemma {:induction false} McReturningFate(s: State, t: Tid)
    requires Recorded(s) && t < |s.pcs| && At(s, t) && (s.pcs[t].MRead? || s.pcs[t].MWait? || s.pcs[t].MPublish?)
    requires s.pcs[t].MRead? ==> Stored(s, s.h.tk[t])
    requires s.pcs[t].MWait? ==> s.sh.consTail == s.pcs[t].head
    requires Recorded(McStep(s, t)) && Recording(s, McStep(s, t), Step(t))
    ensures |McStep(s, t).pcs| == |s.pcs| && SameFate(s, McStep(s, t), t)
  {
  }

  lemma {:induction false} ScReturningFate(s: State, t: Tid)
    requires Recorded(s) && t < |s.pcs| && At(s, t) && (s.pcs[t].SRead? || s.pcs[t].SPublish?)
    requires s.pcs[t].SRead? ==> Stored(s, s.h.tk[t])
    requires Recorded(ScStep(s, t)) && Recording(s, ScStep(s, t), Step(t))
    ensures |ScStep(s, t).pcs| == |s.pcs| && SameFate(s, ScStep(s, t), t)
  {
  }

  lemma {:induction false} BusyFate(s: State, t: Tid)
    requires OnlyBusy(s, t) && Calling(s.pcs[t]) && Enabled(s, Step(t)) && Room(s, Step(t)) && Inv(Next(s, Step(t)))
    ensures SameFate(s, Next(s, Step(t)), t)
  {
    assert At(s, t);
    StepRecording(s, Step(t));
    ProducerTickets(s, t);
    ConsumerTickets(s, t);
    var pc := s.pcs[t];
    if pc.EHead? || pc.ETail? {
      LoadingFate(s, t);
    } else if pc.ECas? || OwnsProd(pc) {
      StoringFate(s, t);
    } else if pc.MCas? || pc.SStore? {
      TakingFate(s, t);
    } else if OwnsCons(pc) {
      assert Stored(s, s.h.tk[t]);
      if Exclusive(pc) {
        ScReturningFate(s, t);
      } else {
        McReturningFate(s, t);
      }
    } else if pc.MHead? || pc.MTail? {
      McLookingFate(s, t);
    } else {
      ScLookingFate(s, t);
    }
  }

  lemma {:induction false} OneAction(s: State, a: Action)
    requires WellFormed(s) && Enabled(s, a) && Room(s, a) && WellFormed(Next(s, a))
    ensures Legal(s, [a]) && Roomy(s, [a]) && Exec(s, [a]) == Next(s, a) && Answers(s, [a]) == AnsweredBy(s, a)
  {
    Prepend(s, a, []);
    AnswersPrepend(s, a, []);
    assert [a] + [] == [a] && AnsweredBy(s, a) + [] == AnsweredBy(s, a);
  }

  lemma {:induction false} LastStep(s: State, t: Tid, f: Fate)
    requires WellFormed(s) && Enabled(s, Step(t)) && Room(s, Step(t))
    requires Inv(Next(s, Step(t))) && Reached(Next(s, Step(t)), t, f)
    ensures Legal(s, [Step(t)]) && Roomy(s, [Step(t)]) && Exec(s, [Step(t)]) == Next(s, Step(t))
    ensures Answers(s, [Step(t)]) == [AnswerOf(f.ret)]
  {
    OneAction(s, Step(t));
  }

  lemma {:induction false} EarlierStep(s: State, t: Tid, rest: seq<Action>)
    requires WellFormed(s) && Enabled(s, Step(t)) && Room(s, Step(t)) && !Next(s, Step(t)).pcs[t].Returned?
    requires WellFormed(Next(s, Step(t))) && Legal(Next(s, Step(t)), rest) && Roomy(Next(s, Step(t)), rest)
    ensures
      var acts := [Step(t)] + rest;
      && Legal(s, acts) && Roomy(s, acts) && Exec(s, acts) == Exec(Next(s, Step(t)), rest)
      && Answers(s, acts) == Answers(Next(s, Step(t)), rest)
  {
    Prepend(s, Step(t), rest);
    AnswersPrepend(s, Step(t), rest);
  }

  /** By its own steps the call comes to its end. */
  lemma {:induction false} CallFinishes(s: State, t: Tid) returns (acts: seq<Action>)
    requires OnlyBusy(s, t) && Calling(s.pcs[t])
    ensures Legal(s, acts) && Roomy(s, acts) && OnlyBusy(Exec(s, acts), t)
    ensures forall i :: 0 <= i < |acts| ==> acts[i] == Step(t)
    ensures Reached(Exec(s, acts), t, FateOf(s, t)) && Answers(s, acts) == [AnswerOf(FateOf(s, t).ret)]
    decreases Rank(s.pcs[t])
  {
    BusyStep(s, t);
    BusyFate(s, t);
    var s' := Next(s, Step(t));
    if s'.pcs[t].Returned? {
      acts := [Step(t)];
      LastStep(s, t, FateOf(s, t));
    } else {
      var rest := CallFinishes(s', t);
      acts := [Step(t)] + rest;
      EarlierStep(s, t, rest);
    }
  }

  // ------------------------------------------------------------------ whole calls

  /** The answers in the queue's terms. */
  ghost function AnswerOf(r: Ret): B.Answer<Buf> {
    match r
    case Accepted => B.Code(0)
    case NoBufs => B.Code(B.ENOBUFS)
    case Got(b) => B.Buffer(Some(b))
    case Null => B.Buffer(None)
  }

  ghost function AnsweredBy(s: State, a: Action): seq<B.Answer<Buf>>
    requires WellFormed(s) && Enabled(s, a)
  {
    if Next(s, a).pcs[a.t].Returned? then [AnswerOf(Next(s, a).pcs[a.t].ret)] else []
  }

  /** What the calls of a run returned, in order. */
  ghost function Answers(s: State, acts: seq<Action>): seq<B.Answer<Buf>>
    requires WellFormed(s) && Legal(s, acts)
    decreases |acts|
  {
    if acts == [] then []
    else
      NextWellFormed(s, acts[0]);
      AnsweredBy(s, acts[0]) + Answers(Next(s, acts[0]), acts[1..])
  }

  lemma {:induction false} AnswersPrepend(s: State, a: Action, rest: seq<Action>)
    requires WellFormed(s) && Enabled(s, a) && WellFormed(Next(s, a)) && Legal(Next(s, a), rest) && Legal(s, [a] + rest)
    ensures Answers(s, [a] + rest) == AnsweredBy(s, a) + Answers(Next(s, a), rest)
  {
    assert ([a] + rest)[1..] == rest;
  }

  lemma {:induction false} AnswersConcat(s: State, a: seq<Action>, b: seq<Action>)
    requires WellFormed(s) && Legal(s, a) && Legal(Exec(s, a), b) && Legal(s, a + b)
    ensures Answers(s, a + b) == Answers(s, a) + Answers(Exec(s, a), b)
    decreases |a|
  {
    if a == [] {
      assert a + b == b;
    } else {
      assert a + b == [a[0]] + (a[1..] + b) && a == [a[0]] + a[1..];
      var s' := Next(s, a[0]);
      NextWellFormed(s, a[0]);
      RunConcat(s', a[1..], b);
      AnswersConcat(s', a[1..], b);
      AnswersPrepend(s, a[0], a[1..] + b);
      AnswersPrepend(s, a[0], a[1..]);
      Regroup(AnsweredBy(s, a[0]), Answers(s', a[1..]), Answers(Exec(s, a), b));
    }
  }

  /** Nothing is in flight. */
  ghost predicate Quiescent(s: State) {
    Inv(s) && forall u: nat :: u < |s.pcs| ==> Quiet(s.pcs[u])
  }

  /** The bounded queue such a state stands for. */
  ghost function View(s: State): B.Fifo<Buf>
    requires Inv(s)
  {
    B.Fifo(Queue(s), s.size - 1, s.sh.bufs, s.sh.bytes)
  }

  ghost function Start(op: B.Op<Buf>, t: Tid): Action
    requires op.EnqueueOp? || op.McOp? || op.ScOp?
  {
    match op
    case EnqueueOp(b, n) => StartEnqueue(t, b, n)
    case McOp => StartMc(t)
    case ScOp => StartSc(t)
  }

  lemma {:induction false} QuiescentCounts(s: State)
    requires Quiescent(s)
    ensures s.h.pt == s.h.ph && s.h.ct == s.h.ch && |Queue(s)| == s.h.ph - s.h.ct
    ensures s.sh.bufs == s.h.pt % WORD64 && s.sh.bytes == BytesTo(s.h.items, s.h.pt) % WORD64
  {
    if s.h.pt < s.h.ph {
      ProducerOutstanding(s);
    }
    if s.h.ct < s.h.ch {
      ConsumerOutstanding(s);
    }
  }

  lemma {:induction false} ProducerOutstanding(s: State)
    requires Inv(s) && s.h.pt < s.h.ph
    ensures exists t: nat :: t < |s.pcs| && OwnsProd(s.pcs[t])
  {
    assert HeldByProducer(s, s.h.pt);
  }

  lemma {:induction false} ConsumerOutstanding(s: State)
    requires Inv(s) && s.h.ct < s.h.ch
    ensures exists t: nat :: t < |s.pcs| && OwnsCons(s.pcs[t])
  {
    assert HeldByConsumer(s, s.h.ct);
  }

  /** Any thread may begin any call. */
  lemma {:induction false} CallBegins(s: State, t: Tid, op: B.Op<Buf>)
    requires Quiescent(s) && t < |s.pcs| && (op.EnqueueOp? || op.McOp? || op.ScOp?)
    ensures
      var a := Start(op, t);
      var s' := Next(s, a);
      && Enabled(s, a) && Room(s, a) && OnlyBusy(s', t) && Calling(s'.pcs[t]) && AcceptedBy(s, a) == []
      && Queue(s') == Queue(s) && s'.h.pt == s.h.pt && s'.h.ph == s.h.ph && s'.h.ct == s.h.ct && s'.size == s.size
      && s'.h.items == s.h.items
      && s'.pcs[t] == match op case EnqueueOp(b, n) => EHead(b, n) case McOp => MHead case _ => SHead(Any)
  {
    var a := Start(op, t);
    assert Enabled(s, a);
    InvIsKept(s, a);
    StepMoves(s, a);
    StepRefinesQueue(s, a);
  }

  lemma {:induction false} EnqueueFateIsFifo(s: State, s': State, t: Tid, op: B.Op<Buf>)
    requires Quiescent(s) && Recorded(s') && t < |s'.pcs| && op.EnqueueOp? && s'.pcs[t] == EHead(op.x, op.nbytes)
    requires Queue(s') == Queue(s) && s'.h.items == s.h.items && s'.size == s.size
    requires s'.h.pt == s.h.pt && s'.h.ph == s.h.ph && s'.h.ct == s.h.ct
    ensures
      var f := FateOf(s', t);
      B.FifoStep(View(s), op) == (B.Fifo(f.queue, s.size - 1, f.bufs % WORD64, f.bytes % WORD64), AnswerOf(f.ret))
  {
    QuiescentCounts(s);
    AddWord(s.h.pt, 1);
    AddWord(BytesTo(s.h.items, s.h.pt), op.nbytes);
  }

  lemma {:induction false} DequeueFateIsFifo(s: State, s': State, t: Tid, op: B.Op<Buf>)
    requires Quiescent(s) && Recorded(s') && t < |s'.pcs| && (op.McOp? || op.ScOp?)
    requires s'.pcs[t] == MHead || s'.pcs[t] == SHead(Any)
    requires Queue(s') == Queue(s) && s'.h.items == s.h.items && s'.h.pt == s.h.pt && s'.size == s.size
    ensures
      var f := FateOf(s', t);
      B.FifoStep(View(s), op) == (B.Fifo(f.queue, s.size - 1, f.bufs % WORD64, f.bytes % WORD64), AnswerOf(f.ret))
  {
    QuiescentCounts(s);
  }

  /** What the fate of a whole call is, in the bounded queue's terms. */
  lemma {:induction false} FateIsFifo(s: State, t: Tid, op: B.Op<Buf>)
    requires Quiescent(s) && t < |s.pcs| && (op.EnqueueOp? || op.McOp? || op.ScOp?)
    ensures
      var s' := Next(s, Start(op, t));
      && Enabled(s, Start(op, t)) && Inv(s') && t < |s'.pcs| && Calling(s'.pcs[t])
    ensures
      var f := FateOf(Next(s, Start(op, t)), t);
      B.FifoStep(View(s), op) == (B.Fifo(f.queue, s.size - 1, f.bufs % WORD64, f.bytes % WORD64), AnswerOf(f.ret))
  {
    CallBegins(s, t, op);
    var s' := Next(s, Start(op, t));
    if op.EnqueueOp? {
      EnqueueFateIsFifo(s, s', t, op);
    } else {
      DequeueFateIsFifo(s, s', t, op);
    }
  }

  /**
   From any state with nothing in flight, any thread's call runs by its own steps to a state
   with nothing in flight, and answers and acts as the bounded queue.
   */
  lemma {:induction false} SerialCall(s: State, t: Tid, op: B.Op<Buf>) returns (acts: seq<Action>)
    requires Quiescent(s) && t < |s.pcs| && (op.EnqueueOp? || op.McOp? || op.ScOp?)
    ensures Legal(s, acts) && Roomy(s, acts) && Quiescent(Exec(s, acts))
    ensures acts != [] && acts[0] == Start(op, t) && forall i :: 1 <= i < |acts| ==> acts[i] == Step(t)
    ensures Answers(s, acts) == [B.FifoStep(View(s), op).1] && View(Exec(s, acts)) == B.FifoStep(View(s), op).0
  {
    var a := Start(op, t);
    CallBegins(s, t, op);
    FateIsFifo(s, t, op);
    var s' := Next(s, a);
    var rest := CallFinishes(s', t);
    acts := [a] + rest;
    Prepend(s, a, rest);
    AnswersPrepend(s, a, rest);
    QuiescentCounts(Exec(s', rest));
  }

  // ------------------------------------------------------------------ the conditional dequeue

  ghost predicate Peeking(pc: Pc) { pc.KHead? || pc.KTail? || pc.KHeadAgain? || pc.KSlot? }

  function PeekRank(pc: Pc): nat {
    if pc.KHead? then 4 else if pc.KTail? then 3 else if pc.KHeadAgain? then 2 else 1
  }

  /** The peek ends with NULL on an empty queue, and otherwise shows its front. */
  ghost predicate Peeked(s: State, t: Tid, q: seq<Buf>)
    requires t < |s.pcs|
  {
    s.pcs[t] == if q == [] then Returned(Null) else KAsk(q[0])
  }

  lemma {:induction false} PeekOnwards(s: State, t: Tid)
    requires Recorded(s) && FieldsAreSlots(s) && t < |s.pcs| && At(s, t) && Peeking(s.pcs[t])
    requires s.h.ch < s.h.pt ==> Stored(s, s.h.ch)
    ensures
      var s' := PeekStep(s, t);
      && s'.sh == s.sh && s'.h == s.h && |s'.pcs| == |s.pcs|
      && (Peeked(s', t, Queue(s)) || (Peeking(s'.pcs[t]) && PeekRank(s'.pcs[t]) < PeekRank(s.pcs[t])))
      && (!Peeking(s'.pcs[t]) ==> Peeked(s', t, Queue(s)))
  {
    EmptyTest(s);
  }

  lemma {:induction false} PeekBusy(s: State, t: Tid)
    requires OnlyBusy(s, t) && Peeking(s.pcs[t])
    ensures
      var s' := Next(s, Step(t));
      && Enabled(s, Step(t)) && Room(s, Step(t)) && OnlyBusy(s', t) && Queue(s') == Queue(s) && s'.sh == s.sh
      && s'.h == s.h && s'.size == s.size
      && (if Peeking(s'.pcs[t]) then PeekRank(s'.pcs[t]) < PeekRank(s.pcs[t]) else Peeked(s', t, Queue(s)))
  {
    assert At(s, t);
    if s.h.ch < s.h.pt {
      assert Stored(s, s.h.ch);
    }
    PeekOnwards(s, t);
    InvIsKept(s, Step(t));
    StepMoves(s, Step(t));
  }

  lemma {:induction false} PeekFinishes(s: State, t: Tid) returns (acts: seq<Action>)
    requires OnlyBusy(s, t) && Peeking(s.pcs[t])
    ensures Legal(s, acts) && Roomy(s, acts) && OnlyBusy(Exec(s, acts), t) && Peeked(Exec(s, acts), t, Queue(s))
    ensures Exec(s, acts).sh == s.sh && Exec(s, acts).h == s.h
    ensures Answers(s, acts) == if Queue(s) == [] then [B.Buffer(None)] else []
    decreases PeekRank(s.pcs[t])
  {
    PeekBusy(s, t);
    var s' := Next(s, Step(t));
    var rest := [];
    if Peeking(s'.pcs[t]) {
      rest := PeekFinishes(s', t);
    }
    acts := [Step(t)] + rest;
    Prepend(s, Step(t), rest);
    AnswersPrepend(s, Step(t), rest);
  }

  lemma {:induction false} PeekBegins(s: State, t: Tid)
    requires Quiescent(s) && t < |s.pcs|
    ensures
      var s' := Next(s, StartCond(t));
      && Enabled(s, StartCond(t)) && Room(s, StartCond(t)) && OnlyBusy(s', t) && s'.pcs[t] == KHead
      && s'.sh == s.sh && s'.h == s.h && s'.size == s.size && Queue(s') == Queue(s)
  {
    assert Enabled(s, StartCond(t));
    InvIsKept(s, StartCond(t));
    StepMoves(s, StartCond(t));
  }

  lemma {:induction false} PeekCall(s: State, t: Tid) returns (acts: seq<Action>)
    requires Quiescent(s) && t < |s.pcs|
    ensures Legal(s, acts) && Roomy(s, acts) && OnlyBusy(Exec(s, acts), t) && Peeked(Exec(s, acts), t, Queue(s))
    ensures Exec(s, acts).sh == s.sh && Exec(s, acts).h == s.h && Queue(Exec(s, acts)) == Queue(s)
    ensures Answers(s, acts) == if Queue(s) == [] then [B.Buffer(None)] else []
  {
    PeekBegins(s, t);
    var s' := Next(s, StartCond(t));
    var rest := PeekFinishes(s', t);
    acts := [StartCond(t)] + rest;
    Prepend(s, StartCond(t), rest);
    AnswersPrepend(s, StartCond(t), rest);
  }

  /** After the verdict: a refusal ends the call, an acceptance turns it into a dequeue. */
  lemma {:induction false} VerdictIsKept(s: State, t: Tid, ok: bool)
    requires OnlyBusy(s, t) && s.pcs[t].KAsk?
    ensures
      var s' := Next(s, Answer(t, ok));
      && Enabled(s, Answer(t, ok)) && Room(s, Answer(t, ok)) && OnlyBusy(s', t)
      && s'.sh == s.sh && s'.h == s.h && s'.size == s.size && Queue(s') == Queue(s)
      && s'.pcs[t] == if ok then SHead(Exactly(s.pcs[t].buf)) else Returned(Null)
  {
    InvIsKept(s, Answer(t, ok));
    StepMoves(s, Answer(t, ok));
  }

  /** How the call stands after its verdict `ok`. */
  ghost predicate Settles(s: State, acts: seq<Action>, ok: bool)
    requires Inv(s) && Queue(s) != []
  {
    && Legal(s, acts) && Roomy(s, acts) && Quiescent(Exec(s, acts))
    && Answers(s, acts) == [B.Buffer(if ok then Some(Queue(s)[0]) else None)]
    && Queue(Exec(s, acts)) == (if ok then Queue(s)[1..] else Queue(s))
    && Exec(s, acts).h.pt == s.h.pt
    && BytesTo(Exec(s, acts).h.items, Exec(s, acts).h.pt) == BytesTo(s.h.items, s.h.pt)
  }

  lemma {:induction false} RefusedCall(s: State, t: Tid)
    requires OnlyBusy(s, t) && s.pcs[t].KAsk? && Queue(s) != []
    ensures Settles(s, [Answer(t, false)], false)
  {
    VerdictIsKept(s, t, false);
    OneAction(s, Answer(t, false));
  }

  lemma {:induction false} AcceptedCall(s: State, t: Tid) returns (acts: seq<Action>)
    requires OnlyBusy(s, t) && s.pcs[t].KAsk? && Queue(s) != []
    ensures Settles(s, acts, true)
  {
    VerdictIsKept(s, t, true);
    var rest := CallFinishes(Next(s, Answer(t, true)), t);
    acts := [Answer(t, true)] + rest;
    Prepend(s, Answer(t, true), rest);
    AnswersPrepend(s, Answer(t, true), rest);
  }

  /**
   drbr_dequeue_cond made alone: NULL, and nothing changed, when the queue is empty or its
   predicate refuses the front; else the front, and it is removed.
   */
  lemma {:induction false} SerialCond(s: State, t: Tid, accept: Buf -> bool) returns (acts: seq<Action>)
    requires Quiescent(s) && t < |s.pcs|
    ensures Legal(s, acts) && Roomy(s, acts) && Quiescent(Exec(s, acts))
    ensures
      var (q, e) := (Queue(s), Exec(s, acts));
      if q == [] || !accept(q[0]) then Answers(s, acts) == [B.Buffer(None)] && View(e) == View(s)
      else Answers(s, acts) == [B.Buffer(Some(q[0]))] && View(e) == View(s).(items := q[1..])
  {
    var first := PeekCall(s, t);
    var m := Exec(s, first);
    QuiescentCounts(s);
    acts := first;
    if Queue(s) != [] {
      var ok, more := accept(m.pcs[t].buf), [Answer(t, false)];
      if ok {
        more := AcceptedCall(m, t);
      } else {
        RefusedCall(m, t);
      }
      assert Settles(m, more, ok);
      acts := first + more;
      RunConcat(s, first, more);
      RoomyConcat(s, first, more);
      AnswersConcat(s, first, more);
      QuiescentCounts(Exec(m, more));
    }
  }

  // ------------------------------------------------------------------ runs of calls

  /** The thread and the call of each turn. */
  datatype Turn = Turn(t: Tid, op: B.Op<Buf>)

  ghost predicate Turns(turns: seq<Turn>, n: nat) {
    forall i :: 0 <= i < |turns| ==>
      turns[i].t < n && (turns[i].op.EnqueueOp? || turns[i].op.McOp? || turns[i].op.ScOp?)
  }

  function OpsOf(turns: seq<Turn>): seq<B.Op<Buf>> { seq(|turns|, i requires 0 <= i < |turns| => turns[i].op) }

  /**
   So a whole sequence of calls, by whichever threads, is a legal run that answers, and
   ends, as the bounded queue does on the same calls.
   */
  lemma {:induction false} SerialRun(s: State, turns: seq<Turn>) returns (acts: seq<Action>)
    requires Quiescent(s) && Turns(turns, |s.pcs|)
    ensures Legal(s, acts) && Roomy(s, acts) && Quiescent(Exec(s, acts))
    ensures (View(Exec(s, acts)), Answers(s, acts)) == B.FifoRun(View(s), OpsOf(turns))
    decreases |turns|
  {
    if turns == [] {
      return [];
    }
    var k := |turns| - 1;
    var before, turn := turns[..k], turns[k];
    var acts' := SerialRun(s, before);
    var m := Exec(s, acts');
    var more := SerialCall(m, turn.t, turn.op);
    acts := acts' + more;
    RunConcat(s, acts', more);
    RoomyConcat(s, acts', more);
    AnswersConcat(s, acts', more);
    assert OpsOf(turns)[..k] == OpsOf(before) && OpsOf(turns)[k] == turn.op;
  }
}
