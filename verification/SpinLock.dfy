/**
 The swap-based spin lock: one shared word, and a counter that the lock is meant to guard.
 The swap routine loads the word, exchanges the value with the caller's own variable under
 the bus lock, and stores the result back. The bus lock thus covers private memory, and
 the word sees a load and a separate store: each is a step of its own here. The word's
 width does not matter, because the code only ever stores 0 and 1.
 */
module SpinLock {

  const PS4_OK: nat := 0
  const PS4_NOT_OK: nat := 0x85053000
  const PS4_ERROR_ARGUMENT_PRIMARY_MISSING: nat := 0x85053601

  type Tid = nat

  /**
   `Swapping`, `Releasing` and `Meddling` are inside a swap, after its load returned `v`:
   in the lock loop, in the unlock of a holder, in the unlock of anybody else. `Loaded` is
   in the critical section, between reading the counter and writing it back.
   */
  datatype Pc =
    | Outside | Spinning | Swapping(v: nat)
    | Held | Loaded(data: int) | Releasing(v: nat)
    | Meddling(v: nat)

  predicate Inside(pc: Pc) { pc.Held? || pc.Loaded? || pc.Releasing? }

  /** `locks` and `unlocks` count the lock calls and unlock calls that returned PS4_OK. */
  datatype State = State(word: nat, data: int, pcs: seq<Pc>, locks: nat, unlocks: nat, updates: nat)

  datatype Action =
    | Call(t: Tid)
    | LockLoad(t: Tid)
    | LockStore(t: Tid)
    | Read(t: Tid)
    | Write(t: Tid)
    | UnlockLoad(t: Tid)
    | UnlockStore(t: Tid)

  predicate Enabled(s: State, a: Action) {
    a.t < |s.pcs| &&
    var pc := s.pcs[a.t];
    match a
    case Call(_) => pc.Outside?
    case LockLoad(_) => pc.Spinning?
    case LockStore(_) => pc.Swapping?
    case Read(_) => pc.Held?
    case Write(_) => pc.Loaded?
    case UnlockLoad(_) => pc.Outside? || pc.Held?
    case UnlockStore(_) => pc.Releasing? || pc.Meddling?
  }

  function UnlockCode(v: nat): nat { if v != 1 then PS4_NOT_OK else PS4_OK }

  function Next(s: State, a: Action): State
    requires Enabled(s, a)
  {
    var pc := s.pcs[a.t];
    match a
    case Call(t) => s.(pcs := s.pcs[t := Spinning])
    case LockLoad(t) => s.(pcs := s.pcs[t := Swapping(s.word)])
    case LockStore(t) =>
      if pc.v != 0 then s.(word := 1, pcs := s.pcs[t := Spinning])
      else s.(word := 1, pcs := s.pcs[t := Held], locks := s.locks + 1)
    case Read(t) => s.(pcs := s.pcs[t := Loaded(s.data)])
    case Write(t) => s.(data := pc.data + 1, pcs := s.pcs[t := Held], updates := s.updates + 1)
    case UnlockLoad(t) => s.(pcs := s.pcs[t := if pc.Held? then Releasing(s.word) else Meddling(s.word)])
    case UnlockStore(t) =>
      s.(word := 0, pcs := s.pcs[t := Outside],
         unlocks := if UnlockCode(pc.v) == PS4_OK then s.unlocks + 1 else s.unlocks)
  }

  predicate Initial(s: State) {
    && s.word == 0 && s.data == 0 && s.locks == 0 && s.unlocks == 0 && s.updates == 0
    && forall t :: 0 <= t < |s.pcs| ==> s.pcs[t].Outside?
  }

  predicate Legal(s: State, acts: seq<Action>)
    decreases |acts|
  {
    acts == [] || (Enabled(s, acts[0]) && Legal(Next(s, acts[0]), acts[1..]))
  }

  function Exec(s: State, acts: seq<Action>): State
    requires Legal(s, acts)
    decreases |acts|
  {
    if acts == [] then s else Exec(Next(s, acts[0]), acts[1..])
  }

  // ------------------------------------------------------------------ when the swaps are as good as atomic

  /** The store of a swap finds the word as its load left it. */
  predicate Intact(s: State, a: Action)
    requires Enabled(s, a)
  {
    a.LockStore? || a.UnlockStore? ==> s.word == s.pcs[a.t].v
  }

  predicate AllIntact(s: State, acts: seq<Action>)
    requires Legal(s, acts)
    decreases |acts|
  {
    acts == [] || (Intact(s, acts[0]) && AllIntact(Next(s, acts[0]), acts[1..]))
  }

  /** Successful locks minus successful unlocks is the word, and a swap has loaded 0 or 1. */
  ghost predicate Balanced(s: State) {
    && (s.word == 0 || s.word == 1) && s.locks - s.unlocks == s.word
    && forall t :: 0 <= t < |s.pcs| ==> LoadedBit(s.pcs[t])
  }

  predicate LoadedBit(pc: Pc) { pc.Swapping? || pc.Releasing? || pc.Meddling? ==> pc.v == 0 || pc.v == 1 }

  ghost predicate AlwaysBalanced(s: State, acts: seq<Action>)
    requires Legal(s, acts)
    decreases |acts|
  {
    Balanced(s) && (acts == [] || AlwaysBalanced(Next(s, acts[0]), acts[1..]))
  }

  lemma {:induction false} StepBalanced(s: State, a: Action)
    requires Balanced(s) && Enabled(s, a)
    ensures Balanced(Next(s, a)) <==> Intact(s, a)
  {
    var s' := Next(s, a);
    assert LoadedBit(s.pcs[a.t]) && LoadedBit(s'.pcs[a.t]);
    assert forall u :: 0 <= u < |s.pcs| && u != a.t ==> s'.pcs[u] == s.pcs[u];
  }

  /**
   Whoever unlocks whenever: the return codes account for the word throughout a run if and
   only if no swap of the run was overtaken between its load and its store.
   */
  lemma {:induction false} BalancedIffIntact(s: State, acts: seq<Action>)
    requires Balanced(s) && Legal(s, acts)
    ensures AlwaysBalanced(s, acts) <==> AllIntact(s, acts)
    decreases |acts|
  {
    if acts != [] {
      StepBalanced(s, acts[0]);
      if Intact(s, acts[0]) {
        BalancedIffIntact(Next(s, acts[0]), acts[1..]);
      } else {
        assert !AlwaysBalanced(Next(s, acts[0]), acts[1..]);
      }
    }
  }

  // ------------------------------------------------------------------ when the lock excludes

  ghost predicate Exclusive(s: State) {
    forall t, u :: 0 <= t < |s.pcs| && 0 <= u < |s.pcs| && Inside(s.pcs[t]) && Inside(s.pcs[u]) ==> t == u
  }

  ghost predicate Occupied(s: State) { exists t :: 0 <= t < |s.pcs| && Inside(s.pcs[t]) }

  /** What an insider or a swapper has read. */
  predicate Reading(s: State, pc: Pc) {
    && (pc.Loaded? ==> pc.data == s.data) && (pc.Releasing? ==> pc.v == 1)
    && (pc.Swapping? ==> pc.v == 0 || pc.v == 1)
  }

  /** One at a time; the word says whether somebody is inside; no update of the counter is lost. */
  ghost predicate Guarded(s: State) {
    && (s.word == 0 || s.word == 1) && (s.word == 1 <==> Occupied(s))
    && Exclusive(s) && s.data == s.updates
    && forall t :: 0 <= t < |s.pcs| ==> Reading(s, s.pcs[t])
  }

  /** A lock swap is not overtaken, and nobody unlocks while another is inside. */
  predicate Proper(s: State, a: Action)
    requires Enabled(s, a)
  {
    && (a.LockStore? ==> s.word == s.pcs[a.t].v)
    && (a.UnlockStore? && s.pcs[a.t].Meddling? ==> s.word == 0)
  }

  predicate AllProper(s: State, acts: seq<Action>)
    requires Legal(s, acts)
    decreases |acts|
  {
    acts == [] || (Proper(s, acts[0]) && AllProper(Next(s, acts[0]), acts[1..]))
  }

  ghost predicate AlwaysGuarded(s: State, acts: seq<Action>)
    requires Legal(s, acts)
    decreases |acts|
  {
    Guarded(s) && (acts == [] || AlwaysGuarded(Next(s, acts[0]), acts[1..]))
  }

  lemma {:induction false} ProperStepGuarded(s: State, a: Action)
    requires Guarded(s) && Enabled(s, a) && Proper(s, a)
    ensures Guarded(Next(s, a))
  {
    var s', t := Next(s, a), a.t;
    assert Reading(s, s.pcs[t]);
    assert forall u :: 0 <= u < |s.pcs| && u != t ==> s'.pcs[u] == s.pcs[u];
    if s.word == 1 && !Inside(s.pcs[t]) {
      var w :| 0 <= w < |s.pcs| && Inside(s.pcs[w]);
      assert Inside(s'.pcs[w]);
    }
    if Inside(s'.pcs[t]) {
      assert Occupied(s');
    }
  }

  lemma {:induction false} ImproperStepUnguarded(s: State, a: Action)
    requires Guarded(s) && Enabled(s, a) && !Proper(s, a)
    ensures !Guarded(Next(s, a))
  {
    var s', t := Next(s, a), a.t;
    assert Reading(s, s.pcs[t]);
    if s.word == 1 {
      var w :| 0 <= w < |s.pcs| && Inside(s.pcs[w]);
      assert w != t && Inside(s'.pcs[w]);
      if a.LockStore? {
        assert Inside(s'.pcs[t]);
      } else {
        assert Occupied(s');
      }
    } else {
      assert forall u :: 0 <= u < |s'.pcs| ==> !Inside(s'.pcs[u]);
    }
  }

  /**
   The lock guards its data throughout a run if and only if no lock swap was overtaken
   and nobody unlocked for another.
   */
  lemma {:induction false} GuardedIffProper(s: State, acts: seq<Action>)
    requires Guarded(s) && Legal(s, acts)
    ensures AlwaysGuarded(s, acts) <==> AllProper(s, acts)
    decreases |acts|
  {
    if acts != [] {
      if Proper(s, acts[0]) {
        ProperStepGuarded(s, acts[0]);
        GuardedIffProper(Next(s, acts[0]), acts[1..]);
      } else {
        ImproperStepUnguarded(s, acts[0]);
        assert !AlwaysGuarded(Next(s, acts[0]), acts[1..]);
      }
    }
  }

  lemma {:induction false} InitialGuarded(s: State)
    requires Initial(s)
    ensures Guarded(s) && Balanced(s)
  {
  }

  // ------------------------------------------------------------------ uninterrupted swaps

  /** Only holders unlock. */
  ghost predicate HoldersUnlock(s: State, acts: seq<Action>)
    requires Legal(s, acts)
    decreases |acts|
  {
    acts == [] ||
    ((acts[0].UnlockLoad? ==> s.pcs[acts[0].t].Held?) && HoldersUnlock(Next(s, acts[0]), acts[1..]))
  }

  /** The store of each lock swap follows its load at once: the exchange an atomic one would be. */
  ghost predicate Uninterrupted(acts: seq<Action>)
    decreases |acts|
  {
    acts == [] ||
    (if acts[0].LockLoad? then |acts| > 1 && acts[1] == LockStore(acts[0].t) && Uninterrupted(acts[2..])
     else Uninterrupted(acts[1..]))
  }

  ghost predicate Calm(s: State) {
    forall t :: 0 <= t < |s.pcs| ==> !s.pcs[t].Swapping? && !s.pcs[t].Meddling?
  }

  lemma {:induction false} UninterruptedIsProper(s: State, acts: seq<Action>)
    requires Calm(s) && Legal(s, acts) && HoldersUnlock(s, acts) && Uninterrupted(acts)
    ensures AllProper(s, acts)
    decreases |acts|
  {
    if acts != [] {
      var s1 := Next(s, acts[0]);
      if acts[0].LockLoad? {
        var s2 := Next(s1, acts[1]);
        assert acts[1..][0] == acts[1] && acts[1..][1..] == acts[2..];
        UninterruptedIsProper(s2, acts[2..]);
        assert AllProper(s1, acts[1..]);
      } else {
        UninterruptedIsProper(s1, acts[1..]);
      }
    }
  }

  /** With atomic exchanges and holders unlocking, the lock would be right on every run. */
  lemma {:induction false} AtomicSwapsWouldDo(s: State, acts: seq<Action>)
    requires Initial(s) && Legal(s, acts) && HoldersUnlock(s, acts) && Uninterrupted(acts)
    ensures AlwaysGuarded(s, acts)
  {
    InitialGuarded(s);
    UninterruptedIsProper(s, acts);
    GuardedIffProper(s, acts);
  }

  // ------------------------------------------------------------------ what happens otherwise

  /** Whenever two threads have both loaded 0, their stores let both in. */
  lemma {:induction false} OvertakenSwapAdmitsTwo(s: State, t: Tid, u: Tid)
    requires t < |s.pcs| && u < |s.pcs| && t != u && s.pcs[t] == s.pcs[u] == Swapping(0)
    ensures Enabled(s, LockStore(t)) && Enabled(Next(s, LockStore(t)), LockStore(u))
    ensures !Exclusive(Next(Next(s, LockStore(t)), LockStore(u)))
  {
    var e := Next(Next(s, LockStore(t)), LockStore(u));
    assert Inside(e.pcs[t]) && Inside(e.pcs[u]);
  }

  /** The word is 1, nobody is inside, and everybody who is trying has seen the 1. */
  ghost predicate Dead(s: State) {
    s.word == 1 && forall t :: 0 <= t < |s.pcs| ==> DeadAt(s.pcs[t])
  }

  predicate DeadAt(pc: Pc) { !Inside(pc) && !pc.Meddling? && (pc.Swapping? ==> pc.v != 0) }

  /** Such a lock is lost: as long as only holders unlock, nobody ever gets it again. */
  lemma {:induction false} DeadStays(s: State, acts: seq<Action>)
    requires Dead(s) && Legal(s, acts) && HoldersUnlock(s, acts)
    ensures Dead(Exec(s, acts)) && Exec(s, acts).locks == s.locks
    decreases |acts|
  {
    if acts != [] {
      assert DeadAt(s.pcs[acts[0].t]);
      DeadStays(Next(s, acts[0]), acts[1..]);
    }
  }

  lemma {:induction false} Before(s: State, a: Action, s': State, rest: seq<Action>) returns (acts: seq<Action>)
    requires Enabled(s, a) && Next(s, a) == s' && Legal(s', rest) && HoldersUnlock(s', rest)
    requires a.UnlockLoad? ==> s.pcs[a.t].Held?
    ensures acts == [a] + rest && Legal(s, acts) && Exec(s, acts) == Exec(s', rest) && HoldersUnlock(s, acts)
  {
    acts := [a] + rest;
    assert acts[1..] == rest;
  }

  /** Two well-behaved threads can be inside together and lose an update. */
  lemma {:induction false} TwoGetIn() returns (s: State, acts: seq<Action>)
    ensures Initial(s) && |s.pcs| == 2 && Legal(s, acts) && HoldersUnlock(s, acts)
    ensures !Exclusive(Exec(s, acts)) && Exec(s, acts).data < Exec(s, acts).updates
  {
    s := State(0, 0, [Outside, Outside], 0, 0, 0);
    var s1 := s.(pcs := [Spinning, Outside]);
    var s2 := s1.(pcs := [Spinning, Spinning]);
    var s3 := s2.(pcs := [Swapping(0), Spinning]);
    var s4 := s3.(pcs := [Swapping(0), Swapping(0)]);
    var s5 := s4.(word := 1, pcs := [Held, Swapping(0)], locks := 1);
    var s6 := s5.(pcs := [Held, Held], locks := 2);
    var s7 := s6.(pcs := [Loaded(0), Held]);
    var s8 := s7.(pcs := [Loaded(0), Loaded(0)]);
    var s9 := s8.(data := 1, pcs := [Held, Loaded(0)], updates := 1);
    var e := s9.(pcs := [Held, Held], updates := 2);
    acts := Before(s9, Write(1), e, []);
    acts := Before(s8, Write(0), s9, acts);
    acts := Before(s7, Read(1), s8, acts);
    acts := Before(s6, Read(0), s7, acts);
    acts := Before(s5, LockStore(1), s6, acts);
    acts := Before(s4, LockStore(0), s5, acts);
    acts := Before(s3, LockLoad(1), s4, acts);
    acts := Before(s2, LockLoad(0), s3, acts);
    acts := Before(s1, Call(1), s2, acts);
    acts := Before(s, Call(0), s1, acts);
    assert Inside(e.pcs[0]) && Inside(e.pcs[1]);
  }

  lemma {:induction false} Earlier(s: State, a: Action, s': State, rest: seq<Action>) returns (acts: seq<Action>)
    requires Enabled(s, a) && Next(s, a) == s' && Legal(s', rest) && Intact(s, a) && AllIntact(s', rest)
    ensures acts == [a] + rest && Legal(s, acts) && Exec(s, acts) == Exec(s', rest) && AllIntact(s, acts)
  {
    acts := [a] + rest;
    assert acts[1..] == rest;
  }

  /** An unlock by a thread that is not inside, accepted with PS4_OK, lets a second one in even with intact swaps. */
  lemma {:induction false} OutsiderLetsSecondIn() returns (s: State, acts: seq<Action>)
    ensures Initial(s) && |s.pcs| == 3 && Legal(s, acts) && AllIntact(s, acts)
    ensures !Exclusive(Exec(s, acts)) && Exec(s, acts).unlocks == 1
  {
    s := State(0, 0, [Outside, Outside, Outside], 0, 0, 0);
    var s1 := s.(pcs := [Spinning, Outside, Outside]);
    var s2 := s1.(pcs := [Swapping(0), Outside, Outside]);
    var s3 := s2.(word := 1, pcs := [Held, Outside, Outside], locks := 1);
    var s4 := s3.(pcs := [Held, Outside, Meddling(1)]);
    var s5 := s4.(word := 0, pcs := [Held, Outside, Outside], unlocks := 1);
    var s6 := s5.(pcs := [Held, Spinning, Outside]);
    var s7 := s6.(pcs := [Held, Swapping(0), Outside]);
    var e := s7.(word := 1, pcs := [Held, Held, Outside], locks := 2);
    acts := Earlier(s7, LockStore(1), e, []);
    acts := Earlier(s6, LockLoad(1), s7, acts);
    acts := Earlier(s5, Call(1), s6, acts);
    acts := Earlier(s4, UnlockStore(2), s5, acts);
    acts := Earlier(s3, UnlockLoad(2), s4, acts);
    acts := Earlier(s2, LockStore(0), s3, acts);
    acts := Earlier(s1, LockLoad(0), s2, acts);
    acts := Earlier(s, Call(0), s1, acts);
    assert Inside(e.pcs[0]) && Inside(e.pcs[1]);
  }

  /** And two well-behaved threads can lose the lock for good. */
  lemma {:induction false} LockIsLost() returns (s: State, acts: seq<Action>)
    ensures Initial(s) && |s.pcs| == 2 && Legal(s, acts) && HoldersUnlock(s, acts)
    ensures Dead(Exec(s, acts)) && |Exec(s, acts).pcs| == 2 && Exec(s, acts).pcs[1].Spinning?
  {
    s := State(0, 0, [Outside, Outside], 0, 0, 0);
    var s1 := s.(pcs := [Spinning, Outside]);
    var s2 := s1.(pcs := [Swapping(0), Outside]);
    var s3 := s2.(word := 1, pcs := [Held, Outside], locks := 1);
    var s4 := s3.(pcs := [Held, Spinning]);
    var s5 := s4.(pcs := [Held, Swapping(1)]);
    var s6 := s5.(pcs := [Releasing(1), Swapping(1)]);
    var s7 := s6.(word := 0, pcs := [Outside, Swapping(1)], unlocks := 1);
    var e := s7.(word := 1, pcs := [Outside, Spinning]);
    acts := Before(s7, LockStore(1), e, []);
    acts := Before(s6, UnlockStore(0), s7, acts);
    acts := Before(s5, UnlockLoad(0), s6, acts);
    acts := Before(s4, LockLoad(1), s5, acts);
    acts := Before(s3, Call(1), s4, acts);
    acts := Before(s2, LockStore(0), s3, acts);
    acts := Before(s1, LockLoad(0), s2, acts);
    acts := Before(s, Call(0), s1, acts);
  }

  /** In a guarded state nobody spins in vain: the word is free, or its holder can move. */
  lemma {:induction false} SomebodyMoves(s: State, t: Tid) returns (a: Action)
    requires Guarded(s) && t < |s.pcs| && s.pcs[t].Spinning?
    ensures Enabled(s, a) && Proper(s, a) && Next(s, a) != s
    ensures s.word == 0 ==> a == LockLoad(t) && Next(s, a).pcs[t] == Swapping(0)
    ensures s.word == 1 ==> Inside(s.pcs[a.t])
  {
    if s.word == 0 {
      a := LockLoad(t);
    } else {
      var w :| 0 <= w < |s.pcs| && Inside(s.pcs[w]);
      a := if s.pcs[w].Held? then UnlockLoad(w) else if s.pcs[w].Loaded? then Write(w) else UnlockStore(w);
    }
  }

  /** A holder's unlock finds the 1 it stored, so it returns PS4_OK. */
  lemma {:induction false} HoldersSucceed(s: State, t: Tid)
    requires Guarded(s) && t < |s.pcs|
    ensures s.pcs[t].Releasing? ==> UnlockCode(s.pcs[t].v) == PS4_OK
  {
    assert Reading(s, s.pcs[t]);
  }

  // ------------------------------------------------------------------ the functions themselves

  class Word {
    var value: nat
    constructor (v: nat) ensures value == v { value := v; }
  }

  /** ps4AtomicSwap, instruction by instruction: undisturbed, it does exchange the two. */
  method AtomicSwap(memory: Word, local: Word)
    modifies memory, local
    ensures memory.value == old(local.value) && local.value == old(memory.value)
  {
    var register := memory.value;
    register, local.value := local.value, register;
    memory.value := register;
  }

  /** ps4AtomicSpinUnlock, undisturbed. */
  method SpinUnlock(memory: Word?) returns (code: nat)
    modifies if memory == null then {} else {memory}
    ensures memory == null ==> code == PS4_ERROR_ARGUMENT_PRIMARY_MISSING
    ensures memory != null ==> memory.value == 0
    ensures memory != null ==> code == UnlockCode(old(memory.value))
  {
    var v := new Word(0);
    if memory == null {
      return PS4_ERROR_ARGUMENT_PRIMARY_MISSING;
    }
    AtomicSwap(memory, v);
    if v.value != 1 {
      return PS4_NOT_OK;
    }
    return PS4_OK;
  }
}
