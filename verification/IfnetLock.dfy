/**
 The interface-list lock: a writer takes the sleepable lock, then the non-sleepable one;
 a reader takes either. Both locks recurse for their exclusive owner. Any number of
 threads, each acquire and release its own step.
 */
module IfnetLock {

  type Tid = nat

  datatype Owner = Free | By(t: Tid)

  /** A shared/exclusive lock: `shared[t]` counts thread `t`'s shared holds. */
  datatype Lock = Lock(owner: Owner, depth: nat, shared: seq<nat>)

  /** A writer between its two acquires, or between its two releases. */
  datatype Pc = Idle | WantsRw | ReleasesSx

  datatype State = State(sx: Lock, rw: Lock, pcs: seq<Pc>)

  predicate NoReaders(l: Lock) { forall u :: 0 <= u < |l.shared| ==> l.shared[u] == 0 }

  predicate CanOwn(l: Lock, t: Tid) { l.owner == By(t) || (l.owner == Free && NoReaders(l)) }

  function Own(l: Lock, t: Tid): Lock { l.(owner := By(t), depth := l.depth + 1) }

  function Disown(l: Lock): Lock
    requires l.depth > 0
  {
    l.(owner := if l.depth == 1 then Free else l.owner, depth := l.depth - 1)
  }

  function Share(l: Lock, t: Tid): Lock
    requires t < |l.shared|
  {
    l.(shared := l.shared[t := l.shared[t] + 1])
  }

  function Unshare(l: Lock, t: Tid): Lock
    requires t < |l.shared| && l.shared[t] > 0
  {
    l.(shared := l.shared[t := l.shared[t] - 1])
  }

  datatype Action =
    | WLockSx(t: Tid) | WLockRw(t: Tid) | WUnlockRw(t: Tid) | WUnlockSx(t: Tid)
    | RLock(t: Tid) | RUnlock(t: Tid) | RLockNoSleep(t: Tid) | RUnlockNoSleep(t: Tid)

  predicate Shaped(s: State) { |s.sx.shared| == |s.rw.shared| == |s.pcs| }

  /** Thread `t` has finished IFNET_WLOCK and not yet begun the matching IFNET_WUNLOCK. */
  predicate Writing(s: State, t: Tid) {
    t < |s.pcs| && s.pcs[t].Idle? && s.sx.owner == By(t)
  }

  /** A lock step is enabled when it does not block; only held locks are released. */
  predicate Enabled(s: State, a: Action) {
    Shaped(s) && a.t < |s.pcs| &&
    var t, pc := a.t, s.pcs[a.t];
    match a
    case WLockSx(_) => pc.Idle? && CanOwn(s.sx, t)
    case WLockRw(_) => pc.WantsRw? && CanOwn(s.rw, t)
    case WUnlockRw(_) => Writing(s, t) && s.rw.owner == By(t) && s.rw.depth > 0
    case WUnlockSx(_) => pc.ReleasesSx? && s.sx.owner == By(t) && s.sx.depth > 0
    case RLock(_) => pc.Idle? && s.sx.owner == Free
    case RUnlock(_) => pc.Idle? && s.sx.shared[t] > 0
    case RLockNoSleep(_) => pc.Idle? && s.rw.owner == Free
    case RUnlockNoSleep(_) => pc.Idle? && s.rw.shared[t] > 0
  }

  function Next(s: State, a: Action): State
    requires Enabled(s, a)
  {
    var t := a.t;
    match a
    case WLockSx(_) => s.(sx := Own(s.sx, t), pcs := s.pcs[t := WantsRw])
    case WLockRw(_) => s.(rw := Own(s.rw, t), pcs := s.pcs[t := Idle])
    case WUnlockRw(_) => s.(rw := Disown(s.rw), pcs := s.pcs[t := ReleasesSx])
    case WUnlockSx(_) => s.(sx := Disown(s.sx), pcs := s.pcs[t := Idle])
    case RLock(_) => s.(sx := Share(s.sx, t))
    case RUnlock(_) => s.(sx := Unshare(s.sx, t))
    case RLockNoSleep(_) => s.(rw := Share(s.rw, t))
    case RUnlockNoSleep(_) => s.(rw := Unshare(s.rw, t))
  }

  predicate Initial(s: State) {
    && Shaped(s) && s.sx.owner == Free && s.rw.owner == Free && s.sx.depth == 0 && s.rw.depth == 0
    && NoReaders(s.sx) && NoReaders(s.rw)
    && forall t :: 0 <= t < |s.pcs| ==> s.pcs[t].Idle?
  }

  // ------------------------------------------------------------------ the discipline

  /** Each lock is free, shared or owned; ownership has a depth. */
  ghost predicate Sound(l: Lock) {
    && (l.owner == Free <==> l.depth == 0)
    && (l.owner != Free ==> NoReaders(l))
  }

  /** The rw lock is only ever owned on top of the sx lock, level by level. */
  ghost predicate Nested(s: State) {
    && Shaped(s) && Sound(s.sx) && Sound(s.rw)
    && (forall t :: 0 <= t < |s.pcs| && !s.pcs[t].Idle? ==> s.sx.owner == By(t))
    && (s.rw.owner != Free ==> s.rw.owner == s.sx.owner)
    && (s.sx.owner.By? ==>
          && s.sx.owner.t < |s.pcs|
          && s.sx.depth == s.rw.depth + (if s.pcs[s.sx.owner.t].Idle? then 0 else 1))
  }

  lemma {:induction false} WriterStepNested(s: State, a: Action)
    requires Nested(s) && Enabled(s, a) && (a.WLockSx? || a.WLockRw? || a.WUnlockRw? || a.WUnlockSx?)
    ensures Nested(Next(s, a))
  {
  }

  lemma {:induction false} ReaderStepNested(s: State, a: Action)
    requires Nested(s) && Enabled(s, a) && !(a.WLockSx? || a.WLockRw? || a.WUnlockRw? || a.WUnlockSx?)
    ensures Nested(Next(s, a))
  {
    var s' := Next(s, a);
    assert s'.pcs == s.pcs;
    if a.RUnlock? {
      assert s.sx.owner == Free;
    } else if a.RUnlockNoSleep? {
      assert s.rw.owner == Free;
    }
  }

  lemma {:induction false} StepNested(s: State, a: Action)
    requires Nested(s) && Enabled(s, a)
    ensures Nested(Next(s, a)) && |Next(s, a).pcs| == |s.pcs|
  {
    if a.WLockSx? || a.WLockRw? || a.WUnlockRw? || a.WUnlockSx? {
      WriterStepNested(s, a);
    } else {
      ReaderStepNested(s, a);
    }
  }

  ghost predicate Legal(s: State, acts: seq<Action>)
    decreases |acts|
  {
    acts == [] || (Enabled(s, acts[0]) && Legal(Next(s, acts[0]), acts[1..]))
  }

  ghost function Exec(s: State, acts: seq<Action>): State
    requires Legal(s, acts)
    decreases |acts|
  {
    if acts == [] then s else Exec(Next(s, acts[0]), acts[1..])
  }

  lemma {:induction false} RunNested(s: State, acts: seq<Action>)
    requires Nested(s) && Legal(s, acts)
    ensures Nested(Exec(s, acts)) && |Exec(s, acts).pcs| == |s.pcs|
    decreases |acts|
  {
    if acts != [] {
      StepNested(s, acts[0]);
      RunNested(Next(s, acts[0]), acts[1..]);
    }
  }

  // ------------------------------------------------------------------ in terms of the calls made

  /** Acquisitions minus releases: `up` steps of a run minus its `down` steps. */
  function Balance(acts: seq<Action>, up: Action, down: Action): int {
    if acts == [] then 0
    else (if acts[0] == up then 1 else if acts[0] == down then -1 else 0) + Balance(acts[1..], up, down)
  }

  /** The balance of a thread's calls so far, per kind and lock. */
  function ReadsSx(acts: seq<Action>, t: Tid): int { Balance(acts, RLock(t), RUnlock(t)) }
  function ReadsRw(acts: seq<Action>, t: Tid): int { Balance(acts, RLockNoSleep(t), RUnlockNoSleep(t)) }
  function WritesSx(acts: seq<Action>, t: Tid): int { Balance(acts, WLockSx(t), WUnlockSx(t)) }
  function WritesRw(acts: seq<Action>, t: Tid): int { Balance(acts, WLockRw(t), WUnlockRw(t)) }

  function Depth(l: Lock, t: Tid): nat { if l.owner == By(t) then l.depth else 0 }

  lemma {:induction false} StepHolds(s: State, a: Action, t: Tid)
    requires Nested(s) && Enabled(s, a) && t < |s.pcs| && Nested(Next(s, a))
    ensures
      var e := Next(s, a);
      && |e.sx.shared| == |e.rw.shared| == |s.pcs|
      && e.sx.shared[t] == s.sx.shared[t] + (if a == RLock(t) then 1 else if a == RUnlock(t) then -1 else 0)
      && e.rw.shared[t] == s.rw.shared[t] + (if a == RLockNoSleep(t) then 1 else if a == RUnlockNoSleep(t) then -1 else 0)
      && Depth(e.sx, t) == Depth(s.sx, t) + (if a == WLockSx(t) then 1 else if a == WUnlockSx(t) then -1 else 0)
      && Depth(e.rw, t) == Depth(s.rw, t) + (if a == WLockRw(t) then 1 else if a == WUnlockRw(t) then -1 else 0)
  {
  }

  lemma {:induction false} RunHolds(s: State, acts: seq<Action>, t: Tid)
    requires Nested(s) && Legal(s, acts) && t < |s.pcs|
    ensures
      var e := Exec(s, acts);
      && |e.sx.shared| == |e.rw.shared| == |s.pcs|
      && e.sx.shared[t] == s.sx.shared[t] + ReadsSx(acts, t) && e.rw.shared[t] == s.rw.shared[t] + ReadsRw(acts, t)
      && Depth(e.sx, t) == Depth(s.sx, t) + WritesSx(acts, t) && Depth(e.rw, t) == Depth(s.rw, t) + WritesRw(acts, t)
    decreases |acts|
  {
    if acts != [] {
      StepNested(s, acts[0]);
      StepHolds(s, acts[0], t);
      RunHolds(Next(s, acts[0]), acts[1..], t);
    }
  }

  /** From the start on, what a thread holds is what it has acquired and not released. */
  lemma {:induction false} HoldsAreCalls(s: State, acts: seq<Action>, t: Tid)
    requires Initial(s) && Legal(s, acts) && t < |s.pcs|
    ensures
      var e := Exec(s, acts);
      && |e.sx.shared| == |e.rw.shared| == |e.pcs| == |s.pcs|
      && e.sx.shared[t] == ReadsSx(acts, t) && e.rw.shared[t] == ReadsRw(acts, t)
      && Depth(e.sx, t) == WritesSx(acts, t) && Depth(e.rw, t) == WritesRw(acts, t)
  {
    RunHolds(s, acts, t);
    RunNested(s, acts);
  }

  /**
   In every interleaving, once a writer has finished IFNET_WLOCK more often than it has begun
   IFNET_WUNLOCK, every reader of either kind has released what it acquired, and so has
   every other writer.
   */
  lemma {:induction false} WriterExcludesAll(s: State, acts: seq<Action>, t: Tid, u: Tid)
    requires Initial(s) && Legal(s, acts) && t < |s.pcs| && u < |s.pcs| && WritesRw(acts, t) > 0
    ensures ReadsSx(acts, u) == 0 && ReadsRw(acts, u) == 0
    ensures u != t ==> WritesSx(acts, u) == 0 && WritesRw(acts, u) == 0
    ensures WritesSx(acts, t) > 0
  {
    RunNested(s, acts);
    HoldsAreCalls(s, acts, t);
    HoldsAreCalls(s, acts, u);
  }

  /** A sleepable reader gets in exactly when no writer is in or on its way in or out. */
  lemma {:induction false} ReaderEntersIff(s: State, acts: seq<Action>, t: Tid)
    requires Initial(s) && Legal(s, acts) && t < |s.pcs| && t < |Exec(s, acts).pcs| && Exec(s, acts).pcs[t].Idle?
    ensures Enabled(Exec(s, acts), RLock(t)) <==> forall u: nat :: u < |s.pcs| ==> WritesSx(acts, u) == 0
    ensures Enabled(Exec(s, acts), RLockNoSleep(t)) <==> forall u: nat :: u < |s.pcs| ==> WritesRw(acts, u) == 0
  {
    RunNested(s, acts);
    var e := Exec(s, acts);
    forall u: nat | u < |s.pcs|
      ensures Depth(e.sx, u) == WritesSx(acts, u) && Depth(e.rw, u) == WritesRw(acts, u)
    {
      HoldsAreCalls(s, acts, u);
    }
    if e.sx.owner.By? {
      assert Depth(e.sx, e.sx.owner.t) > 0;
    }
    if e.rw.owner.By? {
      assert Depth(e.rw, e.rw.owner.t) > 0;
    }
    HoldsAreCalls(s, acts, t);
  }

  /** A reader can leave exactly as often as it has entered. */
  lemma {:induction false} ReaderLeavesIff(s: State, acts: seq<Action>, t: Tid)
    requires Initial(s) && Legal(s, acts) && t < |s.pcs| && t < |Exec(s, acts).pcs| && Exec(s, acts).pcs[t].Idle?
    ensures Enabled(Exec(s, acts), RUnlock(t)) <==> ReadsSx(acts, t) > 0
    ensures Enabled(Exec(s, acts), RUnlockNoSleep(t)) <==> ReadsRw(acts, t) > 0
  {
    HoldsAreCalls(s, acts, t);
    RunNested(s, acts);
  }

  /** A writer takes the first lock exactly when it has it already, or nobody holds it in any way. */
  lemma {:induction false} WriterEntersIff(s: State, acts: seq<Action>, t: Tid)
    requires Initial(s) && Legal(s, acts) && t < |s.pcs| && t < |Exec(s, acts).pcs| && Exec(s, acts).pcs[t].Idle?
    ensures Enabled(Exec(s, acts), WLockSx(t)) <==>
              || WritesSx(acts, t) > 0
              || forall u: nat :: u < |s.pcs| ==> WritesSx(acts, u) == 0 && ReadsSx(acts, u) == 0
  {
    RunNested(s, acts);
    var e := Exec(s, acts);
    forall u: nat | u < |s.pcs|
      ensures Depth(e.sx, u) == WritesSx(acts, u) && |e.sx.shared| == |s.pcs| && e.sx.shared[u] == ReadsSx(acts, u)
    {
      HoldsAreCalls(s, acts, u);
    }
    if e.sx.owner.By? {
      assert Depth(e.sx, e.sx.owner.t) > 0;
    }
    HoldsAreCalls(s, acts, t);
  }

  // ------------------------------------------------------------------ no deadlock among writers

  /** Writer `t` cannot go on because `u` owns the lock it wants. */
  predicate WaitsFor(s: State, t: Tid, u: Tid) {
    && t < |s.pcs| && t != u
    && ((s.pcs[t].Idle? && s.sx.owner == By(u)) || (s.pcs[t].WantsRw? && s.rw.owner == By(u)))
  }

  /** Waiting chains among writers have length one: an owner never waits for another writer. */
  lemma {:induction false} OwnersDoNotWait(s: State, acts: seq<Action>, t: Tid, u: Tid, v: Tid)
    requires Initial(s) && Legal(s, acts) && WaitsFor(Exec(s, acts), t, u)
    ensures !WaitsFor(Exec(s, acts), u, v)
  {
    RunNested(s, acts);
  }

  /** So with no reader holding a lock some writer can always move: the owner, or anyone at all. */
  lemma {:induction false} WritersProgress(s: State, acts: seq<Action>, t: Tid) returns (a: Action)
    requires Initial(s) && Legal(s, acts) && t < |s.pcs|
    requires NoReaders(Exec(s, acts).sx) && NoReaders(Exec(s, acts).rw)
    ensures Enabled(Exec(s, acts), a) && (a.WLockSx? || a.WLockRw? || a.WUnlockRw? || a.WUnlockSx?)
    ensures Exec(s, acts).sx.owner == Free ==> a == WLockSx(t)
    ensures Exec(s, acts).sx.owner.By? ==> a.t == Exec(s, acts).sx.owner.t
  {
    RunNested(s, acts);
    var e := Exec(s, acts);
    if e.sx.owner == Free {
      a := WLockSx(t);
    } else {
      var u := e.sx.owner.t;
      a := match e.pcs[u] case Idle => WUnlockRw(u) case WantsRw => WLockRw(u) case ReleasesSx => WUnlockSx(u);
    }
  }

  /** A writer holding the first lock is held up by non-sleepable readers only. */
  lemma {:induction false} OnlyReadersBlockTheSecondLock(s: State, acts: seq<Action>, t: Tid)
    requires Initial(s) && Legal(s, acts) && t < |Exec(s, acts).pcs| && Exec(s, acts).pcs[t].WantsRw?
    ensures Enabled(Exec(s, acts), WLockRw(t)) <==> NoReaders(Exec(s, acts).rw)
  {
    RunNested(s, acts);
  }
}
