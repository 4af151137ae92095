/** The labels and jumps mean what the structured form means, in both directions. */
module TryFramesProofs {
  import opened TryFrames

  lemma {:induction false} StepsAdd(p: Program, h: Handlers, c: Config, a: nat, b: nat)
    ensures Steps(p, h, c, a + b) == Steps(p, h, Steps(p, h, c, a), b)
    decreases a
  {
    if a > 0 {
      StepsAdd(p, h, Step(p, h, c), a - 1, b);
    }
  }

  /** A configuration that is final stays as it is. */
  lemma {:induction false} FinalStays(p: Program, h: Handlers, c: Config, n: nat)
    requires !c.Run?
    ensures Steps(p, h, c, n) == c
    decreases n
  {
    if n > 0 {
      FinalStays(p, h, c, n - 1);
    }
  }

  lemma {:induction false} RunningBefore(p: Program, h: Handlers, c: Config, a: nat, b: nat)
    requires a <= b && Steps(p, h, c, b).Run?
    ensures Steps(p, h, c, a).Run?
  {
    StepsAdd(p, h, c, a, b - a);
    if !Steps(p, h, c, a).Run? {
      FinalStays(p, h, Steps(p, h, c, a), b - a);
    }
  }

  /** `code` holds `piece` from index `at` on. */
  ghost predicate Holds(code: seq<Instr>, at: nat, piece: seq<Instr>)
    decreases |piece|
  {
    piece == [] || (at < |code| && code[at] == piece[0] && Holds(code, at + 1, piece[1..]))
  }

  lemma {:induction false} HoldsSplit(code: seq<Instr>, at: nat, a: seq<Instr>, b: seq<Instr>)
    requires Holds(code, at, a + b)
    ensures Holds(code, at, a) && Holds(code, at + |a|, b)
    decreases |a|
  {
    if a == [] {
      assert a + b == b;
    } else {
      assert (a + b)[1..] == a[1..] + b;
      HoldsSplit(code, at + 1, a[1..], b);
    }
  }

  lemma {:induction false} HoldsSuffix(code: seq<Instr>, before: seq<Instr>, piece: seq<Instr>)
    requires code == before + piece
    ensures Holds(code, |before|, piece)
    decreases |piece|
  {
    if piece != [] {
      assert code == (before + [piece[0]]) + piece[1..];
      HoldsSuffix(code, before + [piece[0]], piece[1..]);
    }
  }

  lemma {:induction false} HoldsOne(code: seq<Instr>, at: nat, i: Instr)
    requires Holds(code, at, [i])
    ensures at < |code| && code[at] == i
  {
  }

  /** The code of `s` sits at `at` in frame `fn`. */
  ghost predicate Sits(p: Program, fn: nat, at: nat, s: Stmt) {
    Closed(p) && fn < |p| && CallsIn(s, |p|) && Holds(Code(p[fn]), at, Compile(s, at, LabelsOf(p[fn])))
  }

  ghost predicate HasInstr(p: Program, fn: nat, at: nat, i: Instr)
    requires fn < |p|
  {
    at < |Code(p[fn])| && Code(p[fn])[at] == i
  }

  lemma {:induction false} SeqSits(p: Program, fn: nat, at: nat, s: Stmt)
    requires s.Seq? && Sits(p, fn, at, s)
    ensures Sits(p, fn, at, s.first) && Sits(p, fn, at + Size(s.first), s.second)
  {
    var l := LabelsOf(p[fn]);
    HoldsSplit(Code(p[fn]), at, Compile(s.first, at, l), Compile(s.second, at + Size(s.first), l));
  }

  lemma {:induction false} HoldsBranch(code: seq<Instr>, at: nat, u: Instr, a: seq<Instr>, g: Instr, b: seq<Instr>)
    requires Holds(code, at, [u] + a + [g] + b)
    ensures at + 1 + |a| < |code| && code[at] == u && code[at + 1 + |a|] == g
    ensures Holds(code, at + 1, a) && Holds(code, at + 2 + |a|, b)
  {
    HoldsSplit(code, at, [u] + a + [g], b);
    HoldsSplit(code, at, [u] + a, [g]);
    HoldsSplit(code, at, [u], a);
    HoldsOne(code, at, u);
    HoldsOne(code, at + 1 + |a|, g);
  }

  lemma {:induction false} IfSits(p: Program, fn: nat, at: nat, s: Stmt)
    requires s.If? && Sits(p, fn, at, s)
    ensures Sits(p, fn, at + 1, s.yes) && Sits(p, fn, at + Size(s.yes) + 2, s.no)
    ensures HasInstr(p, fn, at, Unless(s.c, at + Size(s.yes) + 2))
    ensures HasInstr(p, fn, at + 1 + Size(s.yes), Goto(at + Size(s)))
  {
    var code, l := Code(p[fn]), LabelsOf(p[fn]);
    var u, g := [Unless(s.c, at + Size(s.yes) + 2)], [Goto(at + Size(s))];
    var a, b := Compile(s.yes, at + 1, l), Compile(s.no, at + Size(s.yes) + 2, l);
    assert Compile(s, at, l) == u + a + g + b;
    HoldsBranch(code, at, u[0], a, g[0], b);
  }

  lemma {:induction false} WhileSits(p: Program, fn: nat, at: nat, s: Stmt)
    requires s.While? && Sits(p, fn, at, s)
    ensures Sits(p, fn, at + 1, s.body)
    ensures HasInstr(p, fn, at, Unless(s.c, at + Size(s)))
    ensures HasInstr(p, fn, at + 1 + Size(s.body), Goto(at))
  {
    var code, l := Code(p[fn]), LabelsOf(p[fn]);
    var u, g := [Unless(s.c, at + Size(s))], [Goto(at)];
    var a := Compile(s.body, at + 1, l);
    assert Compile(s, at, l) == u + a + g;
    HoldsSplit(code, at, u + a, g);
    HoldsSplit(code, at, u, a);
    HoldsOne(code, at, u[0]);
    HoldsOne(code, at + 1 + Size(s.body), g[0]);
  }

  lemma {:induction false} GuardedGotoSits(p: Program, fn: nat, at: nat, number: Mem -> int, c: Mem -> bool, target: nat)
    requires fn < |p| && Holds(Code(p[fn]), at, GuardedGoto(number, c, at, target))
    ensures HasInstr(p, fn, at, Unless(c, at + 3))
    ensures HasInstr(p, fn, at + 1, SetCode(number)) && HasInstr(p, fn, at + 2, Goto(target))
  {
    var code := Code(p[fn]);
    assert GuardedGoto(number, c, at, target) == [Unless(c, at + 3)] + [SetCode(number)] + [Goto(target)];
    HoldsSplit(code, at, [Unless(c, at + 3)] + [SetCode(number)], [Goto(target)]);
    HoldsSplit(code, at, [Unless(c, at + 3)], [SetCode(number)]);
    HoldsOne(code, at, Unless(c, at + 3));
    HoldsOne(code, at + 1, SetCode(number));
    HoldsOne(code, at + 2, Goto(target));
  }

  /** A frame standing at `at` with memory `m`. */
  ghost function Standing(fn: nat, at: nat, code: int, m: Mem, callers: seq<Activation>): Config {
    Run(Activation(fn, at, code, m.locals), callers, m.world)
  }

  /** Where the machine must be for the statement at `at` to have had outcome `o` after `n` steps. */
  ghost predicate Matches(p: Program, fn: nat, s: Stmt, at: nat, code: int, callers: seq<Activation>, o: Outcome, c: Config)
    requires fn < |p|
  {
    var l := LabelsOf(p[fn]);
    match o
    case Done(Normal, m) => c == Standing(fn, at + Size(s), code, m, callers)
    case Done(Thrown(k), m) => c == Standing(fn, l.catchAt, k, m, callers)
    case Done(Returned(k), m) => c == Standing(fn, l.finallyAt, k, m, callers)
    case Done(Left(k), m) => c == Standing(fn, l.leaveAt, k, m, callers)
    case Undefined => c == Stuck
    case OutOfFuel => c.Run?
  }

  // ------------------------------------------------------------------ running pieces

  lemma {:induction false} Then(p: Program, h: Handlers, c: Config, a: nat, c': Config, b: nat)
    requires Steps(p, h, c, a) == c'
    ensures Steps(p, h, c, a + b) == Steps(p, h, c', b)
  {
    StepsAdd(p, h, c, a, b);
  }

  lemma {:induction false} OneStep(p: Program, h: Handlers, fn: nat, at: nat, code: int, m: Mem, callers: seq<Activation>)
    requires fn < |p| && at < |Code(p[fn])|
    ensures
      var c := Standing(fn, at, code, m, callers);
      Steps(p, h, c, 1) == Perform(p, h, c, Code(p[fn])[at])
  {
    var c := Standing(fn, at, code, m, callers);
    assert Steps(p, h, c, 1) == Steps(p, h, Step(p, h, c), 0);
  }

  lemma {:induction false} GotoStep(p: Program, h: Handlers, fn: nat, at: nat, target: nat, code: int, m: Mem, callers: seq<Activation>)
    requires fn < |p| && HasInstr(p, fn, at, Goto(target))
    ensures Steps(p, h, Standing(fn, at, code, m, callers), 1) == Standing(fn, target, code, m, callers)
  {
    OneStep(p, h, fn, at, code, m, callers);
  }

  lemma {:induction false} UnlessStep(p: Program, h: Handlers, fn: nat, at: nat, c: Mem -> bool, target: nat, code: int, m: Mem, callers: seq<Activation>)
    requires fn < |p| && HasInstr(p, fn, at, Unless(c, target))
    ensures Steps(p, h, Standing(fn, at, code, m, callers), 1) ==
            Standing(fn, if c(m) then at + 1 else target, code, m, callers)
  {
    OneStep(p, h, fn, at, code, m, callers);
  }

  /** Three instructions: fall through, or set the code and jump. */
  lemma {:induction false} GuardedGotoSim(p: Program, h: Handlers, fn: nat, at: nat, number: Mem -> int, c: Mem -> bool, target: nat, code: int, m: Mem, callers: seq<Activation>)
    returns (n: nat)
    requires fn < |p| && Holds(Code(p[fn]), at, GuardedGoto(number, c, at, target))
    ensures Steps(p, h, Standing(fn, at, code, m, callers), n) ==
            if c(m) then Standing(fn, target, number(m), m, callers) else Standing(fn, at + 3, code, m, callers)
  {
    GuardedGotoSits(p, fn, at, number, c, target);
    OneStep(p, h, fn, at, code, m, callers);
    n := 1;
    if c(m) {
      var k := number(m);
      OneStep(p, h, fn, at + 1, code, m, callers);
      OneStep(p, h, fn, at + 2, k, m, callers);
      Then(p, h, Standing(fn, at + 1, code, m, callers), 1, Standing(fn, at + 2, k, m, callers), 1);
      Then(p, h, Standing(fn, at, code, m, callers), 1, Standing(fn, at + 1, code, m, callers), 2);
      n := 3;
    }
  }

  /** From a label to `ps4ExceptionLeave__`, running the handlers on the way. */
  lemma {:induction false} FinallySim(p: Program, h: Handlers, f: nat, code: int, m: Mem, callers: seq<Activation>) returns (n: nat)
    requires f < |p|
    ensures Steps(p, h, Standing(f, LabelsOf(p[f]).finallyAt, code, m, callers), n) ==
            Standing(f, LabelsOf(p[f]).leaveAt, code, Finalized(h, p[f], code, m), callers)
  {
    var l, fr := LabelsOf(p[f]), p[f];
    var m' := Finalized(h, fr, code, m);
    OneStep(p, h, f, l.finallyAt, code, m, callers);
    n := 1;
    if fr.hasFinally {
      assert Code(fr)[l.finallyAt] == Invoke(Finally, fr.name, fr.args);
      assert Code(fr)[l.finallyAt + 1] == Goto(l.leaveAt);
      OneStep(p, h, f, l.finallyAt + 1, code, m', callers);
      Then(p, h, Standing(f, l.finallyAt, code, m, callers), 1, Standing(f, l.finallyAt + 1, code, m', callers), 1);
      n := 2;
    } else {
      assert Code(fr)[l.finallyAt] == Goto(l.leaveAt);
    }
  }

  lemma {:induction false} CatchSim(p: Program, h: Handlers, f: nat, code: int, m: Mem, callers: seq<Activation>) returns (n: nat)
    requires f < |p|
    ensures Steps(p, h, Standing(f, LabelsOf(p[f]).catchAt, code, m, callers), n) ==
            Standing(f, LabelsOf(p[f]).finallyAt, code, Caught(h, p[f], code, m), callers)
  {
    var l, fr := LabelsOf(p[f]), p[f];
    var m' := Caught(h, fr, code, m);
    OneStep(p, h, f, l.catchAt, code, m, callers);
    n := 1;
    if fr.hasCatch {
      assert Code(fr)[l.catchAt] == Invoke(Catch, fr.name, fr.args);
      assert Code(fr)[l.catchAt + 1] == Goto(l.finallyAt);
      OneStep(p, h, f, l.catchAt + 1, code, m', callers);
      Then(p, h, Standing(f, l.catchAt, code, m, callers), 1, Standing(f, l.catchAt + 1, code, m', callers), 1);
      n := 2;
    } else {
      assert Code(fr)[l.catchAt] == Goto(l.finallyAt);
    }
  }

  /** However the body ended, the frame gets to its `return` with the code last set, or is stuck. */
  lemma {:induction false} CloseSim(p: Program, h: Handlers, f: nat, o: Outcome, c: Config, callers: seq<Activation>) returns (n: nat)
    requires Closed(p) && f < |p| && !o.OutOfFuel?
    requires Matches(p, f, p[f].body, RunAt(p[f]), 0, callers, o, c)
    ensures
      match Close(h, p[f], o)
      case Value(k, m) => Steps(p, h, c, n) == Standing(f, LabelsOf(p[f]).leaveAt, k, m, callers)
      case NoValue => Steps(p, h, c, n) == Stuck
      case Running => false
  {
    match o
    case Undefined => n := 0;
    case Done(Normal, m) =>
      n := 1;
      assert Steps(p, h, c, 1) == Steps(p, h, Step(p, h, c), 0);
    case Done(Thrown(k), m) =>
      var a := CatchSim(p, h, f, k, m, callers);
      var b := FinallySim(p, h, f, k, Caught(h, p[f], k, m), callers);
      Then(p, h, c, a, Standing(f, LabelsOf(p[f]).finallyAt, k, Caught(h, p[f], k, m), callers), b);
      n := a + b;
    case Done(Returned(k), m) => n := FinallySim(p, h, f, k, m, callers);
    case Done(Left(k), m) => n := 0;
  }

  // ------------------------------------------------------------------ the simulation

  lemma {:induction false} BodySits(p: Program, f: nat)
    requires Closed(p) && f < |p|
    ensures Sits(p, f, RunAt(p[f]), p[f].body)
    ensures HasInstr(p, f, 0, ClearCode) && HasInstr(p, f, 1, Goto(RunAt(p[f])))
  {
    assert |Prologue(p[f])| == RunAt(p[f]);
    HoldsSuffix(Code(p[f]), Prologue(p[f]), Compile(p[f].body, RunAt(p[f]), LabelsOf(p[f])));
  }

  /** Entering a frame: the code is cleared and the body runs. */
  lemma {:induction false} EnterSim(p: Program, h: Handlers, f: nat, code: int, m: Mem, callers: seq<Activation>)
    requires Closed(p) && f < |p|
    ensures Steps(p, h, Standing(f, 0, code, m, callers), 2) == Standing(f, RunAt(p[f]), 0, m, callers)
  {
    BodySits(p, f);
    OneStep(p, h, f, 0, code, m, callers);
    OneStep(p, h, f, 1, 0, m, callers);
    Then(p, h, Standing(f, 0, code, m, callers), 1, Standing(f, 1, 0, m, callers), 1);
  }

  ghost predicate FrameMatches(p: Program, f: nat, callers: seq<Activation>, r: Result, c: Config)
    requires f < |p|
  {
    match r
    case Value(k, m) => c == Standing(f, LabelsOf(p[f]).leaveAt, k, m, callers)
    case NoValue => c == Stuck
    case Running => c.Run?
  }

  lemma {:induction false} FrameSim(p: Program, h: Handlers, f: nat, code: int, m: Mem, callers: seq<Activation>, fuel: nat)
    returns (n: nat)
    requires Closed(p) && f < |p|
    ensures FrameMatches(p, f, callers, RunFrame(p, h, f, m, fuel),
                         Steps(p, h, Standing(f, 0, code, m, callers), n))
    ensures RunFrame(p, h, f, m, fuel).Running? ==> n >= fuel
    decreases fuel, 1, p[f].body
  {
    var c := Standing(f, 0, code, m, callers);
    EnterSim(p, h, f, code, m, callers);
    BodySits(p, f);
    var a := StmtSim(p, h, f, RunAt(p[f]), p[f].body, 0, m, callers, fuel);
    Then(p, h, c, 2, Standing(f, RunAt(p[f]), 0, m, callers), a);
    var o := Exec(p, h, p[f].body, m, fuel);
    n := 2 + a;
    if !o.OutOfFuel? {
      var b := CloseSim(p, h, f, o, Steps(p, h, c, 2 + a), callers);
      StepsAdd(p, h, c, 2 + a, b);
      n := 2 + a + b;
    }
  }

  lemma {:induction false} StmtSim(p: Program, h: Handlers, fn: nat, at: nat, s: Stmt, code: int, m: Mem, callers: seq<Activation>, fuel: nat)
    returns (n: nat)
    requires Sits(p, fn, at, s)
    ensures Matches(p, fn, s, at, code, callers, Exec(p, h, s, m, fuel),
                    Steps(p, h, Standing(fn, at, code, m, callers), n))
    ensures Exec(p, h, s, m, fuel).OutOfFuel? ==> n >= fuel
    decreases fuel, 0, s
  {
    match s
    case Do(f) =>
      HoldsOne(Code(p[fn]), at, Apply(f));
      OneStep(p, h, fn, at, code, m, callers);
      n := 1;
    case Seq(_, _) => n := SeqSim(p, h, fn, at, s, code, m, callers, fuel);
    case If(_, _, _) => n := IfSim(p, h, fn, at, s, code, m, callers, fuel);
    case While(_, _) => n := WhileSim(p, h, fn, at, s, code, m, callers, fuel);
    case Call(_, _, _) => n := CallSim(p, h, fn, at, s, code, m, callers, fuel);
    case ThrowIf(k, c) => n := GuardedGotoSim(p, h, fn, at, k, c, LabelsOf(p[fn]).catchAt, code, m, callers);
    case ReturnIf(k, c) => n := GuardedGotoSim(p, h, fn, at, k, c, LabelsOf(p[fn]).finallyAt, code, m, callers);
    case LeaveIf(k, c) => n := GuardedGotoSim(p, h, fn, at, k, c, LabelsOf(p[fn]).leaveAt, code, m, callers);
  }

  predicate FallsThrough(o: Outcome) { o.Done? && o.exit.Normal? }

  /** Having got to the inner statement, and from its end on to the outer's end, the outcome carries over. */
  lemma {:induction false} Inner(p: Program, h: Handlers, fn: nat, s: Stmt, at: nat, s': Stmt, at': nat, code: int, callers: seq<Activation>,
              o: Outcome, c: Config, a: nat, c': Config, n: nat)
    requires fn < |p| && Steps(p, h, c, a) == c' && Matches(p, fn, s', at', code, callers, o, Steps(p, h, c', n))
    ensures !FallsThrough(o) ==> Matches(p, fn, s, at, code, callers, o, Steps(p, h, c, a + n))
    ensures FallsThrough(o) ==> Steps(p, h, c, a + n) == Standing(fn, at' + Size(s'), code, o.mem, callers)
  {
    Then(p, h, c, a, c', n);
  }

  lemma {:induction false} FirstSim(p: Program, fn: nat, at: nat, s: Stmt, code: int, callers: seq<Activation>, o: Outcome, c: Config)
    requires s.Seq? && fn < |p| && Matches(p, fn, s.first, at, code, callers, o, c)
    ensures !FallsThrough(o) ==> Matches(p, fn, s, at, code, callers, o, c)
    ensures FallsThrough(o) ==> c == Standing(fn, at + Size(s.first), code, o.mem, callers)
  {
  }

  /** The second statement's outcome is the sequence's, also when it falls through. */
  lemma {:induction false} SecondSim(p: Program, h: Handlers, fn: nat, at: nat, s: Stmt, code: int, callers: seq<Activation>,
              o: Outcome, c: Config, a: nat, m: Mem, b: nat)
    requires s.Seq? && fn < |p| && Steps(p, h, c, a) == Standing(fn, at + Size(s.first), code, m, callers)
    requires Matches(p, fn, s.second, at + Size(s.first), code, callers, o,
                     Steps(p, h, Standing(fn, at + Size(s.first), code, m, callers), b))
    ensures Matches(p, fn, s, at, code, callers, o, Steps(p, h, c, a + b))
  {
    Then(p, h, c, a, Standing(fn, at + Size(s.first), code, m, callers), b);
  }

  lemma {:induction false} SeqSim(p: Program, h: Handlers, fn: nat, at: nat, s: Stmt, code: int, m: Mem, callers: seq<Activation>, fuel: nat)
    returns (n: nat)
    requires s.Seq? && Sits(p, fn, at, s)
    ensures Matches(p, fn, s, at, code, callers, Exec(p, h, s, m, fuel),
                    Steps(p, h, Standing(fn, at, code, m, callers), n))
    ensures Exec(p, h, s, m, fuel).OutOfFuel? ==> n >= fuel
    decreases fuel, 0, s, 0
  {
    var c := Standing(fn, at, code, m, callers);
    SeqSits(p, fn, at, s);
    var a := StmtSim(p, h, fn, at, s.first, code, m, callers, fuel);
    var o := Exec(p, h, s.first, m, fuel);
    FirstSim(p, fn, at, s, code, callers, o, Steps(p, h, c, a));
    if FallsThrough(o) {
      var at' := at + Size(s.first);
      var b := StmtSim(p, h, fn, at', s.second, code, o.mem, callers, fuel);
      SecondSim(p, h, fn, at, s, code, callers, Exec(p, h, s.second, o.mem, fuel), c, a, o.mem, b);
      assert Exec(p, h, s, m, fuel) == Exec(p, h, s.second, o.mem, fuel);
      n := a + b;
    } else {
      assert Exec(p, h, s, m, fuel) == o;
      n := a;
    }
  }

  /** The chosen branch, entered in one step, followed by the jump over the other one. */
  lemma {:induction false} YesSim(p: Program, h: Handlers, fn: nat, at: nat, s: Stmt, code: int, m: Mem, callers: seq<Activation>, o: Outcome, a: nat)
    returns (n: nat)
    requires s.If? && fn < |p| && s.c(m)
    requires HasInstr(p, fn, at, Unless(s.c, at + Size(s.yes) + 2))
    requires HasInstr(p, fn, at + 1 + Size(s.yes), Goto(at + Size(s)))
    requires Matches(p, fn, s.yes, at + 1, code, callers, o, Steps(p, h, Standing(fn, at + 1, code, m, callers), a))
    ensures Matches(p, fn, s, at, code, callers, o, Steps(p, h, Standing(fn, at, code, m, callers), n)) && n >= a
  {
    var c := Standing(fn, at, code, m, callers);
    UnlessStep(p, h, fn, at, s.c, at + Size(s.yes) + 2, code, m, callers);
    Inner(p, h, fn, s, at, s.yes, at + 1, code, callers, o, c, 1, Standing(fn, at + 1, code, m, callers), a);
    n := 1 + a;
    if FallsThrough(o) {
      GotoStep(p, h, fn, at + 1 + Size(s.yes), at + Size(s), code, o.mem, callers);
      Then(p, h, c, n, Standing(fn, at + 1 + Size(s.yes), code, o.mem, callers), 1);
      n := n + 1;
    }
  }

  lemma {:induction false} NoSim(p: Program, h: Handlers, fn: nat, at: nat, s: Stmt, code: int, m: Mem, callers: seq<Activation>, o: Outcome, a: nat)
    requires s.If? && fn < |p| && !s.c(m)
    requires HasInstr(p, fn, at, Unless(s.c, at + Size(s.yes) + 2))
    requires Matches(p, fn, s.no, at + Size(s.yes) + 2, code, callers, o,
                     Steps(p, h, Standing(fn, at + Size(s.yes) + 2, code, m, callers), a))
    ensures Matches(p, fn, s, at, code, callers, o, Steps(p, h, Standing(fn, at, code, m, callers), 1 + a))
  {
    var at' := at + Size(s.yes) + 2;
    UnlessStep(p, h, fn, at, s.c, at', code, m, callers);
    Inner(p, h, fn, s, at, s.no, at', code, callers, o, Standing(fn, at, code, m, callers), 1,
          Standing(fn, at', code, m, callers), a);
  }

  lemma {:induction false} IfSim(p: Program, h: Handlers, fn: nat, at: nat, s: Stmt, code: int, m: Mem, callers: seq<Activation>, fuel: nat)
    returns (n: nat)
    requires s.If? && Sits(p, fn, at, s)
    ensures Matches(p, fn, s, at, code, callers, Exec(p, h, s, m, fuel),
                    Steps(p, h, Standing(fn, at, code, m, callers), n))
    ensures Exec(p, h, s, m, fuel).OutOfFuel? ==> n >= fuel
    decreases fuel, 0, s, 0
  {
    IfSits(p, fn, at, s);
    if s.c(m) {
      var a := StmtSim(p, h, fn, at + 1, s.yes, code, m, callers, fuel);
      n := YesSim(p, h, fn, at, s, code, m, callers, Exec(p, h, s.yes, m, fuel), a);
    } else {
      var a := StmtSim(p, h, fn, at + Size(s.yes) + 2, s.no, code, m, callers, fuel);
      NoSim(p, h, fn, at, s, code, m, callers, Exec(p, h, s.no, m, fuel), a);
      n := 1 + a;
    }
  }

  /** One turn of a loop: through the body and back to the test, or out of it. */
  lemma {:induction false} TurnSim(p: Program, h: Handlers, fn: nat, at: nat, s: Stmt, code: int, m: Mem, callers: seq<Activation>, o: Outcome, a: nat)
    returns (n: nat)
    requires s.While? && fn < |p| && s.c(m)
    requires HasInstr(p, fn, at, Unless(s.c, at + Size(s))) && HasInstr(p, fn, at + 1 + Size(s.body), Goto(at))
    requires Matches(p, fn, s.body, at + 1, code, callers, o, Steps(p, h, Standing(fn, at + 1, code, m, callers), a))
    ensures n >= a + 1
    ensures !FallsThrough(o) ==>
              Matches(p, fn, s, at, code, callers, o, Steps(p, h, Standing(fn, at, code, m, callers), n))
    ensures FallsThrough(o) ==>
              Steps(p, h, Standing(fn, at, code, m, callers), n) == Standing(fn, at, code, o.mem, callers)
  {
    var c := Standing(fn, at, code, m, callers);
    UnlessStep(p, h, fn, at, s.c, at + Size(s), code, m, callers);
    Inner(p, h, fn, s, at, s.body, at + 1, code, callers, o, c, 1, Standing(fn, at + 1, code, m, callers), a);
    n := 1 + a;
    if FallsThrough(o) {
      GotoStep(p, h, fn, at + 1 + Size(s.body), at, code, o.mem, callers);
      Then(p, h, c, n, Standing(fn, at + 1 + Size(s.body), code, o.mem, callers), 1);
      n := n + 1;
    }
  }

  lemma {:induction false} WhileSim(p: Program, h: Handlers, fn: nat, at: nat, s: Stmt, code: int, m: Mem, callers: seq<Activation>, fuel: nat)
    returns (n: nat)
    requires s.While? && Sits(p, fn, at, s)
    ensures Matches(p, fn, s, at, code, callers, Exec(p, h, s, m, fuel),
                    Steps(p, h, Standing(fn, at, code, m, callers), n))
    ensures Exec(p, h, s, m, fuel).OutOfFuel? ==> n >= fuel
    decreases fuel, 0, s, 0
  {
    WhileSits(p, fn, at, s);
    if !s.c(m) {
      UnlessStep(p, h, fn, at, s.c, at + Size(s), code, m, callers);
      n := 1;
    } else if fuel == 0 {
      n := 0;
    } else {
      var a := StmtSim(p, h, fn, at + 1, s.body, code, m, callers, fuel);
      var o := Exec(p, h, s.body, m, fuel);
      n := TurnSim(p, h, fn, at, s, code, m, callers, o, a);
      if FallsThrough(o) {
        var b := StmtSim(p, h, fn, at, s, code, o.mem, callers, fuel - 1);
        Then(p, h, Standing(fn, at, code, m, callers), n, Standing(fn, at, code, o.mem, callers), b);
        n := n + b;
      }
    }
  }

  /** The callee's `return` hands its code to the statement that called it. */
  lemma {:induction false} ReturnSim(p: Program, h: Handlers, f: nat, k: int, m: Mem, fn: nat, at: nat, code: int, locals: Vars, callers: seq<Activation>)
    requires f < |p| && fn < |p| && at < |Code(p[fn])| && Code(p[fn])[at].CallFrame?
    ensures
      var m' := Effect(m, Code(p[fn])[at].store(k, Mem(locals, m.world)));
      Steps(p, h, Standing(f, LabelsOf(p[f]).leaveAt, k, m, callers + [Activation(fn, at, code, locals)]), 1) ==
      Standing(fn, at + 1, code, m', callers)
  {
    var l := LabelsOf(p[f]);
    var caller := Activation(fn, at, code, locals);
    assert Code(p[f])[l.leaveAt] == ReturnCode;
    OneStep(p, h, f, l.leaveAt, k, m, callers + [caller]);
    assert (callers + [caller])[..|callers|] == callers;
  }

  lemma {:induction false} CallSim(p: Program, h: Handlers, fn: nat, at: nat, s: Stmt, code: int, m: Mem, callers: seq<Activation>, fuel: nat)
    returns (n: nat)
    requires s.Call? && Sits(p, fn, at, s)
    ensures Matches(p, fn, s, at, code, callers, Exec(p, h, s, m, fuel),
                    Steps(p, h, Standing(fn, at, code, m, callers), n))
    ensures Exec(p, h, s, m, fuel).OutOfFuel? ==> n >= fuel
    decreases fuel, 0, s, 0
  {
    var c := Standing(fn, at, code, m, callers);
    var caller := Activation(fn, at, code, m.locals);
    HoldsOne(Code(p[fn]), at, CallFrame(s.callee, s.actuals, s.store));
    n := 0;
    if fuel > 0 {
      var m0 := Mem(s.actuals(m), m.world);
      OneStep(p, h, fn, at, code, m, callers);
      var a := FrameSim(p, h, s.callee, 0, m0, callers + [caller], fuel - 1);
      Then(p, h, c, 1, Standing(s.callee, 0, 0, m0, callers + [caller]), a);
      n := 1 + a;
      var r := RunFrame(p, h, s.callee, m0, fuel - 1);
      if r.Value? {
        ReturnSim(p, h, s.callee, r.code, r.mem, fn, at, code, m.locals, callers);
        Then(p, h, c, n, Standing(s.callee, LabelsOf(p[s.callee]).leaveAt, r.code, r.mem, callers + [caller]), 1);
        n := n + 1;
      }
    }
  }

  // ------------------------------------------------------------------ the theorems

  /** A frame called from outside, with its code yet undetermined. */
  ghost function Called(f: nat, code: int, m: Mem): Config { Standing(f, 0, code, m, []) }

  lemma {:induction false} HaltSim(p: Program, h: Handlers, f: nat, code: int, m: Mem, fuel: nat) returns (n: nat)
    requires Closed(p) && f < |p|
    ensures
      match RunFrame(p, h, f, m, fuel)
      case Value(k, m') => Steps(p, h, Called(f, code, m), n) == Halt(k, m'.world)
      case NoValue => Steps(p, h, Called(f, code, m), n) == Stuck
      case Running => n >= fuel && Steps(p, h, Called(f, code, m), n).Run?
  {
    n := FrameSim(p, h, f, code, m, [], fuel);
    var r := RunFrame(p, h, f, m, fuel);
    if r.Value? {
      var l := LabelsOf(p[f]);
      assert Code(p[f])[l.leaveAt] == ReturnCode;
      OneStep(p, h, f, l.leaveAt, r.code, r.mem, []);
      Then(p, h, Called(f, code, m), n, Standing(f, l.leaveAt, r.code, r.mem, []), 1);
      n := n + 1;
    }
  }

  lemma {:induction false} FinalIsUnique(p: Program, h: Handlers, c: Config, a: nat, b: nat)
    requires !Steps(p, h, c, a).Run? && !Steps(p, h, c, b).Run?
    ensures Steps(p, h, c, a) == Steps(p, h, c, b)
  {
    if a <= b {
      StepsAdd(p, h, c, a, b - a);
      FinalStays(p, h, Steps(p, h, c, a), b - a);
    } else {
      StepsAdd(p, h, c, b, a - b);
      FinalStays(p, h, Steps(p, h, c, b), a - b);
    }
  }

  /** If the machine has stopped by step `n`, the structured run with fuel `n` has an answer, the same one. */
  lemma {:induction false} StoppedSim(p: Program, h: Handlers, f: nat, code: int, m: Mem, n: nat)
    requires Closed(p) && f < |p| && !Steps(p, h, Called(f, code, m), n).Run?
    ensures
      match RunFrame(p, h, f, m, n)
      case Value(k, m') => Steps(p, h, Called(f, code, m), n) == Halt(k, m'.world)
      case NoValue => Steps(p, h, Called(f, code, m), n) == Stuck
      case Running => false
  {
    var a := HaltSim(p, h, f, code, m, n);
    if RunFrame(p, h, f, m, n).Running? {
      RunningBefore(p, h, Called(f, code, m), n, a);
    } else {
      FinalIsUnique(p, h, Called(f, code, m), n, a);
    }
  }

  /**
   The labels and jumps mean structured try/catch/finally: for every program, handler
   behaviour, frame and memory, the machine returns a code with a final world exactly
   when the structured meaning does, and runs off the end exactly when that has no value.
   */
  lemma {:induction false} GotoMeansStructured(p: Program, h: Handlers, f: nat, code: int, m: Mem, k: int, w: World)
    requires Closed(p) && f < |p|
    ensures (exists n :: Steps(p, h, Called(f, code, m), n) == Halt(k, w)) <==>
            (exists fuel, m' :: RunFrame(p, h, f, m, fuel) == Value(k, m') && m'.world == w)
    ensures (exists n :: Steps(p, h, Called(f, code, m), n) == Stuck) <==>
            (exists fuel :: RunFrame(p, h, f, m, fuel) == NoValue)
  {
    var c := Called(f, code, m);
    if exists n :: Steps(p, h, c, n) == Halt(k, w) {
      var n :| Steps(p, h, c, n) == Halt(k, w);
      StoppedSim(p, h, f, code, m, n);
      var r := RunFrame(p, h, f, m, n);
      assert r == Value(k, r.mem) && r.mem.world == w;
    }
    if exists fuel, m' :: RunFrame(p, h, f, m, fuel) == Value(k, m') && m'.world == w {
      var fuel, m' :| RunFrame(p, h, f, m, fuel) == Value(k, m') && m'.world == w;
      var n := HaltSim(p, h, f, code, m, fuel);
      assert Steps(p, h, c, n) == Halt(k, w);
    }
    if exists n :: Steps(p, h, c, n) == Stuck {
      var n :| Steps(p, h, c, n) == Stuck;
      StoppedSim(p, h, f, code, m, n);
      assert RunFrame(p, h, f, m, n) == NoValue;
    }
    if exists fuel :: RunFrame(p, h, f, m, fuel) == NoValue {
      var fuel :| RunFrame(p, h, f, m, fuel) == NoValue;
      var n := HaltSim(p, h, f, code, m, fuel);
      assert Steps(p, h, c, n) == Stuck;
    }
  }

  // ------------------------------------------------------------------ what handlers see and do

  /** Handlers called one after the other: each gets the variables the one before left, and is logged. */
  function After(h: Handlers, events: seq<Event>, m: Mem): Mem
    decreases |events|
  {
    if events == [] then m
    else
      var e := events[0];
      After(h, events[1..], Mem(m.locals, World(h(e, m.world.vars), m.world.log + [e])))
  }

  /** The handler calls an exit causes, each with the code and the argument values it sees. */
  function HandlerCalls(h: Handlers, fr: Frame, x: Exit, m: Mem): seq<Event> {
    match x
    case Thrown(c) =>
      var caught := if fr.hasCatch then [Event(Catch, fr.name, c, fr.args(m))] else [];
      caught + (if fr.hasFinally then [Event(Finally, fr.name, c, fr.args(After(h, caught, m)))] else [])
    case Returned(c) => if fr.hasFinally then [Event(Finally, fr.name, c, fr.args(m))] else []
    case _ => []
  }

  lemma {:induction false} AfterOne(h: Handlers, e: Event, m: Mem)
    ensures After(h, [e], m) == Mem(m.locals, World(h(e, m.world.vars), m.world.log + [e]))
  {
  }

  lemma {:induction false} AfterTwo(h: Handlers, d: Event, e: Event, m: Mem)
    ensures After(h, [d] + [e], m) == After(h, [e], After(h, [d], m))
  {
    assert ([d] + [e])[1..] == [e];
  }

  lemma {:induction false} AfterLogs(h: Handlers, events: seq<Event>, m: Mem)
    ensures After(h, events, m).world.log == m.world.log + events && After(h, events, m).locals == m.locals
    decreases |events|
  {
    if events != [] {
      var e := events[0];
      AfterLogs(h, events[1..], Mem(m.locals, World(h(e, m.world.vars), m.world.log + [e])));
      assert (m.world.log + [e]) + events[1..] == m.world.log + events;
    }
  }

  /** Closing a frame makes exactly the handler calls of its exit, one after the other. */
  lemma {:induction false} CloseHandles(h: Handlers, fr: Frame, o: Outcome)
    requires o.Done? && !FallsThrough(o)
    ensures
      var calls := HandlerCalls(h, fr, o.exit, o.mem);
      && Close(h, fr, o) == Value(o.exit.code, After(h, calls, o.mem))
      && After(h, calls, o.mem).world.log == o.mem.world.log + calls
  {
    var c, m, calls := o.exit.code, o.mem, HandlerCalls(h, fr, o.exit, o.mem);
    AfterLogs(h, calls, m);
    if o.exit.Thrown? {
      var d := Event(Catch, fr.name, c, fr.args(m));
      AfterOne(h, d, m);
      var m1 := Caught(h, fr, c, m);
      var e := Event(Finally, fr.name, c, fr.args(m1));
      AfterOne(h, e, m1);
      AfterTwo(h, d, e, m);
    } else if o.exit.Returned? {
      AfterOne(h, Event(Finally, fr.name, c, fr.args(m)), m);
    }
  }

  /**
   On the machine a throw calls catch, then finally, once each; a return calls finally
   only; a leave calls neither. Each handler gets the variables the one before it left.
   The frame returns the code last set.
   */
  lemma {:induction false} HandlersRunOnce(p: Program, h: Handlers, f: nat, code: int, m: Mem, fuel: nat) returns (n: nat)
    requires Closed(p) && f < |p|
    requires Exec(p, h, p[f].body, m, fuel).Done? && !FallsThrough(Exec(p, h, p[f].body, m, fuel))
    ensures
      var o := Exec(p, h, p[f].body, m, fuel);
      var e := Steps(p, h, Called(f, code, m), n);
      var calls := HandlerCalls(h, p[f], o.exit, o.mem);
      && e == Halt(o.exit.code, After(h, calls, o.mem).world)
      && e.world.log == o.mem.world.log + calls
  {
    CloseHandles(h, p[f], Exec(p, h, p[f].body, m, fuel));
    n := HaltSim(p, h, f, code, m, fuel);
  }

  /** Running statements only ever adds handler calls to the log. */
  lemma {:induction false} LogGrows(p: Program, h: Handlers, s: Stmt, m: Mem, fuel: nat)
    requires Closed(p) && CallsIn(s, |p|)
    ensures Exec(p, h, s, m, fuel).Done? ==> m.world.log <= Exec(p, h, s, m, fuel).mem.world.log
    decreases fuel, s
  {
    match s
    case Seq(a, b) =>
      LogGrows(p, h, a, m, fuel);
      var o := Exec(p, h, a, m, fuel);
      if FallsThrough(o) {
        LogGrows(p, h, b, o.mem, fuel);
      }
    case If(c, a, b) =>
      if c(m) {
        LogGrows(p, h, a, m, fuel);
      } else {
        LogGrows(p, h, b, m, fuel);
      }
    case While(c, b) =>
      if c(m) && fuel > 0 {
        LogGrows(p, h, b, m, fuel);
        var o := Exec(p, h, b, m, fuel);
        if FallsThrough(o) {
          LogGrows(p, h, s, o.mem, fuel - 1);
        }
      }
    case Call(f, actuals, _) =>
      if fuel > 0 {
        var m0 := Mem(actuals(m), m.world);
        LogGrows(p, h, p[f].body, m0, fuel - 1);
        var o := Exec(p, h, p[f].body, m0, fuel - 1);
        if o.Done? && !FallsThrough(o) {
          CloseHandles(h, p[f], o);
        }
      }
    case _ =>
  }

  // ------------------------------------------------------------------ calling and rethrowing

  /** How the body of the called frame ends. */
  function Callee(p: Program, h: Handlers, call: Stmt, m: Mem, fuel: nat): Outcome
    requires Closed(p) && call.Call? && call.callee < |p|
  {
    Exec(p, h, p[call.callee].body, Mem(call.actuals(m), m.world), fuel)
  }

  /** The caller's memory once the callee has returned `code` and its handlers have run. */
  function AfterCall(p: Program, h: Handlers, call: Stmt, m: Mem, fuel: nat): Mem
    requires Closed(p) && call.Call? && call.callee < |p|
    requires Callee(p, h, call, m, fuel).Done? && !FallsThrough(Callee(p, h, call, m, fuel))
  {
    var o := Callee(p, h, call, m, fuel);
    var w := After(h, HandlerCalls(h, p[call.callee], o.exit, o.mem), o.mem).world;
    var m' := call.store(o.exit.code, Mem(m.locals, w));
    Mem(m'.locals, World(m'.world.vars, w.log))
  }

  lemma {:induction false} CallReturns(p: Program, h: Handlers, call: Stmt, m: Mem, fuel: nat)
    requires Closed(p) && call.Call? && call.callee < |p| && fuel > 0
    requires Callee(p, h, call, m, fuel - 1).Done? && !FallsThrough(Callee(p, h, call, m, fuel - 1))
    ensures Exec(p, h, call, m, fuel) == Done(Normal, AfterCall(p, h, call, m, fuel - 1))
    ensures
      var o := Callee(p, h, call, m, fuel - 1);
      AfterCall(p, h, call, m, fuel - 1).world.log ==
      o.mem.world.log + HandlerCalls(h, p[call.callee], o.exit, o.mem)
  {
    CloseHandles(h, p[call.callee], Callee(p, h, call, m, fuel - 1));
  }

  /**
   A frame that calls another and rethrows its result: a nonzero code ends it as a throw of
   that very code. First the callee's handlers run, for the callee's exit, then the
   caller's catch and finally.
   */
  lemma {:induction false} RethrowPropagates(p: Program, h: Handlers, f: nat, call: Stmt, error: Mem -> int, rest: Stmt, code: int, m: Mem, fuel: nat)
    returns (n: nat)
    requires Closed(p) && f < |p| && fuel > 0
    requires call.Call? && call.callee < |p| && p[f].body == Seq(call, Seq(Rethrow(error), rest))
    requires Callee(p, h, call, m, fuel - 1).Done? && !FallsThrough(Callee(p, h, call, m, fuel - 1))
    requires error(AfterCall(p, h, call, m, fuel - 1)) == Callee(p, h, call, m, fuel - 1).exit.code != 0
    ensures
      var (o, m') := (Callee(p, h, call, m, fuel - 1), AfterCall(p, h, call, m, fuel - 1));
      var e := Steps(p, h, Called(f, code, m), n);
      var calls := HandlerCalls(h, p[f], Thrown(o.exit.code), m');
      && e == Halt(o.exit.code, After(h, calls, m').world)
      && e.world.log == o.mem.world.log + HandlerCalls(h, p[call.callee], o.exit, o.mem) + calls
  {
    assert CallsIn(p[f].body, |p|);
    CallReturns(p, h, call, m, fuel);
    var k, m' := Callee(p, h, call, m, fuel - 1).exit.code, AfterCall(p, h, call, m, fuel - 1);
    assert Exec(p, h, Rethrow(error), m', fuel) == Done(Thrown(k), m');
    assert Exec(p, h, p[f].body.second, m', fuel) == Done(Thrown(k), m');
    n := HandlersRunOnce(p, h, f, code, m, fuel);
  }

  /**
   With code zero it goes on: the frame ends, on the machine too, exactly as the rest of
   its body does from there, and the rethrow itself calls no handler and changes nothing.
   */
  lemma {:induction false} RethrowGoesOn(p: Program, h: Handlers, f: nat, call: Stmt, error: Mem -> int, rest: Stmt, code: int, m: Mem, fuel: nat)
    returns (n: nat)
    requires Closed(p) && f < |p| && fuel > 0
    requires call.Call? && call.callee < |p| && p[f].body == Seq(call, Seq(Rethrow(error), rest)) && CallsIn(rest, |p|)
    requires Callee(p, h, call, m, fuel - 1).Done? && !FallsThrough(Callee(p, h, call, m, fuel - 1))
    requires error(AfterCall(p, h, call, m, fuel - 1)) == Callee(p, h, call, m, fuel - 1).exit.code == 0
    ensures
      var (o, m') := (Callee(p, h, call, m, fuel - 1), AfterCall(p, h, call, m, fuel - 1));
      var (o', e) := (Exec(p, h, rest, m', fuel), Steps(p, h, Called(f, code, m), n));
      && RunFrame(p, h, f, m, fuel) == Close(h, p[f], o')
      && m'.world.log == o.mem.world.log + HandlerCalls(h, p[call.callee], o.exit, o.mem)
      && (o'.OutOfFuel? ==> e.Run? && n >= fuel) && (o'.Undefined? || FallsThrough(o') ==> e == Stuck)
      && (o'.Done? && !FallsThrough(o') ==>
            var calls := HandlerCalls(h, p[f], o'.exit, o'.mem);
            && m'.world.log <= o'.mem.world.log
            && e == Halt(o'.exit.code, After(h, calls, o'.mem).world) && e.world.log == o'.mem.world.log + calls)
  {
    CallReturns(p, h, call, m, fuel);
    var m' := AfterCall(p, h, call, m, fuel - 1);
    var o' := Exec(p, h, rest, m', fuel);
    RethrowFallsThrough(p, h, call, error, rest, m, m', fuel);
    LogGrows(p, h, rest, m', fuel);
    if o'.Done? && !FallsThrough(o') {
      CloseHandles(h, p[f], o');
    }
    n := HaltSim(p, h, f, code, m, fuel);
  }

  lemma {:induction false} RethrowFallsThrough(p: Program, h: Handlers, call: Stmt, error: Mem -> int, rest: Stmt, m: Mem, m': Mem, fuel: nat)
    requires Closed(p) && CallsIn(call, |p|) && CallsIn(rest, |p|)
    requires Exec(p, h, call, m, fuel) == Done(Normal, m') && error(m') == 0
    ensures CallsIn(Seq(call, Seq(Rethrow(error), rest)), |p|)
    ensures Exec(p, h, Seq(call, Seq(Rethrow(error), rest)), m, fuel) == Exec(p, h, rest, m', fuel)
  {
    assert Exec(p, h, Rethrow(error), m', fuel) == Done(Normal, m');
    assert Exec(p, h, Seq(Rethrow(error), rest), m', fuel) == Exec(p, h, rest, m', fuel);
  }

  // ------------------------------------------------------------------ the macros themselves

  function Always(m: Mem): bool { true }
  function Same(m: Mem): Mem { m }

  /** A statement under a condition, and nothing otherwise. */
  function When(c: Mem -> bool, s: Stmt): Stmt { If(c, s, Do(Same)) }

  /** The conditional macros are an `if` around the unconditional ones. */
  lemma {:induction false} ConditionalIsIf(p: Program, h: Handlers, n: Mem -> int, c: Mem -> bool, m: Mem, fuel: nat)
    requires Closed(p)
    ensures CallsIn(When(c, ThrowIf(n, Always)), |p|) && CallsIn(When(c, ReturnIf(n, Always)), |p|)
    ensures CallsIn(When(c, LeaveIf(n, Always)), |p|)
    ensures Exec(p, h, ThrowIf(n, c), m, fuel) == Exec(p, h, When(c, ThrowIf(n, Always)), m, fuel)
    ensures Exec(p, h, ReturnIf(n, c), m, fuel) == Exec(p, h, When(c, ReturnIf(n, Always)), m, fuel)
    ensures Exec(p, h, LeaveIf(n, c), m, fuel) == Exec(p, h, When(c, LeaveIf(n, Always)), m, fuel)
  {
  }

  /** A loop that ends normally ends because its condition is false. */
  lemma {:induction false} LoopEndsFalse(p: Program, h: Handlers, s: Stmt, m: Mem, fuel: nat)
    requires Closed(p) && s.While? && CallsIn(s, |p|) && FallsThrough(Exec(p, h, s, m, fuel))
    ensures !s.c(Exec(p, h, s, m, fuel).mem)
    decreases fuel
  {
    if s.c(m) {
      LoopEndsFalse(p, h, s, Exec(p, h, s.body, m, fuel).mem, fuel - 1);
    }
  }

  /** The catch call and the finally call of a frame, if it has them, on memory `m`. */
  function CatchCall(fr: Frame, code: int, m: Mem): seq<Event> {
    if fr.hasCatch then [Event(Catch, fr.name, code, fr.args(m))] else []
  }

  function FinallyCall(fr: Frame, code: int, m: Mem): seq<Event> {
    if fr.hasFinally then [Event(Finally, fr.name, code, fr.args(m))] else []
  }

  /** What follows a macro whose condition is false is what the rest of the body does. */
  lemma {:induction false} ExitsNotTaken(p: Program, h: Handlers, x: Stmt, rest: Stmt, m: Mem, fuel: nat)
    requires Closed(p) && CallsIn(rest, |p|) && (x.ThrowIf? || x.ReturnIf? || x.LeaveIf?) && !x.c(m)
    ensures Exec(p, h, Seq(x, rest), m, fuel) == Exec(p, h, rest, m, fuel)
  {
    assert Exec(p, h, x, m, fuel) == Done(Normal, m);
  }

  /**
   And when it is true the machine stops with the macro's number: a throw having called
   catch and then finally, a return finally alone, a leave no handler.
   */
  lemma {:induction false} ExitsTaken(p: Program, h: Handlers, f: nat, x: Stmt, rest: Stmt, code: int, m: Mem) returns (n: nat)
    requires Closed(p) && f < |p| && p[f].body == Seq(x, rest)
    requires (x.ThrowIf? || x.ReturnIf? || x.LeaveIf?) && x.c(m)
    ensures
      var k, fr := x.number(m), p[f];
      var caught := CatchCall(fr, k, m);
      var calls :=
        if x.ThrowIf? then caught + FinallyCall(fr, k, After(h, caught, m))
        else if x.ReturnIf? then FinallyCall(fr, k, m) else [];
      Steps(p, h, Called(f, code, m), n) == Halt(k, After(h, calls, m).world)
  {
    assert CallsIn(p[f].body, |p|);
    var k := x.number(m);
    var exit := if x.ThrowIf? then Thrown(k) else if x.ReturnIf? then Returned(k) else Left(k);
    assert Exec(p, h, x, m, 0) == Done(exit, m);
    assert Exec(p, h, p[f].body, m, 0) == Done(exit, m);
    n := HandlersRunOnce(p, h, f, code, m, 0);
  }
}
