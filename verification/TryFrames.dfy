/**
 Structured try/catch/finally, as the exception macros promise it, and the labels and
 jumps the macros expand to. Bodies, handlers and their arguments are arbitrary; frames
 call each other freely, also recursively.
 */
module TryFrames {

  type Vars = map<string, int>

  datatype HandlerKind = Catch | Finally

  /** A handler call: which handler, the code and the argument values it was given. */
  datatype Event = Event(kind: HandlerKind, name: nat, code: int, args: seq<int>)

  datatype World = World(vars: Vars, log: seq<Event>)

  datatype Mem = Mem(locals: Vars, world: World)

  /** Statements reach the locals and the variables; the log of handler calls is not theirs to write. */
  function Effect(m: Mem, m': Mem): Mem { Mem(m'.locals, World(m'.world.vars, m.world.log)) }

  /** What the handlers do to the variables they can reach. */
  type Handlers = (Event, Vars) -> Vars

  datatype Stmt =
    | Do(f: Mem -> Mem)
    | Seq(first: Stmt, second: Stmt)
    | If(c: Mem -> bool, yes: Stmt, no: Stmt)
    | While(c: Mem -> bool, body: Stmt)
    | Call(callee: nat, actuals: Mem -> Vars, store: (int, Mem) -> Mem)
    | ThrowIf(number: Mem -> int, c: Mem -> bool)
    | ReturnIf(number: Mem -> int, c: Mem -> bool)
    | LeaveIf(number: Mem -> int, c: Mem -> bool)

  function Rethrow(error: Mem -> int): Stmt { ThrowIf(error, m => error(m) != 0) }

  /**
   A function whose body follows one of the four try macros. `args` are the macro's
   variadic arguments; they are expressions, evaluated where the handler is called.
   */
  datatype Frame = Frame(name: nat, hasCatch: bool, hasFinally: bool, args: Mem -> seq<int>, body: Stmt)

  type Program = seq<Frame>

  predicate CallsIn(s: Stmt, n: nat) {
    match s
    case Seq(a, b) => CallsIn(a, n) && CallsIn(b, n)
    case If(_, a, b) => CallsIn(a, n) && CallsIn(b, n)
    case While(_, b) => CallsIn(b, n)
    case Call(callee, _, _) => callee < n
    case _ => true
  }

  predicate Closed(p: Program) {
    forall f :: 0 <= f < |p| ==> CallsIn(p[f].body, |p|)
  }

  /** Calling a handler: it sees the code and the argument values of this moment. */
  function Handle(h: Handlers, kind: HandlerKind, name: nat, code: int, args: Mem -> seq<int>, m: Mem): Mem {
    var e := Event(kind, name, code, args(m));
    m.(world := World(h(e, m.world.vars), m.world.log + [e]))
  }

  // ------------------------------------------------------------------ structured meaning

  datatype Exit = Normal | Thrown(code: int) | Returned(code: int) | Left(code: int)

  /** `Undefined` is a frame running off its end: a value-returning C function without return. */
  datatype Outcome = Done(exit: Exit, mem: Mem) | Undefined | OutOfFuel

  datatype Result = Value(code: int, mem: Mem) | NoValue | Running

  function Finalized(h: Handlers, fr: Frame, code: int, m: Mem): Mem {
    if fr.hasFinally then Handle(h, Finally, fr.name, code, fr.args, m) else m
  }

  function Caught(h: Handlers, fr: Frame, code: int, m: Mem): Mem {
    if fr.hasCatch then Handle(h, Catch, fr.name, code, fr.args, m) else m
  }

  /** Throw runs catch, then finally; return runs finally; leave runs neither. */
  function Close(h: Handlers, fr: Frame, o: Outcome): Result {
    match o
    case OutOfFuel => Running
    case Undefined => NoValue
    case Done(Normal, _) => NoValue
    case Done(Thrown(c), m) => Value(c, Finalized(h, fr, c, Caught(h, fr, c, m)))
    case Done(Returned(c), m) => Value(c, Finalized(h, fr, c, m))
    case Done(Left(c), m) => Value(c, m)
  }

  /** Fuel bounds loop iterations and call depth; `OutOfFuel` means "not finished yet". */
  function Exec(p: Program, h: Handlers, s: Stmt, m: Mem, fuel: nat): Outcome
    requires Closed(p) && CallsIn(s, |p|)
    decreases fuel, s
  {
    match s
    case Do(f) => Done(Normal, Effect(m, f(m)))
    case Seq(a, b) =>
      var o := Exec(p, h, a, m, fuel);
      if o.Done? && o.exit.Normal? then Exec(p, h, b, o.mem, fuel) else o
    case If(c, a, b) => if c(m) then Exec(p, h, a, m, fuel) else Exec(p, h, b, m, fuel)
    case While(c, b) =>
      if !c(m) then Done(Normal, m)
      else if fuel == 0 then OutOfFuel
      else
        var o := Exec(p, h, b, m, fuel);
        if o.Done? && o.exit.Normal? then Exec(p, h, s, o.mem, fuel - 1) else o
    case Call(f, actuals, store) =>
      if fuel == 0 then OutOfFuel
      else
        var o := Exec(p, h, p[f].body, Mem(actuals(m), m.world), fuel - 1);
        (match Close(h, p[f], o)
         case Running => OutOfFuel
         case NoValue => Undefined
         case Value(c, m') => Done(Normal, Effect(m', store(c, Mem(m.locals, m'.world)))))
    case ThrowIf(n, c) => Done(if c(m) then Thrown(n(m)) else Normal, m)
    case ReturnIf(n, c) => Done(if c(m) then Returned(n(m)) else Normal, m)
    case LeaveIf(n, c) => Done(if c(m) then Left(n(m)) else Normal, m)
  }

  function RunFrame(p: Program, h: Handlers, f: nat, m: Mem, fuel: nat): Result
    requires Closed(p) && f < |p|
  {
    Close(h, p[f], Exec(p, h, p[f].body, m, fuel))
  }

  // ------------------------------------------------------------------ labels and jumps

  datatype Instr =
    | ClearCode
    | Goto(target: nat)
    | Apply(f: Mem -> Mem)
    | Unless(c: Mem -> bool, target: nat)
    | SetCode(number: Mem -> int)
    | Invoke(kind: HandlerKind, name: nat, args: Mem -> seq<int>)
    | CallFrame(callee: nat, actuals: Mem -> Vars, store: (int, Mem) -> Mem)
    | ReturnCode

  datatype Labels = Labels(catchAt: nat, finallyAt: nat, leaveAt: nat)

  function Size(s: Stmt): nat {
    match s
    case Do(_) => 1
    case Seq(a, b) => Size(a) + Size(b)
    case If(_, a, b) => Size(a) + Size(b) + 2
    case While(_, b) => Size(b) + 2
    case Call(_, _, _) => 1
    case _ => 3
  }

  /** `if (condition) { code = number; goto label; }` */
  ghost function GuardedGoto(number: Mem -> int, c: Mem -> bool, at: nat, target: nat): seq<Instr> {
    [Unless(c, at + 3), SetCode(number), Goto(target)]
  }

  ghost function Compile(s: Stmt, at: nat, l: Labels): (code: seq<Instr>)
    ensures |code| == Size(s)
  {
    match s
    case Do(f) => [Apply(f)]
    case Seq(a, b) => Compile(a, at, l) + Compile(b, at + Size(a), l)
    case If(c, a, b) =>
      [Unless(c, at + Size(a) + 2)] + Compile(a, at + 1, l) + [Goto(at + Size(a) + Size(b) + 2)] +
      Compile(b, at + Size(a) + 2, l)
    case While(c, b) => [Unless(c, at + Size(b) + 2)] + Compile(b, at + 1, l) + [Goto(at)]
    case Call(f, actuals, store) => [CallFrame(f, actuals, store)]
    case ThrowIf(n, c) => GuardedGoto(n, c, at, l.catchAt)
    case ReturnIf(n, c) => GuardedGoto(n, c, at, l.finallyAt)
    case LeaveIf(n, c) => GuardedGoto(n, c, at, l.leaveAt)
  }

  function LabelsOf(fr: Frame): Labels {
    var c, f := if fr.hasCatch then 1 else 0, if fr.hasFinally then 1 else 0;
    Labels(3, 4 + c, 5 + c + f)
  }

  /** The label `ps4ExceptionRun__`, where the body starts. */
  function RunAt(fr: Frame): nat { LabelsOf(fr).leaveAt + 1 }

  /** The expansion of a try macro, before the body. */
  ghost function Prologue(fr: Frame): seq<Instr> {
    var l := LabelsOf(fr);
    [ClearCode, Goto(RunAt(fr)), Goto(l.catchAt)] +
    (if fr.hasCatch then [Invoke(Catch, fr.name, fr.args)] else []) + [Goto(l.finallyAt)] +
    (if fr.hasFinally then [Invoke(Finally, fr.name, fr.args)] else []) + [Goto(l.leaveAt), ReturnCode]
  }

  ghost function Code(fr: Frame): seq<Instr> {
    Prologue(fr) + Compile(fr.body, RunAt(fr), LabelsOf(fr))
  }

  datatype Activation = Activation(fn: nat, pc: nat, code: int, locals: Vars)

  datatype Config =
    | Run(top: Activation, callers: seq<Activation>, world: World)
    | Halt(code: int, world: World)
    | Stuck

  ghost function Jump(c: Config, pc: nat): Config
    requires c.Run?
  {
    c.(top := c.top.(pc := pc))
  }

  ghost function Put(c: Config, m: Mem): Config
    requires c.Run?
  {
    c.(top := c.top.(locals := m.locals), world := m.world)
  }

  ghost function PopFrame(p: Program, c: Config): Config
    requires c.Run?
  {
    if c.callers == [] then Halt(c.top.code, c.world)
    else
      var caller := c.callers[|c.callers| - 1];
      if caller.fn < |p| && caller.pc < |Code(p[caller.fn])| && Code(p[caller.fn])[caller.pc].CallFrame? then
        var m0 := Mem(caller.locals, c.world);
        var m := Effect(m0, Code(p[caller.fn])[caller.pc].store(c.top.code, m0));
        Run(caller.(pc := caller.pc + 1, locals := m.locals), c.callers[..|c.callers| - 1], m.world)
      else Stuck
  }

  ghost function Perform(p: Program, h: Handlers, c: Config, i: Instr): Config
    requires c.Run?
  {
    var m, next := Mem(c.top.locals, c.world), c.top.pc + 1;
    match i
    case ClearCode => Jump(c.(top := c.top.(code := 0)), next)
    case Goto(t) => Jump(c, t)
    case Apply(f) => Jump(Put(c, Effect(m, f(m))), next)
    case Unless(b, t) => Jump(c, if b(m) then next else t)
    case SetCode(n) => Jump(c.(top := c.top.(code := n(m))), next)
    case Invoke(k, name, args) => Jump(Put(c, Handle(h, k, name, c.top.code, args, m)), next)
    case CallFrame(f, actuals, _) => Run(Activation(f, 0, 0, actuals(m)), c.callers + [c.top], c.world)
    case ReturnCode => PopFrame(p, c)
  }

  /** One instruction; running past the end of the code is stuck. */
  ghost function Step(p: Program, h: Handlers, c: Config): Config {
    if !c.Run? then c
    else if c.top.fn < |p| && c.top.pc < |Code(p[c.top.fn])| then
      Perform(p, h, c, Code(p[c.top.fn])[c.top.pc])
    else Stuck
  }

  ghost function Steps(p: Program, h: Handlers, c: Config, n: nat): Config
    decreases n
  {
    if n == 0 then c else Steps(p, h, Step(p, h, c), n - 1)
  }
}
