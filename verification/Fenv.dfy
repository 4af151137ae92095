/**
 The floating-point environment of two units: the x87 control and status words and the
 SSE control/status register, rewritten step by step by the inline functions.
 */
module Fenv {

  const FE_ALL_EXCEPT: bv32 := 0x3f
  const ROUND_MASK: bv32 := 0xc00

  datatype Regs = Regs(control: bv32, status: bv32, mxcsr: bv32)

  /** fegetround reads the x87 unit alone. */
  function X87Round(r: Regs): bv32 { r.control & ROUND_MASK }
  function SseRound(r: Regs): bv32 { (r.mxcsr >> 3) & ROUND_MASK }
  predicate Agree(r: Regs) { X87Round(r) == SseRound(r) }

  /** fetestexcept */
  function Test(r: Regs, excepts: bv32): bv32 { (r.status | r.mxcsr) & excepts }

  predicate ValidRound(round: bv32) { (round & !ROUND_MASK) == 0 }

  /** The rounding bits of the x87 control word, and of the SSE register three places up. */
  function PutX87(control: bv32, round: bv32): bv32 { (control & !ROUND_MASK) | round }
  function PutSse(mxcsr: bv32, round: bv32): bv32 { (mxcsr & !(ROUND_MASK << 3)) | (round << 3) }
  function Clear(word: bv32, bits: bv32): bv32 { word & !bits }

  function SetRound(r: Regs, round: bv32): (Regs, int) {
    if !ValidRound(round) then (r, -1)
    else (Regs(PutX87(r.control, round), r.status, PutSse(r.mxcsr, round)), 0)
  }

  /** fnclex: the six flags, the stack fault, the summary and the busy bit. */
  function Fnclex(status: bv32): bv32 { status & !0x80ff }

  function ClearExcept(r: Regs, excepts: bv32): Regs {
    Regs(r.control,
         if excepts == FE_ALL_EXCEPT then Fnclex(r.status) else Clear(r.status, excepts),
         Clear(r.mxcsr, excepts))
  }

  /** Arithmetic raises flags in either unit at any time. */
  function Raise(r: Regs, x87: bv32, sse: bv32): Regs {
    r.(status := r.status | (x87 & FE_ALL_EXCEPT), mxcsr := r.mxcsr | (sse & FE_ALL_EXCEPT))
  }

  // ------------------------------------------------------------------ the registers in place

  class Unit {
    var control: bv32
    var status: bv32
    var mxcsr: bv32

    ghost function View(): Regs
      reads this
    {
      Regs(control, status, mxcsr)
    }

    constructor (r: Regs)
      ensures View() == r
    {
      control, status, mxcsr := r.control, r.status, r.mxcsr;
    }

    /** fesetround */
    method FeSetRound(round: bv32) returns (code: int)
      modifies this
      ensures (View(), code) == SetRound(old(View()), round)
    {
      if !ValidRound(round) {
        return -1;
      }
      control := PutX87(control, round);
      mxcsr := PutSse(mxcsr, round);
      return 0;
    }

    /** feclearexcept: storing the x87 environment masks its exceptions until it is loaded back. */
    method FeClearExcept(excepts: bv32) returns (code: int)
      modifies this
      ensures View() == ClearExcept(old(View()), excepts) && code == 0
    {
      if excepts == FE_ALL_EXCEPT {
        status := Fnclex(status);
      } else {
        var savedControl, savedStatus := control, status;
        control := control | FE_ALL_EXCEPT;
        savedStatus := Clear(savedStatus, excepts);
        control, status := savedControl, savedStatus;
      }
      mxcsr := Clear(mxcsr, excepts);
      return 0;
    }
  }

  // ------------------------------------------------------------------ single calls

  lemma {:induction false} PutX87Installs(control: bv32, round: bv32)
    requires ValidRound(round)
    ensures (PutX87(control, round) & ROUND_MASK) == round
    ensures (PutX87(control, round) & !ROUND_MASK) == (control & !ROUND_MASK)
  {
  }

  lemma {:induction false} PutSseInstalls(mxcsr: bv32, round: bv32)
    requires ValidRound(round)
    ensures ((PutSse(mxcsr, round) >> 3) & ROUND_MASK) == round
    ensures (PutSse(mxcsr, round) & FE_ALL_EXCEPT) == (mxcsr & FE_ALL_EXCEPT)
  {
  }

  /** Rejection is of invalid modes only, and changes nothing. */
  lemma {:induction false} SetRoundRejects(r: Regs, round: bv32)
    ensures SetRound(r, round).1 == 0 <==> ValidRound(round)
    ensures !ValidRound(round) ==> SetRound(r, round) == (r, -1)
  {
  }

  /** A valid mode is installed in the x87 unit, whose other control bits and status stay. */
  lemma {:induction false} SetRoundInstallsX87(r: Regs, round: bv32)
    requires ValidRound(round)
    ensures X87Round(SetRound(r, round).0) == round == (SetRound(r, round).0.control & 0x0c00)
    ensures (SetRound(r, round).0.control & !ROUND_MASK) == (r.control & !ROUND_MASK)
    ensures SetRound(r, round).0.status == r.status
  {
    PutX87Installs(r.control, round);
  }

  /** And in the SSE unit, whose flags stay. */
  lemma {:induction false} SetRoundInstallsSse(r: Regs, round: bv32)
    requires ValidRound(round)
    ensures SseRound(SetRound(r, round).0) == round == ((SetRound(r, round).0.mxcsr >> 3) & 0x0c00)
    ensures (SetRound(r, round).0.mxcsr & FE_ALL_EXCEPT) == (r.mxcsr & FE_ALL_EXCEPT)
  {
    PutSseInstalls(r.mxcsr, round);
  }

  lemma {:induction false} SameFlags(status: bv32, x: bv32, y: bv32)
    requires (x & FE_ALL_EXCEPT) == (y & FE_ALL_EXCEPT)
    ensures ((status | x) & FE_ALL_EXCEPT) == ((status | y) & FE_ALL_EXCEPT)
  {
  }

  /** So fetestexcept sees the same flags as before, whatever the mode asked for. */
  lemma {:induction false} SetRoundKeepsFlags(r: Regs, round: bv32)
    ensures Test(SetRound(r, round).0, FE_ALL_EXCEPT) == Test(r, FE_ALL_EXCEPT)
  {
    SetRoundRejects(r, round);
    if ValidRound(round) {
      SetRoundInstallsX87(r, round);
      SetRoundInstallsSse(r, round);
      SameFlags(r.status, SetRound(r, round).0.mxcsr, r.mxcsr);
    }
  }

  lemma {:induction false} PutSseKeepsOthers(mxcsr: bv32, round: bv32)
    requires ValidRound(round)
    ensures (PutSse(mxcsr, round) & !(ROUND_MASK << 3)) == (mxcsr & !(ROUND_MASK << 3))
  {
  }

  /** Nor does any other bit of the SSE register change. */
  lemma {:induction false} SetRoundKeepsSse(r: Regs, round: bv32)
    ensures (SetRound(r, round).0.mxcsr & !(ROUND_MASK << 3)) == (r.mxcsr & !(ROUND_MASK << 3))
  {
    if ValidRound(round) {
      PutSseKeepsOthers(r.mxcsr, round);
    }
  }

  lemma {:induction false} ClearKeepsOthers(word: bv32, bits: bv32)
    ensures (Clear(word, bits) & !bits) == (word & !bits)
  {
  }

  /** The bits of the SSE register outside the mask stay. */
  lemma {:induction false} ClearExceptKeepsSse(r: Regs, excepts: bv32)
    ensures (ClearExcept(r, excepts).mxcsr & !excepts) == (r.mxcsr & !excepts)
  {
    ClearKeepsOthers(r.mxcsr, excepts);
  }

  /** And those of the x87 status word, except for what fnclex clears when the mask is full. */
  lemma {:induction false} ClearExceptKeepsStatus(r: Regs, excepts: bv32)
    requires excepts != FE_ALL_EXCEPT
    ensures (ClearExcept(r, excepts).status & !excepts) == (r.status & !excepts)
  {
    ClearKeepsOthers(r.status, excepts);
  }

  /** The full mask leaves the stack pointer and the condition codes. */
  lemma {:induction false} FnclexKeepsStatus(r: Regs)
    ensures (ClearExcept(r, FE_ALL_EXCEPT).status & !0x80ff) == (r.status & !0x80ff)
    ensures (ClearExcept(r, FE_ALL_EXCEPT).status & 0x80ff) == 0
  {
    ClearKeepsOthers(r.status, 0x80ff);
  }

  /** Exactly the requested flags go, from both units, and nothing else a mask can name. */
  lemma {:induction false} ClearRemovesExactly(r: Regs, excepts: bv32, asked: bv32)
    requires (excepts & !FE_ALL_EXCEPT) == 0 && (asked & !FE_ALL_EXCEPT) == 0
    ensures
      var r' := ClearExcept(r, excepts);
      && (r'.status & asked) == (r.status & asked & !excepts)
      && (r'.mxcsr & asked) == (r.mxcsr & asked & !excepts)
      && Test(r', asked) == (Test(r, asked) & !excepts)
      && r'.control == r.control && SseRound(r') == SseRound(r)
  {
  }

  /**
   With a mask that names other bits, the units stay in agreement exactly when none of the
   SSE rounding bits it names is set.
   */
  lemma {:induction false} ClearKeepsAgreementIff(r: Regs, excepts: bv32)
    requires Agree(r)
    ensures Agree(ClearExcept(r, excepts)) <==> (excepts & r.mxcsr & (ROUND_MASK << 3)) == 0
  {
  }

  const FE_INVALID: bv32 := 0x01
  const FE_DENORMAL: bv32 := 0x02
  const FE_DIVBYZERO: bv32 := 0x04
  const FE_OVERFLOW: bv32 := 0x08
  const FE_UNDERFLOW: bv32 := 0x10
  const FE_INEXACT: bv32 := 0x20

  predicate IsFlag(f: bv32) {
    f == FE_INVALID || f == FE_DENORMAL || f == FE_DIVBYZERO || f == FE_OVERFLOW || f == FE_UNDERFLOW || f == FE_INEXACT
  }

  lemma {:induction false} FlagOfUnion(x: bv32, y: bv32, asked: bv32, flag: bv32)
    requires IsFlag(flag)
    ensures ((x | y) & asked & flag) != 0 <==> (asked & flag) != 0 && ((x & flag) != 0 || (y & flag) != 0)
  {
  }

  /** fetestexcept reports a flag exactly when it is asked for and raised in either unit. */
  lemma {:induction false} TestSeesEitherUnit(r: Regs, asked: bv32, flag: bv32)
    requires IsFlag(flag)
    ensures (Test(r, asked) & flag) != 0 <==>
            (asked & flag) != 0 && ((r.status & flag) != 0 || (r.mxcsr & flag) != 0)
  {
    FlagOfUnion(r.status, r.mxcsr, asked, flag);
  }

  /** The four rounding modes, and no others, are accepted. */
  lemma {:induction false} FourModes(round: bv32)
    ensures SetRound(Regs(0, 0, 0), round).1 == 0 <==>
            round == 0x0000 || round == 0x0400 || round == 0x0800 || round == 0x0c00
    ensures ValidRound(round) <==> round == 0x0000 || round == 0x0400 || round == 0x0800 || round == 0x0c00
  {
  }

  // ------------------------------------------------------------------ every run

  datatype Op = SetRoundOp(round: bv32) | ClearOp(excepts: bv32) | RaiseOp(x87: bv32, sse: bv32)

  function Apply(r: Regs, op: Op): Regs {
    match op
    case SetRoundOp(round) => SetRound(r, round).0
    case ClearOp(x) => ClearExcept(r, x)
    case RaiseOp(a, b) => Raise(r, a, b)
  }

  function Run(r: Regs, ops: seq<Op>): Regs
    decreases |ops|
  {
    if ops == [] then r else Run(Apply(r, ops[0]), ops[1..])
  }

  ghost predicate ValidMasks(ops: seq<Op>) {
    forall i :: 0 <= i < |ops| && ops[i].ClearOp? ==> (ops[i].excepts & !FE_ALL_EXCEPT) == 0
  }

  /** The mode the last accepted fesetround of the run asked for. */
  function LastRound(round: bv32, ops: seq<Op>): bv32
    decreases |ops|
  {
    if ops == [] then round
    else
      LastRound(if ops[0].SetRoundOp? && ValidRound(ops[0].round) then ops[0].round else round, ops[1..])
  }

  lemma {:induction false} ApplyKeepsAgreement(r: Regs, op: Op)
    requires Agree(r) && (op.ClearOp? ==> (op.excepts & !FE_ALL_EXCEPT) == 0)
    ensures Agree(Apply(r, op))
    ensures X87Round(Apply(r, op)) ==
            if op.SetRoundOp? && ValidRound(op.round) then op.round else X87Round(r)
  {
    match op
    case SetRoundOp(round) =>
      SetRoundRejects(r, round);
      if ValidRound(round) {
        SetRoundInstallsX87(r, round);
        SetRoundInstallsSse(r, round);
      }
    case ClearOp(x) => ClearRemovesExactly(r, x, 0);
    case RaiseOp(a, b) =>
  }

  /** Over every run the two units agree, so the x87-only fegetround is the SSE mode too: the one last set. */
  lemma {:induction false} RoundModesAgree(r: Regs, ops: seq<Op>)
    requires Agree(r) && ValidMasks(ops)
    ensures Agree(Run(r, ops))
    ensures X87Round(Run(r, ops)) == SseRound(Run(r, ops)) == LastRound(X87Round(r), ops)
    ensures (Run(r, ops).control & 0x0c00) == ((Run(r, ops).mxcsr >> 3) & 0x0c00) == LastRound(r.control & 0x0c00, ops)
    decreases |ops|
  {
    if ops != [] {
      ApplyKeepsAgreement(r, ops[0]);
      assert ValidMasks(ops[1..]) by {
        forall i | 0 <= i < |ops[1..]| && ops[1..][i].ClearOp?
          ensures (ops[1..][i].excepts & !FE_ALL_EXCEPT) == 0
        {
          assert ops[1..][i] == ops[i + 1];
        }
      }
      RoundModesAgree(Apply(r, ops[0]), ops[1..]);
    }
  }
}
