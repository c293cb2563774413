/** What the emitted TAC computes: an evaluator for straight-line runs of
    instructions, used to state what the inline runtime checks of
    GenSubscript and GenNewArray test and what GenNewArray leaves in memory.
    A run stops at the first jump taken, at the _Halt call, or at an
    instruction it cannot execute. */
module Eval {
  import opened Tac
  import opened CodeGen

  /** A frame or global slot: segment and byte offset. */
  type Slot = (Segment, int)

  /** Machine state: slot contents, heap words by address, the pushed
      parameters, and the values the runtime supplies in order (addresses
      of string constants and results of calls into runtime or compiled
      code, whose bodies are not part of this model). */
  datatype Machine = Machine(slots: map<Slot, int>, mem: map<int, int>, stack: seq<int>, supply: seq<int>)

  /** How a run ends: it ran to the end, it took a jump to `target`, it
      called _Halt, or it reached something it cannot execute (an unset
      slot or word, a failed operation, an exhausted supply, a function
      boundary or a vtable). */
  datatype Outcome = Ran(m: Machine) | Jumped(target: Name, m: Machine) | Halted(m: Machine) | Stuck

  /** The slots a location reads when its value or address is computed. */
  function Slots(loc: Location): set<Slot> {
    match loc
    case Var(seg, off, _) => {(seg, off)}
    case Deref(b, _) => Slots(b)
  }

  /** The slot of the k-th temporary below stack offset `so`. */
  function TempSlot(so: int, k: nat): Slot {
    (FpRelative, so - VarSize * k)
  }

  /** None of the first n temporaries below `so` is read by `loc`. */
  ghost predicate Apart(loc: Location, so: int, n: nat) {
    forall k :: 0 <= k < n ==> TempSlot(so, k) !in Slots(loc)
  }

  function Value(m: Machine, loc: Location): Option<int> {
    match loc
    case Var(seg, off, _) => if (seg, off) in m.slots then Some(m.slots[(seg, off)]) else None
    case Deref(b, off) =>
      match Value(m, b)
      case None => None
      case Some(a) => if a + off in m.mem then Some(m.mem[a + off]) else None
  }

  /** Writing a slot stores into the slot; writing through a pointer stores
      into the heap word it addresses. */
  function Write(m: Machine, loc: Location, v: int): Outcome {
    match loc
    case Var(seg, off, _) => Ran(m.(slots := m.slots[(seg, off) := v]))
    case Deref(b, off) =>
      match Value(m, b)
      case None => Stuck
      case Some(a) => Ran(m.(mem := m.mem[a + off := v]))
  }

  /** Division truncated toward zero, as the target's div instruction. */
  function TDiv(a: int, b: int): int
    requires b != 0
  {
    var q := (if a < 0 then -a else a) / (if b < 0 then -b else b);
    if (a < 0) == (b < 0) then q else -q
  }

  /** The operators on words: comparisons yield 0 or 1, division and
      remainder by zero fail, && and || are defined on booleans (0 and 1). */
  function Apply(op: Opcode, a: int, b: int): Option<int> {
    match op
    case Add => Some(a + b)
    case Sub => Some(a - b)
    case Mul => Some(a * b)
    case Div => if b == 0 then None else Some(TDiv(a, b))
    case Mod => if b == 0 then None else Some(a - b * TDiv(a, b))
    case Eq => Some(if a == b then 1 else 0)
    case Less => Some(if a < b then 1 else 0)
    case And => if a in {0, 1} && b in {0, 1} then Some(if a == 1 && b == 1 then 1 else 0) else None
    case Or => if a in {0, 1} && b in {0, 1} then Some(if a == 1 || b == 1 then 1 else 0) else None
  }

  /** A result slot receives the next supplied value. */
  function Receive(m: Machine, result: Option<Location>): Outcome {
    if result.None? then Ran(m)
    else if m.supply == [] then Stuck
    else Write(m.(supply := m.supply[1..]), result.value, m.supply[0])
  }

  /** One instruction. */
  function Exec(m: Machine, ins: Instr): Outcome {
    match ins
    case LoadConstant(dst, v) => Write(m, dst, v)
    case LoadStringConstant(dst, _) => Receive(m, Some(dst))
    case LoadLabel(_, _) => Stuck
    case Assign(dst, src) =>
      (match Value(m, src) case None => Stuck case Some(v) => Write(m, dst, v))
    case Load(dst, src, off) =>
      (match Value(m, Deref(src, off)) case None => Stuck case Some(v) => Write(m, dst, v))
    case Store(dst, src, off) =>
      (match Value(m, src) case None => Stuck case Some(v) => Write(m, Deref(dst, off), v))
    case BinaryOp(op, dst, a, b) =>
      (match (Value(m, a), Value(m, b))
       case (Some(x), Some(y)) =>
         (match Apply(op, x, y) case None => Stuck case Some(v) => Write(m, dst, v))
       case _ => Stuck)
    case Label(_) => Ran(m)
    case Goto(l) => Jumped(l, m)
    case IfZ(test, l) =>
      (match Value(m, test) case None => Stuck case Some(v) => if v == 0 then Jumped(l, m) else Ran(m))
    case PushParam(p) =>
      (match Value(m, p) case None => Stuck case Some(v) => Ran(m.(stack := m.stack + [v])))
    case PopParams(n) =>
      if n >= 0 && n % VarSize == 0 && n / VarSize <= |m.stack|
      then Ran(m.(stack := m.stack[..|m.stack| - n / VarSize]))
      else Stuck
    case LCall(fn, result) =>
      if fn == Id(Builtins[Halt].runtimeLabel) then Halted(m) else Receive(m, result)
    case ACall(fn, result) =>
      if Value(m, fn).None? then Stuck else Receive(m, result)
    case BeginFunc(_) => Stuck
    case EndFunc => Stuck
    case Return(_) => Stuck
    case VTable(_, _) => Stuck
  }

  /** Runs `code` from `m` until it ends, jumps, halts or sticks. */
  function Run(m: Machine, code: seq<Instr>): Outcome
    decreases |code|
  {
    if |code| == 0 then Ran(m)
    else
      match Run(m, code[..|code| - 1])
      case Ran(m1) => Exec(m1, code[|code| - 1])
      case other => other
  }

  // ---------------------------------------------------------------------
  // Running code that is extended at the end

  /** Appending an instruction to a run that ended normally executes it. */
  lemma RunStep(m: Machine, c: seq<Instr>, x: Instr, m0: Machine)
    requires Run(m, c) == Ran(m0)
    ensures Run(m, c + [x]) == Exec(m0, x)
  {
    assert (c + [x])[..|c|] == c;
  }

  /** A run that jumped, halted or stuck is not affected by what follows. */
  lemma {:induction false} RunStops(m: Machine, c: seq<Instr>, d: seq<Instr>)
    requires !Run(m, c).Ran?
    ensures Run(m, c + d) == Run(m, c)
    decreases |d|
  {
    if d != [] {
      var d' := d[..|d| - 1];
      RunStops(m, c, d');
      assert (c + d)[..|c + d| - 1] == c + d';
    } else {
      assert c + d == c;
    }
  }

  /** Writing a slot the location does not read leaves its value alone. */
  lemma {:induction false} ValueFrame(m: Machine, loc: Location, s: Slot, v: int)
    requires s !in Slots(loc)
    ensures Value(m.(slots := m.slots[s := v]), loc) == Value(m, loc)
  {
    match loc
    case Var(_, _, _) =>
    case Deref(b, _) => ValueFrame(m, b, s, v);
  }

  /** The machine with the k-th temporary below `so` set to `v`. */
  function SetTemp(m: Machine, so: int, k: nat, v: int): Machine {
    m.(slots := m.slots[TempSlot(so, k) := v])
  }

  /** Appending an instruction that writes `v` into the k-th temporary: the
      run ends with that temporary set. */
  lemma StepTemp(m: Machine, c: seq<Instr>, x: Instr, m0: Machine, t: nat, so: int, k: nat, v: int)
    requires Run(m, c) == Ran(m0)
    requires Exec(m0, x) == Write(m0, TempAt(t, so, k), v)
    ensures Run(m, c + [x]) == Ran(SetTemp(m0, so, k, v))
    ensures Value(SetTemp(m0, so, k, v), TempAt(t, so, k)) == Some(v)
  {
    RunStep(m, c, x, m0);
  }

  /** Setting a temporary that `loc` does not read leaves its value alone. */
  lemma Keeps(m: Machine, so: int, k: nat, v: int, loc: Location)
    requires TempSlot(so, k) !in Slots(loc)
    ensures Value(SetTemp(m, so, k, v), loc) == Value(m, loc)
  {
    ValueFrame(m, loc, TempSlot(so, k), v);
  }

  /** A location's value depends on the slots and the heap only. */
  lemma {:induction false} ValueOfState(m: Machine, m': Machine, loc: Location)
    requires m.slots == m'.slots && m.mem == m'.mem
    ensures Value(m, loc) == Value(m', loc)
  {
    match loc
    case Var(_, _, _) =>
    case Deref(b, _) => ValueOfState(m, m', b);
  }

  /** The instructions the inline checks use, one at a time. */
  lemma ExecConst(m: Machine, dst: Location, v: int)
    ensures Exec(m, LoadConstant(dst, v)) == Write(m, dst, v)
  {
  }

  lemma ExecBinary(m: Machine, op: Opcode, dst: Location, a: Location, b: Location, x: int, y: int, v: int)
    requires Value(m, a) == Some(x) && Value(m, b) == Some(y) && Apply(op, x, y) == Some(v)
    ensures Exec(m, BinaryOp(op, dst, a, b)) == Write(m, dst, v)
  {
  }

  lemma ExecLoad(m: Machine, dst: Location, src: Location, off: int, p: int, v: int)
    requires Value(m, src) == Some(p) && p + off in m.mem && m.mem[p + off] == v
    ensures Exec(m, Load(dst, src, off)) == Write(m, dst, v)
  {
    ReadThrough(m, src, off, p);
  }

  lemma ReadThrough(m: Machine, src: Location, off: int, p: int)
    requires Value(m, src) == Some(p) && p + off in m.mem
    ensures Value(m, Deref(src, off)) == Some(m.mem[p + off])
  {
  }

  lemma ExecString(m: Machine, dst: Location, str: string)
    requires m.supply != [] && dst.Var?
    ensures Exec(m, LoadStringConstant(dst, str)) ==
      Ran(m.(supply := m.supply[1..]).(slots := m.slots[(dst.segment, dst.offset) := m.supply[0]]))
  {
  }

  lemma ExecPush(m: Machine, p: Location, v: int)
    requires Value(m, p) == Some(v)
    ensures Exec(m, PushParam(p)) == Ran(m.(stack := m.stack + [v]))
  {
  }

  lemma ExecPop(m: Machine, k: nat)
    requires k <= |m.stack|
    ensures Exec(m, PopParams(VarSize * k)) == Ran(m.(stack := m.stack[..|m.stack| - k]))
  {
  }

  lemma ExecCall(m: Machine, fn: Name, result: Option<Location>)
    ensures Exec(m, LCall(fn, result)) ==
      if fn == Id(Builtins[Halt].runtimeLabel) then Halted(m) else Receive(m, result)
  {
  }

  lemma ExecStore(m: Machine, dst: Location, src: Location, off: int, p: int, v: int)
    requires Value(m, src) == Some(v) && Value(m, dst) == Some(p)
    ensures Exec(m, Store(dst, src, off)) == Ran(m.(mem := m.mem[p + off := v]))
  {
    assert Exec(m, Store(dst, src, off)) == Write(m, Deref(dst, off), v);
    WriteThrough(m, dst, off, p, v);
  }

  lemma WriteThrough(m: Machine, dst: Location, off: int, p: int, v: int)
    requires Value(m, dst) == Some(p)
    ensures Write(m, Deref(dst, off), v) == Ran(m.(mem := m.mem[p + off := v]))
  {
  }

  lemma ExecLabel(m: Machine, l: Name)
    ensures Exec(m, Label(l)) == Ran(m)
  {
  }

  lemma ExecIfZ(m: Machine, test: Location, l: Name, v: int)
    requires Value(m, test) == Some(v)
    ensures Exec(m, IfZ(test, l)) == if v == 0 then Jumped(l, m) else Ran(m)
  {
  }

  /** Stepping `d` temporaries further down: the first n of the new
      position are among the first `total` of the old. */
  lemma ApartShift(loc: Location, so: int, total: nat, n: nat, d: nat)
    requires n + d <= total && Apart(loc, so, total)
    ensures Apart(loc, so - VarSize * d, n)
  {
    var below := so - VarSize * d;
    forall k | 0 <= k < n ensures TempSlot(below, k) !in Slots(loc) {
      assert TempSlot(below, k) == TempSlot(so, k + d);
    }
  }

  // ---------------------------------------------------------------------
  // The inline halt

  /** The five instructions of the inline halt. */
  lemma HaltShape(c: seq<Instr>, msg: string, t: nat, so: int)
    ensures HaltCode(c, msg, t, so) ==
      c + [LoadStringConstant(TempAt(t, so, 0), msg)] + [PushParam(TempAt(t, so, 0))]
        + [LCall(Id(Builtins[PrintString].runtimeLabel), None)] + [PopParams(VarSize)]
        + [LCall(Id(Builtins[Halt].runtimeLabel), None)]
  {
    assert Builtins[PrintString].numArgs == 1 && Builtins[Halt].numArgs == 0;
  }

  /** The inline halt, run from any state with a value left to supply for
      the message's address: it pushes the message, calls _PrintString,
      pops the message and ends in the call to _Halt, with the parameter
      stack as it found it. */
  lemma HaltStops(m: Machine, c: seq<Instr>, msg: string, t: nat, so: int, m0: Machine)
    requires Run(m, c) == Ran(m0) && m0.supply != []
    ensures Run(m, HaltCode(c, msg, t, so)).Halted?
    ensures Run(m, HaltCode(c, msg, t, so)).m.stack == m0.stack
  {
    var T0 := TempAt(t, so, 0);
    var s0 := m0.supply[0];
    var c1 := c + [LoadStringConstant(T0, msg)];
    var m1 := SetTemp(m0.(supply := m0.supply[1..]), so, 0, s0);
    assert Run(m, c1) == Ran(m1) by {
      ExecString(m0, T0, msg);
      RunStep(m, c, LoadStringConstant(T0, msg), m0);
    }
    var c2 := c1 + [PushParam(T0)];
    var m2 := m1.(stack := m1.stack + [s0]);
    assert Run(m, c2) == Ran(m2) by {
      ExecPush(m1, T0, s0);
      RunStep(m, c1, PushParam(T0), m1);
    }
    var printString := Id(Builtins[PrintString].runtimeLabel);
    var c3 := c2 + [LCall(printString, None)];
    assert Run(m, c3) == Ran(m2) by {
      ExecCall(m2, printString, None);
      RunStep(m, c2, LCall(printString, None), m2);
    }
    var c4 := c3 + [PopParams(VarSize)];
    var m3 := m2.(stack := m2.stack[..|m2.stack| - 1]);
    assert Run(m, c4) == Ran(m3) && m3.stack == m0.stack by {
      ExecPop(m2, 1);
      RunStep(m, c3, PopParams(VarSize), m2);
    }
    var halt := Id(Builtins[Halt].runtimeLabel);
    assert Run(m, c4 + [LCall(halt, None)]) == Halted(m3) by {
      ExecCall(m3, halt, None);
      RunStep(m, c4, LCall(halt, None), m3);
    }
    HaltShape(c, msg, t, so);
  }

  /** A run that already left the code does not reach the inline halt. */
  lemma HaltStays(m: Machine, c: seq<Instr>, msg: string, t: nat, so: int)
    requires !Run(m, c).Ran?
    ensures Run(m, HaltCode(c, msg, t, so)) == Run(m, c)
  {
    HaltShape(c, msg, t, so);
    var d := [LoadStringConstant(TempAt(t, so, 0), msg), PushParam(TempAt(t, so, 0)),
              LCall(Id(Builtins[PrintString].runtimeLabel), None), PopParams(VarSize),
              LCall(Id(Builtins[Halt].runtimeLabel), None)];
    assert HaltCode(c, msg, t, so) == c + d;
    RunStops(m, c, d);
  }

  // ---------------------------------------------------------------------
  // GenSubscript

  /** The first three instructions of the bounds test: the zero, the
      sign test and the length. */
  lemma SubscriptLoads(m: Machine, c: seq<Instr>, arr: Location, idx: Location, t: nat, so: int,
                       m0: Machine, a: int, i: int, len: int)
    requires Run(m, c) == Ran(m0)
    requires Value(m0, arr) == Some(a) && Value(m0, idx) == Some(i)
    requires a - 4 in m0.mem && m0.mem[a - 4] == len
    requires Apart(arr, so, 6) && Apart(idx, so, 6)
    ensures var m3 := SetTemp(SetTemp(SetTemp(m0, so, 0, 0), so, 1, if i < 0 then 1 else 0), so, 2, len);
      Run(m, c + [LoadConstant(TempAt(t, so, 0), 0)]
               + [BinaryOp(Less, TempAt(t, so, 1), idx, TempAt(t, so, 0))]
               + [Load(TempAt(t, so, 2), arr, -4)]) == Ran(m3) &&
      Value(m3, arr) == Some(a) && Value(m3, idx) == Some(i) &&
      Value(m3, TempAt(t, so, 0)) == Some(0) && Value(m3, TempAt(t, so, 1)) == Some(if i < 0 then 1 else 0) &&
      Value(m3, TempAt(t, so, 2)) == Some(len)
  {
    var T0, T1, T2 := TempAt(t, so, 0), TempAt(t, so, 1), TempAt(t, so, 2);
    var isNegative := if i < 0 then 1 else 0;
    var c1 := c + [LoadConstant(T0, 0)];
    var m1 := SetTemp(m0, so, 0, 0);
    assert Run(m, c1) == Ran(m1) && Value(m1, arr) == Some(a) && Value(m1, idx) == Some(i) &&
           Value(m1, T0) == Some(0) by {
      ExecConst(m0, T0, 0);
      StepTemp(m, c, LoadConstant(T0, 0), m0, t, so, 0, 0);
      Keeps(m0, so, 0, 0, arr);
      Keeps(m0, so, 0, 0, idx);
    }
    var c2 := c1 + [BinaryOp(Less, T1, idx, T0)];
    var m2 := SetTemp(m1, so, 1, isNegative);
    assert Run(m, c2) == Ran(m2) && Value(m2, arr) == Some(a) && Value(m2, idx) == Some(i) &&
           Value(m2, T0) == Some(0) && Value(m2, T1) == Some(isNegative) by {
      ExecBinary(m1, Less, T1, idx, T0, i, 0, isNegative);
      StepTemp(m, c1, BinaryOp(Less, T1, idx, T0), m1, t, so, 1, isNegative);
      Keeps(m1, so, 1, isNegative, arr);
      Keeps(m1, so, 1, isNegative, idx);
      Keeps(m1, so, 1, isNegative, T0);
    }
    ExecLoad(m2, T2, arr, -4, a, len);
    StepTemp(m, c2, Load(T2, arr, -4), m2, t, so, 2, len);
    Keeps(m2, so, 2, len, arr);
    Keeps(m2, so, 2, len, idx);
    Keeps(m2, so, 2, len, T0);
    Keeps(m2, so, 2, len, T1);
  }

  /** The upper-bound test of the bounds check and its negation. */
  lemma SubscriptUpper(m: Machine, c: seq<Instr>, arr: Location, idx: Location, t: nat, so: int,
                       m3: Machine, a: int, i: int, len: int)
    requires Run(m, c) == Ran(m3)
    requires Value(m3, arr) == Some(a) && Value(m3, idx) == Some(i)
    requires Value(m3, TempAt(t, so, 0)) == Some(0) && Value(m3, TempAt(t, so, 1)) == Some(if i < 0 then 1 else 0)
    requires Value(m3, TempAt(t, so, 2)) == Some(len)
    requires Apart(arr, so, 6) && Apart(idx, so, 6)
    ensures var m5 := SetTemp(SetTemp(m3, so, 3, if i < len then 1 else 0), so, 4, if i < len then 0 else 1);
      Run(m, c + [BinaryOp(Less, TempAt(t, so, 3), idx, TempAt(t, so, 2))]
               + [BinaryOp(Eq, TempAt(t, so, 4), TempAt(t, so, 3), TempAt(t, so, 0))]) == Ran(m5) &&
      Value(m5, TempAt(t, so, 1)) == Some(if i < 0 then 1 else 0) &&
      Value(m5, TempAt(t, so, 4)) == Some(if i < len then 0 else 1) &&
      Value(m5, arr) == Some(a) && Value(m5, idx) == Some(i)
  {
    var T0, T1, T2, T3, T4 := TempAt(t, so, 0), TempAt(t, so, 1), TempAt(t, so, 2), TempAt(t, so, 3), TempAt(t, so, 4);
    var isNegative := if i < 0 then 1 else 0;
    var isWithinRange := if i < len then 1 else 0;
    var c4 := c + [BinaryOp(Less, T3, idx, T2)];
    var m4 := SetTemp(m3, so, 3, isWithinRange);
    assert Run(m, c4) == Ran(m4) && Value(m4, T0) == Some(0) && Value(m4, T1) == Some(isNegative) &&
           Value(m4, T3) == Some(isWithinRange) && Value(m4, arr) == Some(a) && Value(m4, idx) == Some(i) by {
      ExecBinary(m3, Less, T3, idx, T2, i, len, isWithinRange);
      StepTemp(m, c, BinaryOp(Less, T3, idx, T2), m3, t, so, 3, isWithinRange);
      Keeps(m3, so, 3, isWithinRange, T0);
      Keeps(m3, so, 3, isWithinRange, T1);
      Keeps(m3, so, 3, isWithinRange, arr);
      Keeps(m3, so, 3, isWithinRange, idx);
    }
    var pastEnd := if i < len then 0 else 1;
    ExecBinary(m4, Eq, T4, T3, T0, isWithinRange, 0, pastEnd);
    StepTemp(m, c4, BinaryOp(Eq, T4, T3, T0), m4, t, so, 4, pastEnd);
    Keeps(m4, so, 4, pastEnd, T1);
    Keeps(m4, so, 4, pastEnd, arr);
    Keeps(m4, so, 4, pastEnd, idx);
  }

  /** The rest of the bounds test: the disjunction of the two failures and
      the IfZ on it. */
  lemma SubscriptDecides(m: Machine, c: seq<Instr>, arr: Location, idx: Location, t: nat, so: int, l: nat,
                         m5: Machine, a: int, i: int, len: int)
    requires Run(m, c) == Ran(m5)
    requires Value(m5, TempAt(t, so, 1)) == Some(if i < 0 then 1 else 0)
    requires Value(m5, TempAt(t, so, 4)) == Some(if i < len then 0 else 1)
    requires Value(m5, arr) == Some(a) && Value(m5, idx) == Some(i)
    requires Apart(arr, so, 6) && Apart(idx, so, 6)
    ensures var r := Run(m, c + [BinaryOp(Or, TempAt(t, so, 5), TempAt(t, so, 1), TempAt(t, so, 4))]
                             + [IfZ(TempAt(t, so, 5), Lbl(l))]);
      (r.Jumped? || r.Ran?) &&
      (r.Jumped? <==> 0 <= i < len) && (r.Jumped? ==> r.target == Lbl(l)) &&
      r.m.mem == m5.mem && r.m.stack == m5.stack && r.m.supply == m5.supply &&
      Value(r.m, arr) == Some(a) && Value(r.m, idx) == Some(i)
  {
    var T1, T4, T5 := TempAt(t, so, 1), TempAt(t, so, 4), TempAt(t, so, 5);
    var isNegative := if i < 0 then 1 else 0;
    var pastEnd := if i < len then 0 else 1;
    var outOfRange := if isNegative == 1 || pastEnd == 1 then 1 else 0;
    var c6 := c + [BinaryOp(Or, T5, T1, T4)];
    var m6 := SetTemp(m5, so, 5, outOfRange);
    ExecBinary(m5, Or, T5, T1, T4, isNegative, pastEnd, outOfRange);
    StepTemp(m, c, BinaryOp(Or, T5, T1, T4), m5, t, so, 5, outOfRange);
    Keeps(m5, so, 5, outOfRange, arr);
    Keeps(m5, so, 5, outOfRange, idx);
    assert outOfRange == 0 <==> 0 <= i < len;
    ExecIfZ(m6, T5, Lbl(l), outOfRange);
    RunStep(m, c6, IfZ(T5, Lbl(l)), m6);
  }

  /** GenSubscript's bounds test, run from any state the earlier code left
      in which the array and the index have values and the word before the
      array holds its length: the IfZ jumps past the inline halt (to the
      label `l`) exactly when 0 <= index < length, and otherwise falls
      through into the halt. Only temporaries change. */
  lemma SubscriptGuard(m: Machine, c: seq<Instr>, arr: Location, idx: Location, t: nat, so: int, l: nat,
                       m0: Machine, a: int, i: int, len: int)
    requires Run(m, c) == Ran(m0)
    requires Value(m0, arr) == Some(a) && Value(m0, idx) == Some(i)
    requires a - 4 in m0.mem && m0.mem[a - 4] == len
    requires Apart(arr, so, 6) && Apart(idx, so, 6)
    ensures var r := Run(m, SubscriptTest(c, arr, idx, t, so, l));
      (r.Jumped? || r.Ran?) &&
      (r.Jumped? <==> 0 <= i < len) && (r.Jumped? ==> r.target == Lbl(l)) &&
      r.m.mem == m0.mem && r.m.stack == m0.stack && r.m.supply == m0.supply &&
      Value(r.m, arr) == Some(a) && Value(r.m, idx) == Some(i)
  {
    SubscriptLoads(m, c, arr, idx, t, so, m0, a, i, len);
    var m3 := SetTemp(SetTemp(SetTemp(m0, so, 0, 0), so, 1, if i < 0 then 1 else 0), so, 2, len);
    var c3 := c + [LoadConstant(TempAt(t, so, 0), 0)]
                + [BinaryOp(Less, TempAt(t, so, 1), idx, TempAt(t, so, 0))]
                + [Load(TempAt(t, so, 2), arr, -4)];
    SubscriptUpper(m, c3, arr, idx, t, so, m3, a, i, len);
    var m5 := SetTemp(SetTemp(m3, so, 3, if i < len then 1 else 0), so, 4, if i < len then 0 else 1);
    var c5 := c3 + [BinaryOp(Less, TempAt(t, so, 3), idx, TempAt(t, so, 2))]
                 + [BinaryOp(Eq, TempAt(t, so, 4), TempAt(t, so, 3), TempAt(t, so, 0))];
    SubscriptDecides(m, c5, arr, idx, t, so, l, m5, a, i, len);
  }

  /** GenSubscript's check and halt together: from a state where the
      runtime can supply the message's address, the code halts exactly when
      the index is out of bounds, and otherwise jumps to the label `l` that
      follows the halt. */
  lemma SubscriptHaltsOrSkips(m: Machine, c: seq<Instr>, arr: Location, idx: Location, t: nat, so: int, l: nat,
                              m0: Machine, a: int, i: int, len: int)
    requires Run(m, c) == Ran(m0) && m0.supply != []
    requires Value(m0, arr) == Some(a) && Value(m0, idx) == Some(i)
    requires a - 4 in m0.mem && m0.mem[a - 4] == len
    requires Apart(arr, so, 6) && Apart(idx, so, 6)
    ensures var r := Run(m, HaltCode(SubscriptTest(c, arr, idx, t, so, l), ErrArrOutOfBounds, t + 6, so - VarSize * 6));
      (r.Halted? <==> !(0 <= i < len)) && (r.Jumped? <==> 0 <= i < len) && (r.Jumped? ==> r.target == Lbl(l))
  {
    SubscriptGuard(m, c, arr, idx, t, so, l, m0, a, i, len);
    var c1 := SubscriptTest(c, arr, idx, t, so, l);
    var r1 := Run(m, c1);
    if r1.Jumped? {
      HaltStays(m, c1, ErrArrOutOfBounds, t + 6, so - VarSize * 6);
    } else {
      HaltStops(m, c1, ErrArrOutOfBounds, t + 6, so - VarSize * 6, r1.m);
    }
  }

  /** GenSubscript's address computation after the label: the element's
      address is the array's address plus VarSize times the index. */
  lemma SubscriptElement(m: Machine, c: seq<Instr>, arr: Location, idx: Location, t: nat, so: int, l: nat,
                         m0: Machine, a: int, i: int)
    requires Run(m, c) == Ran(m0)
    requires Value(m0, arr) == Some(a) && Value(m0, idx) == Some(i)
    requires Apart(arr, so, 3) && Apart(idx, so, 3)
    ensures var r := Run(m, SubscriptAddress(c, arr, idx, t, so, l));
      r.Ran? && Value(r.m, TempAt(t, so, 2)) == Some(a + VarSize * i) && r.m.mem == m0.mem
  {
    var T0, T1, T2 := TempAt(t, so, 0), TempAt(t, so, 1), TempAt(t, so, 2);
    var c1 := c + [Label(Lbl(l))];
    assert Run(m, c1) == Ran(m0) by {
      ExecLabel(m0, Lbl(l));
      RunStep(m, c, Label(Lbl(l)), m0);
    }
    var c2 := c1 + [LoadConstant(T0, VarSize)];
    var m1 := SetTemp(m0, so, 0, VarSize);
    assert Run(m, c2) == Ran(m1) && Value(m1, T0) == Some(VarSize) &&
           Value(m1, arr) == Some(a) && Value(m1, idx) == Some(i) by {
      ExecConst(m0, T0, VarSize);
      StepTemp(m, c1, LoadConstant(T0, VarSize), m0, t, so, 0, VarSize);
      Keeps(m0, so, 0, VarSize, arr);
      Keeps(m0, so, 0, VarSize, idx);
    }
    var c3 := c2 + [BinaryOp(Mul, T1, T0, idx)];
    var m2 := SetTemp(m1, so, 1, VarSize * i);
    assert Run(m, c3) == Ran(m2) && Value(m2, T1) == Some(VarSize * i) && Value(m2, arr) == Some(a) by {
      ExecBinary(m1, Mul, T1, T0, idx, VarSize, i, VarSize * i);
      StepTemp(m, c2, BinaryOp(Mul, T1, T0, idx), m1, t, so, 1, VarSize * i);
      Keeps(m1, so, 1, VarSize * i, arr);
    }
    ExecBinary(m2, Add, T2, arr, T1, a, VarSize * i, a + VarSize * i);
    StepTemp(m, c3, BinaryOp(Add, T2, arr, T1), m2, t, so, 2, a + VarSize * i);
  }

  /** GenSubscript's sequence is the bounds test and the halt, twelve
      instructions, followed by the address part on its own. */
  lemma SubscriptSplit(c: seq<Instr>, arr: Location, idx: Location, t: nat, so: int, l: nat)
    ensures var code := SubscriptCode(c, arr, idx, t, so, l);
      var c2 := HaltCode(SubscriptTest(c, arr, idx, t, so, l), ErrArrOutOfBounds, t + 6, so - VarSize * 6);
      var d := SubscriptAddress([], arr, idx, t + 7, so - VarSize * 7, l);
      code == c2 + d && |c2| == |c| + 12 && |code| == |c| + 16 &&
      code[|c| + 12..] == d && code[|c| + 12] == Label(Lbl(l))
  {
    var c1 := SubscriptTest(c, arr, idx, t, so, l);
    HaltLength(c1, ErrArrOutOfBounds, t + 6, so - VarSize * 6);
  }

  /** GenSubscript run from the start, for an index within bounds: the run
      leaves the code at the IfZ for the label `l`, with the array, the
      index and the heap as they were. */
  lemma SubscriptJumps(m: Machine, c: seq<Instr>, arr: Location, idx: Location, t: nat, so: int, l: nat,
                       m0: Machine, a: int, i: int, len: int)
    requires Run(m, c) == Ran(m0)
    requires Value(m0, arr) == Some(a) && Value(m0, idx) == Some(i)
    requires a - 4 in m0.mem && m0.mem[a - 4] == len && 0 <= i < len
    requires Apart(arr, so, 6) && Apart(idx, so, 6)
    ensures var r := Run(m, SubscriptCode(c, arr, idx, t, so, l));
      r.Jumped? && r.target == Lbl(l) && Value(r.m, arr) == Some(a) && Value(r.m, idx) == Some(i) &&
      r.m.mem == m0.mem
  {
    var c1 := SubscriptTest(c, arr, idx, t, so, l);
    var c2 := HaltCode(c1, ErrArrOutOfBounds, t + 6, so - VarSize * 6);
    SubscriptGuard(m, c, arr, idx, t, so, l, m0, a, i, len);
    HaltStays(m, c1, ErrArrOutOfBounds, t + 6, so - VarSize * 6);
    SubscriptSplit(c, arr, idx, t, so, l);
    RunStops(m, c2, SubscriptAddress([], arr, idx, t + 7, so - VarSize * 7, l));
  }

  /** GenSubscript as a whole, for an index within bounds: the run leaves
      the code at the IfZ for the label `l`, which is the instruction twelve
      past the start; resumed there, the code computes the element's address
      into its tenth temporary, the location the returned reference reads
      through. */
  lemma SubscriptInBounds(m: Machine, c: seq<Instr>, arr: Location, idx: Location, t: nat, so: int, l: nat,
                          m0: Machine, a: int, i: int, len: int)
    requires Run(m, c) == Ran(m0)
    requires Value(m0, arr) == Some(a) && Value(m0, idx) == Some(i)
    requires a - 4 in m0.mem && m0.mem[a - 4] == len && 0 <= i < len
    requires Apart(arr, so, 10) && Apart(idx, so, 10)
    ensures var code := SubscriptCode(c, arr, idx, t, so, l);
      var r := Run(m, code);
      r.Jumped? && r.target == Lbl(l) && |code| == |c| + 16 && code[|c| + 12] == Label(Lbl(l)) &&
      var r2 := Run(r.m, code[|c| + 12..]);
      r2.Ran? && Value(r2.m, TempAt(t, so, 9)) == Some(a + VarSize * i) && r2.m.mem == m0.mem
  {
    assert Apart(arr, so, 6) && Apart(idx, so, 6);
    SubscriptJumps(m, c, arr, idx, t, so, l, m0, a, i, len);
    SubscriptSplit(c, arr, idx, t, so, l);
    ApartShift(arr, so, 10, 3, 7);
    ApartShift(idx, so, 10, 3, 7);
    var r := Run(m, SubscriptCode(c, arr, idx, t, so, l));
    SubscriptElement(r.m, [], arr, idx, t + 7, so - VarSize * 7, l, r.m, a, i);
  }

  // ---------------------------------------------------------------------
  // GenNewArray

  /** GenNewArray's size test: the IfZ jumps past the inline halt (to the
      label `l`) exactly when the requested length is at least 1, and
      otherwise falls through into the halt. Only temporaries change. */
  lemma NewArrayGuard(m: Machine, c: seq<Instr>, n: Location, t: nat, so: int, l: nat, m0: Machine, v: int)
    requires Run(m, c) == Ran(m0) && Value(m0, n) == Some(v) && Apart(n, so, 2)
    ensures var r := Run(m, NewArrayTest(c, n, t, so, l));
      (r.Jumped? || r.Ran?) && (r.Jumped? <==> v >= 1) && (r.Jumped? ==> r.target == Lbl(l)) &&
      r.m.mem == m0.mem && r.m.stack == m0.stack && r.m.supply == m0.supply && Value(r.m, n) == Some(v)
  {
    var T0, T1 := TempAt(t, so, 0), TempAt(t, so, 1);
    var isNonpositive := if v < 1 then 1 else 0;
    var c1 := c + [LoadConstant(T0, 1)];
    var m1 := SetTemp(m0, so, 0, 1);
    assert Run(m, c1) == Ran(m1) && Value(m1, T0) == Some(1) && Value(m1, n) == Some(v) by {
      ExecConst(m0, T0, 1);
      StepTemp(m, c, LoadConstant(T0, 1), m0, t, so, 0, 1);
      Keeps(m0, so, 0, 1, n);
    }
    var c2 := c1 + [BinaryOp(Less, T1, n, T0)];
    var m2 := SetTemp(m1, so, 1, isNonpositive);
    assert Run(m, c2) == Ran(m2) && Value(m2, T1) == Some(isNonpositive) && Value(m2, n) == Some(v) by {
      ExecBinary(m1, Less, T1, n, T0, v, 1, isNonpositive);
      StepTemp(m, c1, BinaryOp(Less, T1, n, T0), m1, t, so, 1, isNonpositive);
      Keeps(m1, so, 1, isNonpositive, n);
    }
    ExecIfZ(m2, T1, Lbl(l), isNonpositive);
    RunStep(m, c2, IfZ(T1, Lbl(l)), m2);
  }

  /** GenNewArray's check and halt together: the code halts exactly when
      the requested length is below 1, and otherwise jumps to the label `l`
      that follows the halt. */
  lemma NewArrayHaltsOrSkips(m: Machine, c: seq<Instr>, n: Location, t: nat, so: int, l: nat, m0: Machine, v: int)
    requires Run(m, c) == Ran(m0) && m0.supply != [] && Value(m0, n) == Some(v) && Apart(n, so, 2)
    ensures var r := Run(m, HaltCode(NewArrayTest(c, n, t, so, l), ErrArrBadSize, t + 2, so - VarSize * 2));
      (r.Halted? <==> v < 1) && (r.Jumped? <==> v >= 1) && (r.Jumped? ==> r.target == Lbl(l))
  {
    NewArrayGuard(m, c, n, t, so, l, m0, v);
    var c1 := NewArrayTest(c, n, t, so, l);
    var r1 := Run(m, c1);
    if r1.Jumped? {
      HaltStays(m, c1, ErrArrBadSize, t + 2, so - VarSize * 2);
    } else {
      HaltStops(m, c1, ErrArrBadSize, t + 2, so - VarSize * 2, r1.m);
    }
  }

  /** GenNewArray's size computation after the label: (1 + n) * VarSize
      bytes, one word more than the elements, for the length. */
  lemma NewArraySizeRun(m: Machine, c: seq<Instr>, n: Location, t: nat, so: int, l: nat, m0: Machine, v: int)
    requires Run(m, c) == Ran(m0) && Value(m0, n) == Some(v) && Apart(n, so, 4)
    ensures var r := Run(m, NewArraySize(c, n, t, so, l));
      r.Ran? && Value(r.m, TempAt(t, so, 3)) == Some((1 + v) * VarSize) &&
      Value(r.m, TempAt(t, so, 2)) == Some(VarSize) && Value(r.m, n) == Some(v) &&
      r.m.mem == m0.mem && r.m.stack == m0.stack && r.m.supply == m0.supply
  {
    var T0, T1, T2, T3 := TempAt(t, so, 0), TempAt(t, so, 1), TempAt(t, so, 2), TempAt(t, so, 3);
    var c1 := c + [Label(Lbl(l))];
    assert Run(m, c1) == Ran(m0) by {
      ExecLabel(m0, Lbl(l));
      RunStep(m, c, Label(Lbl(l)), m0);
    }
    var c2 := c1 + [LoadConstant(T0, 1)];
    var m1 := SetTemp(m0, so, 0, 1);
    assert Run(m, c2) == Ran(m1) && Value(m1, T0) == Some(1) && Value(m1, n) == Some(v) by {
      ExecConst(m0, T0, 1);
      StepTemp(m, c1, LoadConstant(T0, 1), m0, t, so, 0, 1);
      Keeps(m0, so, 0, 1, n);
    }
    var c3 := c2 + [BinaryOp(Add, T1, T0, n)];
    var m2 := SetTemp(m1, so, 1, 1 + v);
    assert Run(m, c3) == Ran(m2) && Value(m2, T1) == Some(1 + v) && Value(m2, n) == Some(v) by {
      ExecBinary(m1, Add, T1, T0, n, 1, v, 1 + v);
      StepTemp(m, c2, BinaryOp(Add, T1, T0, n), m1, t, so, 1, 1 + v);
      Keeps(m1, so, 1, 1 + v, n);
    }
    var c4 := c3 + [LoadConstant(T2, VarSize)];
    var m3 := SetTemp(m2, so, 2, VarSize);
    assert Run(m, c4) == Ran(m3) && Value(m3, T2) == Some(VarSize) && Value(m3, T1) == Some(1 + v) &&
           Value(m3, n) == Some(v) by {
      ExecConst(m2, T2, VarSize);
      StepTemp(m, c3, LoadConstant(T2, VarSize), m2, t, so, 2, VarSize);
      Keeps(m2, so, 2, VarSize, T1);
      Keeps(m2, so, 2, VarSize, n);
    }
    ExecBinary(m3, Mul, T3, T1, T2, 1 + v, VarSize, (1 + v) * VarSize);
    StepTemp(m, c4, BinaryOp(Mul, T3, T1, T2), m3, t, so, 3, (1 + v) * VarSize);
    Keeps(m3, so, 3, (1 + v) * VarSize, T2);
    Keeps(m3, so, 3, (1 + v) * VarSize, n);
  }

  /** The instructions of GenNewArray's allocation part. */
  lemma NewArrayStoreShape(c: seq<Instr>, n: Location, bytes: Location, four: Location, t: nat, so: int)
    ensures NewArrayStore(c, n, bytes, four, t, so) ==
      c + [PushParam(bytes)] + [LCall(Id(Builtins[Alloc].runtimeLabel), Some(TempAt(t, so, 0)))]
        + [PopParams(VarSize)] + [Store(TempAt(t, so, 0), n, 0)]
        + [BinaryOp(Add, TempAt(t, so, 1), TempAt(t, so, 0), four)]
  {
    assert Builtins[Alloc].numArgs == 1;
  }

  /** The call to _Alloc: the byte count is pushed, the address the runtime
      returns lands in the result temporary, and the count is popped
      again. */
  lemma AllocRun(m: Machine, c: seq<Instr>, bytes: Location, t: nat, so: int, m0: Machine, b: int)
    requires Run(m, c) == Ran(m0) && m0.supply != [] && Value(m0, bytes) == Some(b)
    ensures var m3 := SetTemp(m0.(supply := m0.supply[1..]), so, 0, m0.supply[0]);
      Run(m, c + [PushParam(bytes)] + [LCall(Id(Builtins[Alloc].runtimeLabel), Some(TempAt(t, so, 0)))]
               + [PopParams(VarSize)]) == Ran(m3)
  {
    var T0 := TempAt(t, so, 0);
    var p := m0.supply[0];
    var alloc := Id(Builtins[Alloc].runtimeLabel);
    var c1 := c + [PushParam(bytes)];
    var m1 := m0.(stack := m0.stack + [b]);
    assert Run(m, c1) == Ran(m1) by {
      ExecPush(m0, bytes, b);
      RunStep(m, c, PushParam(bytes), m0);
    }
    var c2 := c1 + [LCall(alloc, Some(T0))];
    var m2 := SetTemp(m1.(supply := m1.supply[1..]), so, 0, p);
    assert Run(m, c2) == Ran(m2) by {
      ExecCall(m1, alloc, Some(T0));
      RunStep(m, c1, LCall(alloc, Some(T0)), m1);
    }
    assert Run(m, c2 + [PopParams(VarSize)]) == Ran(m2.(stack := m2.stack[..|m2.stack| - 1])) by {
      ExecPop(m2, 1);
      RunStep(m, c2, PopParams(VarSize), m2);
    }
    assert m2.(stack := m2.stack[..|m2.stack| - 1]) == SetTemp(m0.(supply := m0.supply[1..]), so, 0, p);
  }

  /** GenNewArray's allocation part: with the runtime returning the
      address `p`, the requested length is stored at `p` and the result is
      `p + VarSize`, the address of the first element. */
  lemma NewArrayStoreRun(m: Machine, c: seq<Instr>, n: Location, bytes: Location, four: Location,
                         t: nat, so: int, m0: Machine, v: int, b: int)
    requires Run(m, c) == Ran(m0) && m0.supply != []
    requires Value(m0, bytes) == Some(b) && Value(m0, n) == Some(v)
    requires four.Var? && Value(m0, four) == Some(VarSize)
    requires Apart(n, so, 1) && Apart(four, so, 1)
    ensures var r := Run(m, NewArrayStore(c, n, bytes, four, t, so));
      var p := m0.supply[0];
      r.Ran? && r.m.mem == m0.mem[p := v] && Value(r.m, TempAt(t, so, 1)) == Some(p + VarSize) &&
      r.m.stack == m0.stack && r.m.supply == m0.supply[1..]
  {
    var T0, T1 := TempAt(t, so, 0), TempAt(t, so, 1);
    var p := m0.supply[0];
    var m0' := m0.(supply := m0.supply[1..]);
    var m3 := SetTemp(m0', so, 0, p);
    var c3 := c + [PushParam(bytes)] + [LCall(Id(Builtins[Alloc].runtimeLabel), Some(T0))] + [PopParams(VarSize)];
    assert Run(m, c3) == Ran(m3) && Value(m3, n) == Some(v) && Value(m3, four) == Some(VarSize) &&
           Value(m3, T0) == Some(p) by {
      AllocRun(m, c, bytes, t, so, m0, b);
      ValueOfState(m0, m0', n);
      Keeps(m0', so, 0, p, n);
      Keeps(m0', so, 0, p, four);
    }
    var c4 := c3 + [Store(T0, n, 0)];
    var m4 := m3.(mem := m3.mem[p + 0 := v]);
    assert Run(m, c4) == Ran(m4) && Value(m4, four) == Some(VarSize) && Value(m4, T0) == Some(p) by {
      ExecStore(m3, T0, n, 0, p, v);
      RunStep(m, c3, Store(T0, n, 0), m3);
    }
    ExecBinary(m4, Add, T1, T0, four, p, VarSize, p + VarSize);
    StepTemp(m, c4, BinaryOp(Add, T1, T0, four), m4, t, so, 1, p + VarSize);
    NewArrayStoreShape(c, n, bytes, four, t, so);
  }

  /** GenNewArray's code after its label, run on its own with the
      numbering local to it: the length is stored at the address `p` that
      _Alloc returns, and the sixth temporary holds p + VarSize. */
  lemma NewArrayTail(m0: Machine, n: Location, t: nat, so: int, l: nat, v: int)
    requires m0.supply != [] && Value(m0, n) == Some(v) && Apart(n, so, 5)
    ensures var r := Run(m0, NewArrayAlloc([], n, t, so, l));
      var p := m0.supply[0];
      r.Ran? && Value(r.m, TempAt(t, so, 5)) == Some(p + VarSize) && r.m.mem == m0.mem[p := v] &&
      r.m.stack == m0.stack
  {
    var c1 := NewArraySize([], n, t, so, l);
    assert Apart(n, so, 4);
    NewArraySizeRun(m0, [], n, t, so, l, m0, v);
    var mS := Run(m0, c1).m;
    ApartShift(n, so, 5, 1, 4);
    assert Apart(TempAt(t, so, 2), so - VarSize * 4, 1);
    NewArrayStoreRun(m0, c1, n, TempAt(t, so, 3), TempAt(t, so, 2), t + 4, so - VarSize * 4, mS, v, (1 + v) * VarSize);
    assert TempAt(t + 4, so - VarSize * 4, 1) == TempAt(t, so, 5);
  }

  /** GenNewArray's code after its label, numbered as in the whole
      sequence, which starts at temporary `t`, and run from a state with
      the heap, stack and supply the whole sequence started with: the
      length is stored at the address `p` that _Alloc returns, and the
      ninth temporary, the result, holds p + VarSize. */
  lemma NewArrayAllocRun(mr: Machine, m0: Machine, n: Location, t: nat, so: int, l: nat, v: int)
    requires mr.mem == m0.mem && mr.stack == m0.stack && mr.supply == m0.supply && m0.supply != []
    requires Value(mr, n) == Some(v) && Apart(n, so, 8)
    ensures var r := Run(mr, NewArrayAlloc([], n, t + 3, so - VarSize * 3, l));
      var p := m0.supply[0];
      r.Ran? && Value(r.m, TempAt(t, so, 8)) == Some(p + VarSize) && r.m.mem == m0.mem[p := v] &&
      r.m.stack == m0.stack
  {
    ApartShift(n, so, 8, 5, 3);
    NewArrayTail(mr, n, t + 3, so - VarSize * 3, l, v);
    assert TempAt(t + 3, so - VarSize * 3, 5) == TempAt(t, so, 8);
  }

  /** The word before the first element holds what was stored at the
      allocated address. */
  lemma LengthWord(m: Machine, loc: Location, mem0: map<int, int>, p: int, v: int)
    requires Value(m, loc) == Some(p + VarSize) && m.mem == mem0[p := v]
    ensures Value(m, Deref(loc, -4)) == Some(v)
  {
    ReadThrough(m, loc, -4, p + VarSize);
  }

  /** GenNewArray's sequence is the size test and the halt, eight
      instructions, followed by the part after the label on its own. */
  lemma NewArraySplit(c: seq<Instr>, n: Location, t: nat, so: int, l: nat)
    ensures var code := NewArrayCode(c, n, t, so, l);
      var c2 := HaltCode(NewArrayTest(c, n, t, so, l), ErrArrBadSize, t + 2, so - VarSize * 2);
      var d := NewArrayAlloc([], n, t + 3, so - VarSize * 3, l);
      code == c2 + d && |c2| == |c| + 8 && |code| == |c| + 18 &&
      code[|c| + 8..] == d && code[|c| + 8] == Label(Lbl(l))
  {
    var c1 := NewArrayTest(c, n, t, so, l);
    HaltLength(c1, ErrArrBadSize, t + 2, so - VarSize * 2);
    AllocAppends(HaltCode(c1, ErrArrBadSize, t + 2, so - VarSize * 2), n, t + 3, so - VarSize * 3, l);
  }

  /** GenNewArray run from the start, for a length of at least 1: the run
      leaves the code at the IfZ for the label `l`, with the length, the
      heap, the parameter stack and the supply as they were. */
  lemma NewArrayJumps(m: Machine, c: seq<Instr>, n: Location, t: nat, so: int, l: nat, m0: Machine, v: int)
    requires Run(m, c) == Ran(m0) && Value(m0, n) == Some(v) && v >= 1 && Apart(n, so, 2)
    ensures var r := Run(m, NewArrayCode(c, n, t, so, l));
      r.Jumped? && r.target == Lbl(l) && Value(r.m, n) == Some(v) && r.m.mem == m0.mem &&
      r.m.stack == m0.stack && r.m.supply == m0.supply
  {
    var c1 := NewArrayTest(c, n, t, so, l);
    var c2 := HaltCode(c1, ErrArrBadSize, t + 2, so - VarSize * 2);
    NewArrayGuard(m, c, n, t, so, l, m0, v);
    HaltStays(m, c1, ErrArrBadSize, t + 2, so - VarSize * 2);
    NewArraySplit(c, n, t, so, l);
    RunStops(m, c2, NewArrayAlloc([], n, t + 3, so - VarSize * 3, l));
  }

  /** GenNewArray as a whole, for a length of at least 1 and an address
      `p` that the runtime's _Alloc returns: the run leaves the code at the
      IfZ for the label `l`, the instruction eight past the start; resumed
      there, on the part after the label, the code stores the length at `p`
      and yields p + VarSize, the first element's address, in its ninth
      temporary. */
  lemma NewArrayInRange(m: Machine, c: seq<Instr>, n: Location, t: nat, so: int, l: nat, m0: Machine, v: int)
    requires Run(m, c) == Ran(m0) && m0.supply != [] && Value(m0, n) == Some(v) && v >= 1
    requires Apart(n, so, 8)
    ensures var code := NewArrayCode(c, n, t, so, l);
      var r := Run(m, code);
      var d := NewArrayAlloc([], n, t + 3, so - VarSize * 3, l);
      r.Jumped? && r.target == Lbl(l) && |code| == |c| + 18 && code[|c| + 8] == Label(Lbl(l)) &&
      code[|c| + 8..] == d &&
      var r2 := Run(r.m, d);
      var p := m0.supply[0];
      r2.Ran? && Value(r2.m, TempAt(t, so, 8)) == Some(p + VarSize) && r2.m.mem == m0.mem[p := v] &&
      r2.m.stack == m0.stack
  {
    assert Apart(n, so, 2);
    NewArrayJumps(m, c, n, t, so, l, m0, v);
    NewArraySplit(c, n, t, so, l);
    var r := Run(m, NewArrayCode(c, n, t, so, l));
    NewArrayAllocRun(r.m, m0, n, t, so, l, v);
  }

  /** GenArrayLen's load: appended to a run that ended normally, it
      puts the word four bytes before the array's address into its
      temporary. */
  lemma ArrayLenRun(m: Machine, c: seq<Instr>, arr: Location, t: nat, so: int, m0: Machine, len: int)
    requires Run(m, c) == Ran(m0) && Value(m0, Deref(arr, -4)) == Some(len)
    ensures var r := Run(m, c + [Load(TempAt(t, so, 0), arr, -4)]);
      r.Ran? && Value(r.m, TempAt(t, so, 0)) == Some(len)
  {
    var a := Value(m0, arr).value;
    ExecLoad(m0, TempAt(t, so, 0), arr, -4, a, len);
    StepTemp(m, c, Load(TempAt(t, so, 0), arr, -4), m0, t, so, 0, len);
  }

  /** GenArrayLen after GenNewArray: resumed at the label on the part after
      it, the code followed by the length load reads back the requested
      length. */
  lemma NewArrayLength(mr: Machine, m0: Machine, n: Location, t: nat, so: int, l: nat, v: int, t': nat, so': int)
    requires mr.mem == m0.mem && mr.stack == m0.stack && mr.supply == m0.supply && m0.supply != []
    requires Value(mr, n) == Some(v) && Apart(n, so, 8)
    ensures var d := NewArrayAlloc([], n, t + 3, so - VarSize * 3, l);
      var r := Run(mr, d + [Load(TempAt(t', so', 0), TempAt(t, so, 8), -4)]);
      r.Ran? && Value(r.m, TempAt(t', so', 0)) == Some(v)
  {
    NewArrayAllocRun(mr, m0, n, t, so, l, v);
    var d := NewArrayAlloc([], n, t + 3, so - VarSize * 3, l);
    var r2 := Run(mr, d);
    LengthWord(r2.m, TempAt(t, so, 8), m0.mem, m0.supply[0], v);
    ArrayLenRun(mr, d, TempAt(t, so, 8), t', so', r2.m, v);
  }

  /** The part after the label appends ten instructions, starting with the
      label. */
  lemma AllocAppends(c: seq<Instr>, n: Location, t: nat, so: int, l: nat)
    ensures NewArrayAlloc(c, n, t, so, l) == c + NewArrayAlloc([], n, t, so, l)
    ensures |NewArrayAlloc([], n, t, so, l)| == 10 && NewArrayAlloc([], n, t, so, l)[0] == Label(Lbl(l))
  {
    var bytes, four, t4, so4 := TempAt(t, so, 3), TempAt(t, so, 2), t + 4, so - VarSize * 4;
    var size := NewArraySize([], n, t, so, l);
    var store := [PushParam(bytes), LCall(Id(Builtins[Alloc].runtimeLabel), Some(TempAt(t4, so4, 0))),
                  PopParams(VarSize), Store(TempAt(t4, so4, 0), n, 0),
                  BinaryOp(Add, TempAt(t4, so4, 1), TempAt(t4, so4, 0), four)];
    assert NewArraySize(c, n, t, so, l) == c + size;
    StoreAppends(c + size, n, bytes, four, t4, so4);
    StoreAppends(size, n, bytes, four, t4, so4);
    AppendAssoc(c, size, store);
  }

  /** The allocation part appends five instructions. */
  lemma StoreAppends(c: seq<Instr>, n: Location, bytes: Location, four: Location, t: nat, so: int)
    ensures NewArrayStore(c, n, bytes, four, t, so) ==
      c + [PushParam(bytes), LCall(Id(Builtins[Alloc].runtimeLabel), Some(TempAt(t, so, 0))),
           PopParams(VarSize), Store(TempAt(t, so, 0), n, 0),
           BinaryOp(Add, TempAt(t, so, 1), TempAt(t, so, 0), four)]
  {
    NewArrayStoreShape(c, n, bytes, four, t, so);
  }

  lemma AppendAssoc(a: seq<Instr>, b: seq<Instr>, c: seq<Instr>)
    ensures (a + b) + c == a + (b + c)
  {
  }
}
