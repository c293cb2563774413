/** The TAC builder (class CodeGenerator): each Gen method appends
    instructions to `code`, handing out fresh temporaries and labels from
    two counters that only grow, frame slots downwards from the current
    stack offset and global slots upwards from the current global offset. */
module CodeGen {
  import opened Tac
  import Cfg
  import Liveness

  // ---------------------------------------------------------------------
  // The table of runtime built-ins

  /** Indices of the built-in runtime routines (enum BuiltIn). */
  const Alloc: nat := 0
  const ReadLine: nat := 1
  const ReadInteger: nat := 2
  const StringEqual: nat := 3
  const PrintInt: nat := 4
  const PrintString: nat := 5
  const PrintBool: nat := 6
  const Halt: nat := 7
  const NumBuiltIns: nat := 8

  datatype BuiltinEntry = BuiltinEntry(runtimeLabel: string, numArgs: nat, hasReturn: bool)

  /** Runtime label, argument count and presence of a result, per built-in. */
  const Builtins: seq<BuiltinEntry> := [
    BuiltinEntry("_Alloc", 1, true),
    BuiltinEntry("_ReadLine", 0, true),
    BuiltinEntry("_ReadInteger", 0, true),
    BuiltinEntry("_StringEqual", 2, true),
    BuiltinEntry("_PrintInt", 1, false),
    BuiltinEntry("_PrintString", 1, false),
    BuiltinEntry("_PrintBool", 1, false),
    BuiltinEntry("_Halt", 0, false)
  ]

  /** The non-null arguments are exactly the first `numArgs`. */
  predicate ArgsMatch(numArgs: nat, arg1: Option<Location>, arg2: Option<Location>) {
    (numArgs == 0 && arg1.None? && arg2.None?) ||
    (numArgs == 1 && arg1.Some? && arg2.None?) ||
    (numArgs == 2 && arg1.Some? && arg2.Some?)
  }

  /** Runtime messages of the inline halt sequences (their text is defined
      outside this model and is represented by the identifiers). */
  const ErrArrOutOfBounds: string := "err_arr_out_of_bounds"
  const ErrArrBadSize: string := "err_arr_bad_size"

  // ---------------------------------------------------------------------
  // The instruction sequences the composite Gen methods emit

  /** The k-th temporary handed out when the temporary counter is `t` and
      the stack offset is `so`. */
  function TempAt(t: nat, so: int, k: nat): Location {
    Var(FpRelative, so - VarSize * k, Tmp(t + k))
  }

  // Each function below takes the code emitted so far, `c`, and yields `c`
  // followed by what the corresponding Gen method appends.

  /** PushParam of every argument, last argument first. */
  function Pushes(c: seq<Instr>, args: seq<Location>): seq<Instr> {
    if args == [] then c else Pushes(c, args[1..]) + [PushParam(args[0])]
  }

  /** GenPopParams: nothing when no bytes are to be popped. */
  function PopCode(c: seq<Instr>, numBytes: int): seq<Instr> {
    if numBytes > 0 then c + [PopParams(numBytes)] else c
  }

  function OptPush(c: seq<Instr>, arg: Option<Location>): seq<Instr> {
    if arg.Some? then c + [PushParam(arg.value)] else c
  }

  function BuiltinCallCode(c: seq<Instr>, bn: nat, arg1: Option<Location>, arg2: Option<Location>,
                           result: Option<Location>): seq<Instr>
    requires bn < NumBuiltIns
  {
    PopCode(OptPush(OptPush(c, arg2), arg1) + [LCall(Id(Builtins[bn].runtimeLabel), result)],
            VarSize * Builtins[bn].numArgs)
  }

  function FunctionCallCode(c: seq<Instr>, fnLabel: Name, args: seq<Location>,
                            result: Option<Location>): seq<Instr> {
    PopCode(Pushes(c, args) + [LCall(fnLabel, result)], |args| * VarSize)
  }

  function MethodCallCode(c: seq<Instr>, rcvr: Location, meth: Location, args: seq<Location>,
                          result: Option<Location>): seq<Instr> {
    PopCode(Pushes(c, args) + [PushParam(rcvr)] + [ACall(meth, result)], (|args| + 1) * VarSize)
  }

  /** GenHaltWithMessage: print the message, then stop the program. */
  function HaltCode(c: seq<Instr>, msg: string, t: nat, so: int): seq<Instr> {
    var c1 := c + [LoadStringConstant(TempAt(t, so, 0), msg)];
    BuiltinCallCode(BuiltinCallCode(c1, PrintString, Some(TempAt(t, so, 0)), None, None), Halt, None, None, None)
  }

  /** The bounds test of GenSubscript: index < 0, or not index < length,
      where the length is the word before the first element. */
  function SubscriptRange(c: seq<Instr>, arr: Location, idx: Location, t: nat, so: int): seq<Instr> {
    c + [LoadConstant(TempAt(t, so, 0), 0)]
      + [BinaryOp(Less, TempAt(t, so, 1), idx, TempAt(t, so, 0))]
      + [Load(TempAt(t, so, 2), arr, -4)]
      + [BinaryOp(Less, TempAt(t, so, 3), idx, TempAt(t, so, 2))]
      + [BinaryOp(Eq, TempAt(t, so, 4), TempAt(t, so, 3), TempAt(t, so, 0))]
      + [BinaryOp(Or, TempAt(t, so, 5), TempAt(t, so, 1), TempAt(t, so, 4))]
  }

  /** The IfZ after the bounds test jumps past the halt when the test is 0. */
  function SubscriptTest(c: seq<Instr>, arr: Location, idx: Location, t: nat, so: int, l: nat): seq<Instr> {
    SubscriptRange(c, arr, idx, t, so) + [IfZ(TempAt(t, so, 5), Lbl(l))]
  }

  /** The label, then the element address arr + VarSize * idx (temporary
      numbering local to this part). */
  function SubscriptAddress(c: seq<Instr>, arr: Location, idx: Location, t: nat, so: int, l: nat): seq<Instr> {
    c + [Label(Lbl(l))]
      + [LoadConstant(TempAt(t, so, 0), VarSize)]
      + [BinaryOp(Mul, TempAt(t, so, 1), TempAt(t, so, 0), idx)]
      + [BinaryOp(Add, TempAt(t, so, 2), arr, TempAt(t, so, 1))]
  }

  /** GenSubscript: bounds test, inline halt, element address. */
  function SubscriptCode(c: seq<Instr>, arr: Location, idx: Location, t: nat, so: int, l: nat): seq<Instr> {
    var c1 := SubscriptTest(c, arr, idx, t, so, l);
    var c2 := HaltCode(c1, ErrArrOutOfBounds, t + 6, so - VarSize * 6);
    SubscriptAddress(c2, arr, idx, t + 7, so - VarSize * 7, l)
  }

  /** The size test of GenNewArray: the IfZ jumps past the halt unless
      n < 1. */
  function NewArrayTest(c: seq<Instr>, n: Location, t: nat, so: int, l: nat): seq<Instr> {
    c + [LoadConstant(TempAt(t, so, 0), 1)]
      + [BinaryOp(Less, TempAt(t, so, 1), n, TempAt(t, so, 0))]
      + [IfZ(TempAt(t, so, 1), Lbl(l))]
  }

  /** The label, then the byte count (1 + n) * VarSize: one word more than
      the elements, for the length (temporary numbering local to this part). */
  function NewArraySize(c: seq<Instr>, n: Location, t: nat, so: int, l: nat): seq<Instr> {
    c + [Label(Lbl(l))]
      + [LoadConstant(TempAt(t, so, 0), 1)]
      + [BinaryOp(Add, TempAt(t, so, 1), TempAt(t, so, 0), n)]
      + [LoadConstant(TempAt(t, so, 2), VarSize)]
      + [BinaryOp(Mul, TempAt(t, so, 3), TempAt(t, so, 1), TempAt(t, so, 2))]
  }

  /** Allocate `bytes`, store n in the first word and yield the address of
      the second, `four` bytes further (temporary numbering local to this
      part). */
  function NewArrayStore(c: seq<Instr>, n: Location, bytes: Location, four: Location, t: nat, so: int): seq<Instr> {
    BuiltinCallCode(c, Alloc, Some(bytes), None, Some(TempAt(t, so, 0)))
      + [Store(TempAt(t, so, 0), n, 0)]
      + [BinaryOp(Add, TempAt(t, so, 1), TempAt(t, so, 0), four)]
  }

  /** The part of GenNewArray after its label. */
  function NewArrayAlloc(c: seq<Instr>, n: Location, t: nat, so: int, l: nat): seq<Instr> {
    NewArrayStore(NewArraySize(c, n, t, so, l), n, TempAt(t, so, 3), TempAt(t, so, 2), t + 4, so - VarSize * 4)
  }

  /** GenNewArray: size test, inline halt, allocation with a length word. */
  function NewArrayCode(c: seq<Instr>, n: Location, t: nat, so: int, l: nat): seq<Instr> {
    var c1 := NewArrayTest(c, n, t, so, l);
    var c2 := HaltCode(c1, ErrArrBadSize, t + 2, so - VarSize * 2);
    NewArrayAlloc(c2, n, t + 3, so - VarSize * 3, l)
  }

  /** The inline halt is five instructions: load the message, push it,
      call _PrintString, pop it, call _Halt. */
  lemma HaltLength(c: seq<Instr>, msg: string, t: nat, so: int)
    ensures |HaltCode(c, msg, t, so)| == |c| + 5
  {
    assert Builtins[PrintString].numArgs == 1 && Builtins[Halt].numArgs == 0;
  }

  /** The three parts of GenSubscript, emitted one after the other, make up
      its whole sequence; the label comes twelve instructions in. */
  lemma SubscriptParts(c0: seq<Instr>, c1: seq<Instr>, c2: seq<Instr>, c3: seq<Instr>,
                       arr: Location, idx: Location, t: nat, so: int, l: nat,
                       t1: nat, so1: int, t2: nat, so2: int, elem: Location)
    requires t1 == t + 6 && so1 == so - VarSize * 6 && t2 == t + 7 && so2 == so - VarSize * 7
    requires c1 == SubscriptTest(c0, arr, idx, t, so, l)
    requires c2 == HaltCode(c1, ErrArrOutOfBounds, t1, so1)
    requires c3 == SubscriptAddress(c2, arr, idx, t2, so2, l)
    requires elem == TempAt(t2, so2, 2)
    ensures c3 == SubscriptCode(c0, arr, idx, t, so, l) && |c2| == |c0| + 12 && elem == TempAt(t, so, 9)
  {
    HaltLength(c1, ErrArrOutOfBounds, t1, so1);
    assert c2 == HaltCode(SubscriptTest(c0, arr, idx, t, so, l), ErrArrOutOfBounds, t + 6, so - VarSize * 6);
  }

  /** The four parts of GenNewArray likewise; the label comes eight
      instructions in. */
  lemma NewArrayParts(c0: seq<Instr>, c1: seq<Instr>, c2: seq<Instr>, c3: seq<Instr>, c4: seq<Instr>,
                      n: Location, t: nat, so: int, l: nat,
                      t1: nat, so1: int, t2: nat, so2: int, t3: nat, so3: int, r: Location)
    requires t1 == t + 2 && so1 == so - VarSize * 2 && t2 == t + 3 && so2 == so - VarSize * 3
    requires t3 == t2 + 4 && so3 == so2 - VarSize * 4
    requires c1 == NewArrayTest(c0, n, t, so, l)
    requires c2 == HaltCode(c1, ErrArrBadSize, t1, so1)
    requires c3 == NewArraySize(c2, n, t2, so2, l)
    requires c4 == NewArrayStore(c3, n, TempAt(t2, so2, 3), TempAt(t2, so2, 2), t3, so3)
    requires r == TempAt(t3, so3, 1)
    ensures c4 == NewArrayCode(c0, n, t, so, l) && |c2| == |c0| + 8 && r == TempAt(t, so, 8)
  {
    HaltLength(c1, ErrArrBadSize, t1, so1);
    assert c2 == HaltCode(NewArrayTest(c0, n, t, so, l), ErrArrBadSize, t + 2, so - VarSize * 2);
    assert c4 == NewArrayAlloc(c2, n, t + 3, so - VarSize * 3, l);
  }

  /** GenNew: allocate the instance, store the vtable label in its first word. */
  function NewCode(c: seq<Instr>, vTableLabel: Name, instanceSize: int, t: nat, so: int): seq<Instr> {
    var c1 := c + [LoadConstant(TempAt(t, so, 0), instanceSize)];
    BuiltinCallCode(c1, Alloc, Some(TempAt(t, so, 0)), None, Some(TempAt(t, so, 1)))
      + [LoadLabel(TempAt(t, so, 2), vTableLabel)]
      + [Store(TempAt(t, so, 1), TempAt(t, so, 2), 0)]
  }

  /** GenDynamicDispatch: vtable pointer, method address, then the call. */
  function DispatchCode(c: seq<Instr>, rcvr: Location, vtableOffset: int, args: seq<Location>,
                        result: Option<Location>, t: nat, so: int): seq<Instr> {
    var c1 := c + [Load(TempAt(t, so, 0), rcvr, 0)] + [Load(TempAt(t, so, 1), TempAt(t, so, 0), vtableOffset * 4)];
    MethodCallCode(c1, rcvr, TempAt(t, so, 1), args, result)
  }

  /** Offset of the k-th frame slot handed out below `base` (slots grow
      downwards, one word each). */
  function SlotOffset(base: int, k: nat): int {
    base - VarSize * k
  }

  /** Offset of the k-th global slot (globals grow upwards from 0). */
  function GlobalOffset(k: nat): int {
    VarSize * k
  }

  /** Offset of the first formal: one more word for a method's receiver. */
  function FirstFormalOffset(isMethod: bool): int {
    if isMethod then OffsetToFirstParam + VarSize else OffsetToFirstParam
  }

  /** The formals' locations: one word each, upwards from `start`. */
  method LayOutFormals(formals: seq<Name>, start: int) returns (locs: seq<Location>)
    ensures |locs| == |formals|
    ensures forall i :: 0 <= i < |formals| ==> locs[i] == Var(FpRelative, start + i * VarSize, formals[i])
  {
    locs := [];
    var i := 0;
    while i < |formals|
      invariant 0 <= i <= |formals| && |locs| == i
      invariant forall j :: 0 <= j < i ==> locs[j] == Var(FpRelative, start + j * VarSize, formals[j])
    {
      locs := locs + [Var(FpRelative, start + i * VarSize, formals[i])];
      i := i + 1;
    }
  }

  /** A successor map read as one list per instruction index below `n`
      (an index without an entry has none). */
  function EdgeList(e: map<nat, seq<nat>>, n: nat): (r: seq<seq<nat>>)
    ensures |r| == n && forall i :: 0 <= i < n ==> r[i] == (if i in e then e[i] else [])
  {
    seq(n, i requires 0 <= i < n => if i in e then e[i] else [])
  }

  /** Storing the lists of a region into the map yields exactly the
      extended lists, and keeps every successor an index below `n`. */
  lemma StoredEdges(e: map<nat, seq<nat>>, n: nat, begin: nat, end: nat, newEdges: seq<seq<nat>>)
    requires |newEdges| == n && end <= n
    requires forall i :: 0 <= i < n && !(begin <= i < end) ==> newEdges[i] == EdgeList(e, n)[i]
    requires Cfg.EdgesIn(newEdges, n)
    requires forall i :: i in e ==> forall k :: 0 <= k < |e[i]| ==> e[i][k] < n
    ensures EdgeList(e + (map i | begin <= i < end :: newEdges[i]), n) == newEdges
    ensures var e' := e + (map i | begin <= i < end :: newEdges[i]);
      forall i :: i in e' ==> forall k :: 0 <= k < |e'[i]| ==> e'[i][k] < n
  {
    var e' := e + (map i | begin <= i < end :: newEdges[i]);
    assert forall i :: 0 <= i < n ==> EdgeList(e', n)[i] == newEdges[i];
  }

  // ---------------------------------------------------------------------
  // The builder

  class CodeGenerator {
    var code: seq<Instr>
    var labels: map<Name, nat>
    var nextLabelNum: nat
    var nextTempNum: nat
    var curStackOffset: int
    var curGlobalOffset: int
    /** Index of the BeginFunc of the function being emitted, if any. */
    var insideFn: Option<nat>
    /** Successor lists, per instruction index (createCFG). */
    var edges: map<nat, seq<nat>>
    /** Liveness results, per instruction index. */
    var liveIn: map<nat, seq<Name>>
    var liveOut: map<nat, seq<Name>>

    /** Frame offset at which the current run of frame slots started. */
    ghost var frameBase: int
    /** Number of frame slots handed out since then. */
    ghost var frameCount: nat
    /** Number of global slots handed out. */
    ghost var globalCount: nat

    ghost predicate Valid()
      reads this`code, this`labels, this`nextLabelNum, this`nextTempNum, this`insideFn, this`edges
      reads this`curStackOffset, this`frameBase, this`frameCount, this`curGlobalOffset, this`globalCount
    {
      Cfg.LabelsMarked(code, labels) &&
      (insideFn.Some? ==>
        insideFn.value < |code| && code[insideFn.value].BeginFunc? && frameBase == OffsetToFirstLocal) &&
      curStackOffset == SlotOffset(frameBase, frameCount) &&
      curGlobalOffset == GlobalOffset(globalCount) &&
      (forall i :: i in edges ==> forall k :: 0 <= k < |edges[i]| ==> edges[i][k] < |code|)
    }

    /** Since the old state, the code became `newCode` and `temps` fresh
        temporaries were handed out, each in a fresh frame slot. */
    twostate predicate Emitted(newCode: seq<Instr>, temps: nat)
      reads this`code, this`nextTempNum, this`curStackOffset
    {
      code == newCode &&
      nextTempNum == old(nextTempNum) + temps &&
      curStackOffset == old(curStackOffset) - VarSize * temps
    }

    /** Appends one instruction. */
    method Emit(ins: Instr)
      requires Valid()
      modifies this`code
      ensures Valid()
      ensures code == old(code) + [ins]
    {
      code := code + [ins];
    }

    constructor ()
      ensures Valid()
      ensures code == [] && labels == map[] && edges == map[] && liveIn == map[] && liveOut == map[]
      ensures nextLabelNum == 0 && nextTempNum == 0 && curGlobalOffset == 0 && insideFn == None
      ensures curStackOffset == 0 && frameCount == 0
    {
      code := [];
      labels := map[];
      nextLabelNum := 0;
      nextTempNum := 0;
      curStackOffset := 0;
      curGlobalOffset := 0;
      insideFn := None;
      edges := map[];
      liveIn := map[];
      liveOut := map[];
      frameBase := 0;
      frameCount := 0;
      globalCount := 0;
    }

    /** A fresh label "_L<n>": the label counter moves on. */
    method NewLabel() returns (l: Name)
      requires Valid()
      modifies this`nextLabelNum
      ensures Valid()
      ensures l == Lbl(old(nextLabelNum)) && nextLabelNum == old(nextLabelNum) + 1
    {
      l := Lbl(nextLabelNum);
      nextLabelNum := nextLabelNum + 1;
    }

    /** A local variable: the stack offset moves down one word, and the
        variable gets the slot above it, which no earlier slot of this frame
        has. */
    method GenLocalVariable(varName: Name) returns (r: Location)
      requires Valid()
      modifies this`curStackOffset, this`frameCount
      ensures Valid()
      ensures r == Var(FpRelative, old(curStackOffset), varName)
      ensures curStackOffset == old(curStackOffset) - VarSize
      ensures frameCount == old(frameCount) + 1 && r.offset == SlotOffset(frameBase, old(frameCount))
      ensures forall k :: 0 <= k < old(frameCount) ==> SlotOffset(frameBase, k) != r.offset
    {
      curStackOffset := curStackOffset - VarSize;
      r := Var(FpRelative, curStackOffset + 4, varName);
      frameCount := frameCount + 1;
    }

    /** A global variable: the global offset moves up one word, and the
        variable gets the slot below it, which no earlier global has. */
    method GenGlobalVariable(varName: Name) returns (r: Location)
      requires Valid()
      modifies this`curGlobalOffset, this`globalCount
      ensures Valid()
      ensures r == Var(GpRelative, old(curGlobalOffset), varName)
      ensures curGlobalOffset == old(curGlobalOffset) + VarSize
      ensures globalCount == old(globalCount) + 1 && r.offset == GlobalOffset(old(globalCount))
      ensures forall k :: 0 <= k < old(globalCount) ==> GlobalOffset(k) != r.offset
    {
      curGlobalOffset := curGlobalOffset + VarSize;
      r := Var(GpRelative, curGlobalOffset - 4, varName);
      globalCount := globalCount + 1;
    }

    /** A fresh temporary "_tmp<n>" in a fresh frame slot. */
    method GenTempVar() returns (r: Location)
      requires Valid()
      modifies this`nextTempNum, this`curStackOffset, this`frameCount
      ensures Valid()
      ensures r == TempAt(old(nextTempNum), old(curStackOffset), 0)
      ensures nextTempNum == old(nextTempNum) + 1
      ensures curStackOffset == old(curStackOffset) - VarSize
      ensures forall k :: 0 <= k < old(frameCount) ==> SlotOffset(frameBase, k) != r.offset
    {
      var name := Tmp(nextTempNum);
      nextTempNum := nextTempNum + 1;
      r := GenLocalVariable(name);
    }

    method GenLoadConstant(value: int) returns (r: Location)
      requires Valid()
      modifies this`code, this`nextTempNum, this`curStackOffset, this`frameCount
      ensures Valid()
      ensures r == TempAt(old(nextTempNum), old(curStackOffset), 0)
      ensures Emitted(old(code) + [LoadConstant(r, value)], 1)
    {
      r := GenTempVar();
      Emit(LoadConstant(r, value));
    }

    /** GenLoadConstant for a string literal. */
    method GenLoadStringConstant(s: string) returns (r: Location)
      requires Valid()
      modifies this`code, this`nextTempNum, this`curStackOffset, this`frameCount
      ensures Valid()
      ensures r == TempAt(old(nextTempNum), old(curStackOffset), 0)
      ensures Emitted(old(code) + [LoadStringConstant(r, s)], 1)
    {
      r := GenTempVar();
      Emit(LoadStringConstant(r, s));
    }

    method GenLoadLabel(lbl: Name) returns (r: Location)
      requires Valid()
      modifies this`code, this`nextTempNum, this`curStackOffset, this`frameCount
      ensures Valid()
      ensures r == TempAt(old(nextTempNum), old(curStackOffset), 0)
      ensures Emitted(old(code) + [LoadLabel(r, lbl)], 1)
    {
      r := GenTempVar();
      Emit(LoadLabel(r, lbl));
    }

    method GenAssign(dst: Location, src: Location)
      requires Valid()
      modifies this`code
      ensures Valid()
      ensures code == old(code) + [Assign(dst, src)]
    {
      Emit(Assign(dst, src));
    }

    method GenLoad(ref: Location, offset: int) returns (r: Location)
      requires Valid()
      modifies this`code, this`nextTempNum, this`curStackOffset, this`frameCount
      ensures Valid()
      ensures r == TempAt(old(nextTempNum), old(curStackOffset), 0)
      ensures Emitted(old(code) + [Load(r, ref, offset)], 1)
    {
      r := GenTempVar();
      Emit(Load(r, ref, offset));
    }

    method GenStore(dst: Location, src: Location, offset: int)
      requires Valid()
      modifies this`code
      ensures Valid()
      ensures code == old(code) + [Store(dst, src, offset)]
    {
      Emit(Store(dst, src, offset));
    }

    method GenBinaryOp(op: Opcode, op1: Location, op2: Location) returns (r: Location)
      requires Valid()
      modifies this`code, this`nextTempNum, this`curStackOffset, this`frameCount
      ensures Valid()
      ensures r == TempAt(old(nextTempNum), old(curStackOffset), 0)
      ensures Emitted(old(code) + [BinaryOp(op, r, op1, op2)], 1)
    {
      r := GenTempVar();
      Emit(BinaryOp(op, r, op1, op2));
    }

    /** Appends a Label and binds its name to that very instruction. */
    method GenLabel(lbl: Name)
      requires Valid()
      modifies this`code, this`labels
      ensures Valid()
      ensures code == old(code) + [Label(lbl)]
      ensures labels == old(labels)[lbl := |old(code)|]
    {
      labels := labels[lbl := |code|];
      code := code + [Label(lbl)];
    }

    method GenIfZ(test: Location, lbl: Name)
      requires Valid()
      modifies this`code
      ensures Valid()
      ensures code == old(code) + [IfZ(test, lbl)]
    {
      Emit(IfZ(test, lbl));
    }

    method GenGoto(lbl: Name)
      requires Valid()
      modifies this`code
      ensures Valid()
      ensures code == old(code) + [Goto(lbl)]
    {
      Emit(Goto(lbl));
    }

    method GenReturn(val: Option<Location>)
      requires Valid()
      modifies this`code
      ensures Valid()
      ensures code == old(code) + [Return(val)]
    {
      Emit(Return(val));
    }

    /** Opens a function: appends its BeginFunc (frame size not yet known),
        lays out the formals upwards from the first-parameter offset (one
        word further for a method's receiver) and starts the locals at the
        first-local offset. */
    method GenBeginFunc(formals: seq<Name>, isMethod: bool) returns (formalLocs: seq<Location>)
      requires Valid()
      modifies this`code, this`insideFn, this`curStackOffset, this`frameBase, this`frameCount
      ensures Valid()
      ensures code == old(code) + [BeginFunc(None)] && insideFn == Some(|old(code)|)
      ensures curStackOffset == OffsetToFirstLocal && frameCount == 0
      ensures |formalLocs| == |formals|
      ensures forall i :: 0 <= i < |formals| ==>
        formalLocs[i] == Var(FpRelative, FirstFormalOffset(isMethod) + i * VarSize, formals[i])
    {
      insideFn := Some(|code|);
      code := code + [BeginFunc(None)];
      var start := OffsetToFirstParam;
      if isMethod {
        start := start + VarSize;
      }
      formalLocs := LayOutFormals(formals, start);
      curStackOffset := OffsetToFirstLocal;
      frameBase := OffsetToFirstLocal;
      frameCount := 0;
    }

    /** Closes the function: appends EndFunc, back-patches the BeginFunc's
        frame size with the stack growth since it (one word per slot handed
        out, never negative), and leaves the function. */
    method GenEndFunc()
      requires Valid() && insideFn.Some?
      modifies this`code, this`insideFn
      ensures Valid() && insideFn == None
      ensures OffsetToFirstLocal - old(curStackOffset) == VarSize * old(frameCount) >= 0
      ensures code == old(code)[old(insideFn).value := BeginFunc(Some(VarSize * old(frameCount)))] + [EndFunc]
    {
      var bf := insideFn.value;
      code := code + [EndFunc];
      code := code[bf := BeginFunc(Some(OffsetToFirstLocal - curStackOffset))];
      insideFn := None;
    }

    method GenPushParam(param: Location)
      requires Valid()
      modifies this`code
      ensures Valid()
      ensures code == old(code) + [PushParam(param)]
    {
      Emit(PushParam(param));
    }

    /** Pops a whole number of words; nothing is emitted for zero bytes. */
    method GenPopParams(numBytesOfParams: int)
      requires Valid()
      requires numBytesOfParams >= 0 && numBytesOfParams % VarSize == 0
      modifies this`code
      ensures Valid()
      ensures code == PopCode(old(code), numBytesOfParams)
    {
      if numBytesOfParams > 0 {
        Emit(PopParams(numBytesOfParams));
      }
    }

    /** The result temporary exists exactly when the callee returns a value. */
    method GenLCall(lbl: Name, fnHasReturnValue: bool) returns (result: Option<Location>)
      requires Valid()
      modifies this`code, this`nextTempNum, this`curStackOffset, this`frameCount
      ensures Valid()
      ensures result.Some? <==> fnHasReturnValue
      ensures result.Some? ==> result.value == TempAt(old(nextTempNum), old(curStackOffset), 0)
      ensures Emitted(old(code) + [LCall(lbl, result)], if fnHasReturnValue then 1 else 0)
    {
      result := None;
      if fnHasReturnValue {
        var t := GenTempVar();
        result := Some(t);
      }
      Emit(LCall(lbl, result));
    }

    /** Pushes args[i..] last to first. */
    method PushArgs(args: seq<Location>)
      requires Valid()
      modifies this`code
      ensures Valid()
      ensures code == Pushes(old(code), args)
    {
      var i := |args| - 1;
      while i >= 0
        invariant -1 <= i < |args|
        invariant Valid()
        invariant code == Pushes(old(code), args[i + 1..])
      {
        assert args[i..][1..] == args[i + 1..];
        GenPushParam(args[i]);
        i := i - 1;
      }
    }

    /** A direct call: arguments pushed right to left, the call, one pop of
        all the argument words. */
    method GenFunctionCall(fnLabel: Name, args: seq<Location>, hasReturnValue: bool)
      returns (result: Option<Location>)
      requires Valid()
      modifies this`code, this`nextTempNum, this`curStackOffset, this`frameCount
      ensures Valid()
      ensures result.Some? <==> hasReturnValue
      ensures result.Some? ==> result.value == TempAt(old(nextTempNum), old(curStackOffset), 0)
      ensures Emitted(FunctionCallCode(old(code), fnLabel, args, result), if hasReturnValue then 1 else 0)
    {
      PushArgs(args);
      result := GenLCall(fnLabel, hasReturnValue);
      GenPopParams(|args| * VarSize);
    }

    method GenACall(fnAddr: Location, fnHasReturnValue: bool) returns (result: Option<Location>)
      requires Valid()
      modifies this`code, this`nextTempNum, this`curStackOffset, this`frameCount
      ensures Valid()
      ensures result.Some? <==> fnHasReturnValue
      ensures result.Some? ==> result.value == TempAt(old(nextTempNum), old(curStackOffset), 0)
      ensures Emitted(old(code) + [ACall(fnAddr, result)], if fnHasReturnValue then 1 else 0)
    {
      result := None;
      if fnHasReturnValue {
        var t := GenTempVar();
        result := Some(t);
      }
      Emit(ACall(fnAddr, result));
    }

    /** A method call: arguments right to left, then the receiver as the
        hidden "this" parameter, the call through `meth`, one pop. */
    method GenMethodCall(rcvr: Location, meth: Location, args: seq<Location>, fnHasReturnValue: bool)
      returns (result: Option<Location>)
      requires Valid()
      modifies this`code, this`nextTempNum, this`curStackOffset, this`frameCount
      ensures Valid()
      ensures result.Some? <==> fnHasReturnValue
      ensures result.Some? ==> result.value == TempAt(old(nextTempNum), old(curStackOffset), 0)
      ensures Emitted(MethodCallCode(old(code), rcvr, meth, args, result), if fnHasReturnValue then 1 else 0)
    {
      PushArgs(args);
      GenPushParam(rcvr);
      result := GenACall(meth, fnHasReturnValue);
      GenPopParams((|args| + 1) * VarSize);
    }

    /** A call of a runtime built-in: the table gives its label, arity and
        result; the non-null arguments must match the arity. */
    method GenBuiltInCall(bn: int, arg1: Option<Location>, arg2: Option<Location>)
      returns (result: Option<Location>)
      requires Valid()
      requires 0 <= bn < NumBuiltIns
      requires ArgsMatch(Builtins[bn].numArgs, arg1, arg2)
      modifies this`code, this`nextTempNum, this`curStackOffset, this`frameCount
      ensures Valid()
      ensures result.Some? <==> Builtins[bn].hasReturn
      ensures result.Some? ==> result.value == TempAt(old(nextTempNum), old(curStackOffset), 0)
      ensures Emitted(BuiltinCallCode(old(code), bn, arg1, arg2, result), if Builtins[bn].hasReturn then 1 else 0)
    {
      var b := Builtins[bn];
      result := None;
      if b.hasReturn {
        var t := GenTempVar();
        result := Some(t);
      }
      ghost var c0 := code;
      if arg2.Some? {
        Emit(PushParam(arg2.value));
      }
      if arg1.Some? {
        Emit(PushParam(arg1.value));
      }
      assert code == OptPush(OptPush(c0, arg2), arg1);
      Emit(LCall(Id(b.runtimeLabel), result));
      GenPopParams(VarSize * b.numArgs);
      assert c0 == old(code);
      assert nextTempNum == old(nextTempNum) + if b.hasReturn then 1 else 0;
      assert curStackOffset == old(curStackOffset) - VarSize * if b.hasReturn then 1 else 0;
    }

    method GenVTable(className: string, methodLabels: seq<Name>)
      requires Valid()
      modifies this`code
      ensures Valid()
      ensures code == old(code) + [VTable(className, methodLabels)]
    {
      Emit(VTable(className, methodLabels));
    }

    /** The length of an array is the word just before its first element. */
    method GenArrayLen(arr: Location) returns (r: Location)
      requires Valid()
      modifies this`code, this`nextTempNum, this`curStackOffset, this`frameCount
      ensures Valid()
      ensures r == TempAt(old(nextTempNum), old(curStackOffset), 0)
      ensures Emitted(old(code) + [Load(r, arr, -4)], 1)
    {
      r := GenLoad(arr, -4);
    }

    method GenNew(vTableLabel: Name, instanceSize: int) returns (r: Location)
      requires Valid()
      modifies this`code, this`nextTempNum, this`curStackOffset, this`frameCount
      ensures Valid()
      ensures r == TempAt(old(nextTempNum), old(curStackOffset), 1)
      ensures Emitted(NewCode(old(code), vTableLabel, instanceSize, old(nextTempNum), old(curStackOffset)), 3)
    {
      var size := GenLoadConstant(instanceSize);
      var result := GenBuiltInCall(Alloc, Some(size), None);
      r := result.value;
      var vt := GenLoadLabel(vTableLabel);
      GenStore(r, vt, 0);
    }

    /** Loads the receiver's vtable pointer, then the method address at
        `vtableOffset` words into the vtable, then calls it as a method. */
    method GenDynamicDispatch(rcvr: Location, vtableOffset: int, args: seq<Location>, hasReturnValue: bool)
      returns (result: Option<Location>)
      requires Valid()
      requires vtableOffset >= 0
      modifies this`code, this`nextTempNum, this`curStackOffset, this`frameCount
      ensures Valid()
      ensures result.Some? <==> hasReturnValue
      ensures result.Some? ==> result.value == TempAt(old(nextTempNum), old(curStackOffset), 2)
      ensures Emitted(DispatchCode(old(code), rcvr, vtableOffset, args, result, old(nextTempNum), old(curStackOffset)),
                      if hasReturnValue then 3 else 2)
    {
      var vptr := GenLoad(rcvr, 0);
      var m := GenLoad(vptr, vtableOffset * 4);
      result := GenMethodCall(rcvr, m, args, hasReturnValue);
    }

    /** Prints `message` and halts the program. */
    method GenHaltWithMessage(message: string)
      requires Valid()
      modifies this`code, this`nextTempNum, this`curStackOffset, this`frameCount
      ensures Valid()
      ensures Emitted(HaltCode(old(code), message, old(nextTempNum), old(curStackOffset)), 1)
    {
      var msg := GenLoadStringConstant(message);
      var _ := GenBuiltInCall(PrintString, Some(msg), None);
      var _ := GenBuiltInCall(Halt, None, None);
    }

    /** GenSubscript, first part: the bounds test. */
    method SubscriptRangePart(arr: Location, index: Location) returns (outOfRange: Location)
      requires Valid()
      modifies this`code, this`nextTempNum, this`curStackOffset, this`frameCount
      ensures Valid()
      ensures outOfRange == TempAt(old(nextTempNum), old(curStackOffset), 5)
      ensures Emitted(SubscriptRange(old(code), arr, index, old(nextTempNum), old(curStackOffset)), 6)
    {
      ghost var t, so := nextTempNum, curStackOffset;
      var zero := GenLoadConstant(0);
      var isNegative := GenBinaryOp(Less, index, zero);
      assert isNegative == TempAt(t, so, 1);
      var count := GenLoad(arr, -4);
      assert count == TempAt(t, so, 2);
      var isWithinRange := GenBinaryOp(Less, index, count);
      assert isWithinRange == TempAt(t, so, 3);
      var pastEnd := GenBinaryOp(Eq, isWithinRange, zero);
      assert pastEnd == TempAt(t, so, 4);
      outOfRange := GenBinaryOp(Or, isNegative, pastEnd);
    }

    /** GenSubscript, second part: the IfZ that skips the halt, to the fresh
        label returned. */
    method SubscriptTestPart(arr: Location, index: Location) returns (pastError: Name)
      requires Valid()
      modifies this`code, this`nextTempNum, this`curStackOffset, this`frameCount, this`nextLabelNum
      ensures Valid()
      ensures pastError == Lbl(old(nextLabelNum)) && nextLabelNum == old(nextLabelNum) + 1
      ensures Emitted(SubscriptTest(old(code), arr, index, old(nextTempNum), old(curStackOffset), old(nextLabelNum)), 6)
    {
      var outOfRange := SubscriptRangePart(arr, index);
      pastError := NewLabel();
      GenIfZ(outOfRange, pastError);
    }

    /** GenSubscript, last part: binds the label, then computes the element
        address. */
    method SubscriptAddressPart(arr: Location, index: Location, pastError: nat) returns (elem: Location)
      requires Valid()
      modifies this`code, this`nextTempNum, this`curStackOffset, this`frameCount, this`labels
      ensures Valid()
      ensures elem == TempAt(old(nextTempNum), old(curStackOffset), 2)
      ensures labels == old(labels)[Lbl(pastError) := |old(code)|]
      ensures Emitted(SubscriptAddress(old(code), arr, index, old(nextTempNum), old(curStackOffset), pastError), 3)
    {
      GenLabel(Lbl(pastError));
      var four := GenLoadConstant(VarSize);
      var offset := GenBinaryOp(Mul, four, index);
      elem := GenBinaryOp(Add, arr, offset);
    }

    /** A bounds-checked array element: the IfZ skips the inline halt when
        the combined out-of-range test is zero, and the result is the word at
        `arr + VarSize * index`. The label after the halt is fresh and is
        bound to its Label instruction. */
    method GenSubscript(arr: Location, index: Location) returns (r: Location)
      requires Valid()
      modifies this`code, this`nextTempNum, this`curStackOffset, this`frameCount
      modifies this`labels, this`nextLabelNum
      ensures Valid()
      ensures r == Deref(TempAt(old(nextTempNum), old(curStackOffset), 9), 0)
      ensures Emitted(SubscriptCode(old(code), arr, index, old(nextTempNum), old(curStackOffset), old(nextLabelNum)), 10)
      ensures nextLabelNum == old(nextLabelNum) + 1
      ensures labels == old(labels)[Lbl(old(nextLabelNum)) := |old(code)| + 12]
    {
      ghost var c0, t, so, l := code, nextTempNum, curStackOffset, nextLabelNum;
      var pastError := SubscriptTestPart(arr, index);
      ghost var c1, t1, so1 := code, nextTempNum, curStackOffset;
      GenHaltWithMessage(ErrArrOutOfBounds);
      ghost var c2, t2, so2 := code, nextTempNum, curStackOffset;
      var elem := SubscriptAddressPart(arr, index, pastError.n);
      SubscriptParts(c0, c1, c2, code, arr, index, t, so, l, t1, so1, t2, so2, elem);
      r := Deref(elem, 0);
    }

    /** GenNewArray, first part: the size test and the IfZ that skips the
        halt, to the fresh label returned. */
    method NewArrayTestPart(numElems: Location) returns (pastError: Name)
      requires Valid()
      modifies this`code, this`nextTempNum, this`curStackOffset, this`frameCount, this`nextLabelNum
      ensures Valid()
      ensures pastError == Lbl(old(nextLabelNum)) && nextLabelNum == old(nextLabelNum) + 1
      ensures Emitted(NewArrayTest(old(code), numElems, old(nextTempNum), old(curStackOffset), old(nextLabelNum)), 2)
    {
      var one := GenLoadConstant(1);
      var isNonpositive := GenBinaryOp(Less, numElems, one);
      pastError := NewLabel();
      GenIfZ(isNonpositive, pastError);
    }

    /** GenNewArray, after the size test and the halt: binds the label,
        then computes the byte count. */
    method NewArraySizePart(numElems: Location, pastError: nat) returns (bytes: Location, four: Location)
      requires Valid()
      modifies this`code, this`nextTempNum, this`curStackOffset, this`frameCount, this`labels
      ensures Valid()
      ensures bytes == TempAt(old(nextTempNum), old(curStackOffset), 3)
      ensures four == TempAt(old(nextTempNum), old(curStackOffset), 2)
      ensures labels == old(labels)[Lbl(pastError) := |old(code)|]
      ensures Emitted(NewArraySize(old(code), numElems, old(nextTempNum), old(curStackOffset), pastError), 4)
    {
      GenLabel(Lbl(pastError));
      var arraySize := GenLoadConstant(1);
      var num := GenBinaryOp(Add, arraySize, numElems);
      four := GenLoadConstant(VarSize);
      bytes := GenBinaryOp(Mul, num, four);
    }

    /** GenNewArray, last part: allocates the words, stores the length and
        yields the address past it. */
    method NewArrayStorePart(numElems: Location, bytes: Location, four: Location) returns (r: Location)
      requires Valid()
      modifies this`code, this`nextTempNum, this`curStackOffset, this`frameCount
      ensures Valid()
      ensures r == TempAt(old(nextTempNum), old(curStackOffset), 1)
      ensures Emitted(NewArrayStore(old(code), numElems, bytes, four, old(nextTempNum), old(curStackOffset)), 2)
    {
      assert Builtins[Alloc] == BuiltinEntry("_Alloc", 1, true);
      var result := GenBuiltInCall(Alloc, Some(bytes), None);
      GenStore(result.value, numElems, 0);
      r := GenBinaryOp(Add, result.value, four);
    }

    /** A new array: the IfZ skips the inline halt when `numElems < 1` is
        zero; then (1 + numElems) words are allocated, the length is stored in
        the first and the address of the second is returned. */
    method GenNewArray(numElems: Location) returns (r: Location)
      requires Valid()
      modifies this`code, this`nextTempNum, this`curStackOffset, this`frameCount
      modifies this`labels, this`nextLabelNum
      ensures Valid()
      ensures r == TempAt(old(nextTempNum), old(curStackOffset), 8)
      ensures Emitted(NewArrayCode(old(code), numElems, old(nextTempNum), old(curStackOffset), old(nextLabelNum)), 9)
      ensures nextLabelNum == old(nextLabelNum) + 1
      ensures labels == old(labels)[Lbl(old(nextLabelNum)) := |old(code)| + 8]
    {
      ghost var c0, t, so, l := code, nextTempNum, curStackOffset, nextLabelNum;
      var pastError := NewArrayTestPart(numElems);
      ghost var c1, t1, so1 := code, nextTempNum, curStackOffset;
      GenHaltWithMessage(ErrArrBadSize);
      ghost var c2, t2, so2 := code, nextTempNum, curStackOffset;
      var bytes, four := NewArraySizePart(numElems, pastError.n);
      ghost var c3, t3, so3 := code, nextTempNum, curStackOffset;
      r := NewArrayStorePart(numElems, bytes, four);
      NewArrayParts(c0, c1, c2, c3, code, numElems, t, so, l, t1, so1, t2, so2, t3, so3, r);
    }

    // -------------------------------------------------------------------
    // Analyses

    /** The successor lists as a sequence over the instruction indices. */
    function EdgeSeq(): (r: seq<seq<nat>>)
      reads this`code, this`edges
      ensures |r| == |code| && forall i :: 0 <= i < |code| ==> r[i] == (if i in edges then edges[i] else [])
    {
      EdgeList(edges, |code|)
    }

    /** Every stored successor is an instruction index. */
    lemma EdgesInCode()
      requires Valid()
      ensures Cfg.EdgesIn(EdgeSeq(), |code|)
    {
      var es := EdgeSeq();
      forall i, k | 0 <= i < |code| && 0 <= k < |es[i]|
        ensures es[i][k] < |code|
      {
        if i in edges {
          assert es[i] == edges[i];
        }
      }
    }

    /** The edge-building half of createCFG: every instruction of the
        function that starts at `begin`, up to its first EndFunc, gets its
        successors appended; no other successor list changes. */
    method AppendEdges(begin: nat) returns (end: nat)
      requires Valid()
      requires begin < |code| && code[begin].BeginFunc?
      requires Cfg.HasEndFunc(code, begin)
      requires Cfg.JumpsBound(code, labels, begin, Cfg.FirstEndFunc(code, begin))
      modifies this`edges
      ensures Valid()
      ensures end == Cfg.FirstEndFunc(code, begin)
      ensures forall i :: begin <= i < end ==>
        EdgeSeq()[i] == old(EdgeSeq())[i] + Cfg.Successors(code, labels, i)
      ensures forall i :: 0 <= i < |code| && !(begin <= i < end) ==> EdgeSeq()[i] == old(EdgeSeq())[i]
    {
      EdgesInCode();
      var newEdges;
      newEdges, end := Cfg.BuildEdges(code, labels, begin, EdgeSeq());
      Cfg.ExtendedEdgesIn(code, labels, begin, end, EdgeSeq(), newEdges);
      StoredEdges(edges, |code|, begin, end, newEdges);
      edges := edges + (map i | begin <= i < end :: newEdges[i]);
    }

    /** createCFG: builds the successor lists of the function that starts at
        `begin`, then runs the liveness analysis on that function. */
    method CreateCFG(begin: nat) returns (g: Liveness.Region, ins: seq<seq<Name>>, outs: seq<seq<Name>>)
      requires Valid()
      requires begin < |code| && code[begin].BeginFunc?
      requires Cfg.HasEndFunc(code, begin)
      requires Cfg.JumpsBound(code, labels, begin, Cfg.FirstEndFunc(code, begin))
      modifies this`edges, this`liveIn, this`liveOut
      ensures Valid()
      ensures g == Liveness.Region(code, EdgeSeq(), begin, Cfg.FirstEndFunc(code, begin))
      ensures forall i :: begin <= i < g.end ==>
        EdgeSeq()[i] == old(EdgeSeq())[i] + Cfg.Successors(code, labels, i)
      ensures forall i :: 0 <= i < |code| && !(begin <= i < g.end) ==> EdgeSeq()[i] == old(EdgeSeq())[i]
      ensures |ins| == |outs| == |code|
      ensures g.WellFormed() && Liveness.Settled(g, ins, outs)
      ensures Liveness.Least(g, ins)
      ensures liveIn == old(liveIn) + (map i | begin <= i <= g.end :: ins[i])
      ensures liveOut == old(liveOut) + (map i | begin <= i <= g.end :: outs[i])
    {
      var _ := AppendEdges(begin);
      g, ins, outs := LivenessAnalysis(begin);
    }

    /** livenessAnalysis on the function that starts at `begin`: stores, for
        each instruction of the region, its live-in and live-out lists. */
    method LivenessAnalysis(begin: nat) returns (g: Liveness.Region, ins: seq<seq<Name>>, outs: seq<seq<Name>>)
      requires Valid()
      requires begin < |code| && code[begin].BeginFunc?
      requires Cfg.HasEndFunc(code, begin)
      modifies this`liveIn, this`liveOut
      ensures Valid()
      ensures g == Liveness.Region(code, EdgeSeq(), begin, Cfg.FirstEndFunc(code, begin))
      ensures |ins| == |outs| == |code|
      ensures g.WellFormed() && Liveness.Settled(g, ins, outs)
      ensures Liveness.Least(g, ins)
      ensures liveIn == old(liveIn) + (map i | begin <= i <= g.end :: ins[i])
      ensures liveOut == old(liveOut) + (map i | begin <= i <= g.end :: outs[i])
    {
      g := Liveness.Region(code, EdgeSeq(), begin, Cfg.FirstEndFunc(code, begin));
      EdgesInCode();
      ins, outs := Liveness.Analyze(g);
      StoreLiveness(begin, g.end, ins, outs);
    }

    /** Records the live-in and live-out lists of instructions begin..end. */
    method StoreLiveness(begin: nat, end: nat, ins: seq<seq<Name>>, outs: seq<seq<Name>>)
      requires end < |ins| && end < |outs|
      modifies this`liveIn, this`liveOut
      ensures liveIn == old(liveIn) + (map i | begin <= i <= end :: ins[i])
      ensures liveOut == old(liveOut) + (map i | begin <= i <= end :: outs[i])
    {
      liveIn := liveIn + (map i | begin <= i <= end :: ins[i]);
      liveOut := liveOut + (map i | begin <= i <= end :: outs[i]);
    }
  }
}
