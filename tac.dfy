/** The three-address code (TAC) that the code generator emits: storage
    locations, the closed set of instruction kinds, and for each instruction
    the names it reads (GenSet), the names it defines (KillSet) and every
    name it mentions. */
module Tac {

  datatype Option<T> = None | Some(value: T)

  /** Size in bytes of every variable, parameter and temporary: ints, bools,
      pointers and arrays all occupy one 4-byte word. */
  const VarSize: int := 4
  /** Frame offset of the first parameter (above the saved frame pointer and
      return address). */
  const OffsetToFirstParam: int := 4
  /** Frame offset of the first local variable or temporary. */
  const OffsetToFirstLocal: int := -8

  /** Names of variables and labels. Temporaries and generated labels are
      named after the counter value that produced them ("_tmp<n>", "_L<n>");
      every other name (user variables, function labels, runtime labels) is
      kept as its text. */
  datatype Name = Tmp(n: nat) | Lbl(n: nat) | Id(text: string)

  datatype Segment = FpRelative | GpRelative

  /** A storage location: a slot at an offset in the frame or the global
      area, or the word `refOffset` bytes past the address held in `base`. */
  datatype Location =
    | Var(segment: Segment, offset: int, name: Name)
    | Deref(base: Location, refOffset: int)
  {
    /** The name under which the location is printed and tracked by liveness. */
    function GetName(): Name {
      match this
      case Var(_, _, n) => n
      case Deref(b, _) => b.GetName()
    }
  }

  /** The binary operators of the TAC (the mapping from operator text to
      opcode is a fixed table). */
  datatype Opcode = Add | Sub | Mul | Div | Mod | Eq | Less | And | Or

  datatype Instr =
    | LoadConstant(dst: Location, value: int)
    | LoadStringConstant(dst: Location, str: string)
    | LoadLabel(dst: Location, labelName: Name)
    | Assign(dst: Location, src: Location)
    | Load(dst: Location, src: Location, offset: int)
    | Store(dst: Location, src: Location, offset: int)
    | BinaryOp(op: Opcode, dst: Location, op1: Location, op2: Location)
    | Label(labelName: Name)
    | Goto(target: Name)
    | IfZ(test: Location, target: Name)
    | BeginFunc(frameSize: Option<int>)
    | EndFunc
    | Return(val: Option<Location>)
    | PushParam(param: Location)
    | PopParams(numBytes: int)
    | LCall(fnLabel: Name, result: Option<Location>)
    | ACall(fnAddr: Location, result: Option<Location>)
    | VTable(className: string, methodLabels: seq<Name>)

  /** Names a location reads when its value is used as an operand. */
  function ReadNames(loc: Location): seq<Name> {
    match loc
    case Var(_, _, n) => [n]
    case Deref(b, _) => ReadNames(b)
  }

  /** Names a location reads when it is written: writing through a pointer
      reads the pointer, writing a slot reads nothing. */
  function AddressNames(loc: Location): seq<Name> {
    match loc
    case Var(_, _, _) => []
    case Deref(b, _) => ReadNames(b)
  }

  /** Names a location defines when it is written: a slot is overwritten,
      a word reached through a pointer is not a variable of its own. */
  function DefinedNames(loc: Location): seq<Name> {
    match loc
    case Var(_, _, n) => [n]
    case Deref(_, _) => []
  }

  function OptDefined(dst: Option<Location>): seq<Name> {
    match dst
    case None => []
    case Some(d) => DefinedNames(d)
  }

  function OptAddress(dst: Option<Location>): seq<Name> {
    match dst
    case None => []
    case Some(d) => AddressNames(d)
  }

  /** Kill[TAC]: the names the instruction (re)defines, i.e. its destination. */
  function KillSet(ins: Instr): seq<Name> {
    match ins
    case LoadConstant(d, _) => DefinedNames(d)
    case LoadStringConstant(d, _) => DefinedNames(d)
    case LoadLabel(d, _) => DefinedNames(d)
    case Assign(d, _) => DefinedNames(d)
    case Load(d, _, _) => DefinedNames(d)
    case BinaryOp(_, d, _, _) => DefinedNames(d)
    case LCall(_, d) => OptDefined(d)
    case ACall(_, d) => OptDefined(d)
    case _ => []
  }

  /** Gen[TAC]: the names the instruction reads. */
  function GenSet(ins: Instr): seq<Name> {
    match ins
    case LoadConstant(d, _) => AddressNames(d)
    case LoadStringConstant(d, _) => AddressNames(d)
    case LoadLabel(d, _) => AddressNames(d)
    case Assign(d, s) => AddressNames(d) + ReadNames(s)
    case Load(d, s, _) => AddressNames(d) + ReadNames(s)
    case Store(d, s, _) => ReadNames(d) + ReadNames(s)
    case BinaryOp(_, d, a, b) => AddressNames(d) + ReadNames(a) + ReadNames(b)
    case IfZ(t, _) => ReadNames(t)
    case Return(v) => if v.Some? then ReadNames(v.value) else []
    case PushParam(p) => ReadNames(p)
    case LCall(_, d) => OptAddress(d)
    case ACall(a, d) => ReadNames(a) + OptAddress(d)
    case _ => []
  }
}
