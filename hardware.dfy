/** The objects the SystemVerilog target receives from its collaborators: magma port types,
    port references, fault values and expressions, and file descriptors. Each is modelled by
    the attributes the target reads from it. */
module Hardware {

  /** The direction a magma type is qualified with (In, Out, InOut), or none. */
  datatype Direction = Input | Output | InOut | Undirected

  /** Magma's type kinds. `Bits` stands for magma's Bits/UInt/SInt (an array of bits, signed
      for SInt); `Array` is any other array; `Tuple` pairs its keys with its field types. */
  datatype Kind =
    | Real(dir: Direction)
    | Bit(dir: Direction, isClock: bool)
    | Bits(width: nat, signed: bool, dir: Direction)
    | Array(n: nat, elem: Kind)
    | Tuple(keys: seq<string>, fields: seq<Kind>)

  /** Whether a type carries direction `d`: an array has the direction of its element, a tuple
      the direction all its fields share. */
  predicate HasDirection(k: Kind, d: Direction) {
    match k
    case Real(x) => x == d
    case Bit(x, _) => x == d
    case Bits(_, _, x) => x == d
    case Array(_, e) => HasDirection(e, d)
    case Tuple(_, fs) => forall j :: 0 <= j < |fs| ==> HasDirection(fs[j], d)
  }

  /** A magma array whose elements are single bits: declared with a bit range. */
  predicate IsBitVectorKind(k: Kind) {
    k.Bits? || (k.Array? && k.elem.Bit?)
  }

  /** len(type_) of a bit-vector type. */
  function VectorWidth(k: Kind): nat
    requires IsBitVectorKind(k)
  {
    if k.Bits? then k.width else k.n
  }

  /** A port of the circuit under test: its name and its type. */
  datatype Port = Port(name: string, kind: Kind)

  /** The three ways an action names its target signal: a top-level port; a SelectPath (the
      instances it passes through, its leaf port, and the path its `system_verilog_path`
      property gives); a WrappedVerilogInternalPort (an explicit path and a type). A SelectPath
      has |instances| + 1 elements. */
  datatype PortRef =
    | Top(port: Port)
    | Select(instances: seq<string>, leaf: Port, svPath: string)
    | Internal(path: string, kind: Kind)

  /** `actions.is_inout`: the target signal's type is InOut. */
  predicate IsInoutRef(r: PortRef) {
    match r
    case Top(p) => HasDirection(p.kind, InOut)
    case Select(_, leaf, _) => HasDirection(leaf.kind, InOut)
    case Internal(_, k) => HasDirection(k, InOut)
  }

  /** `isinstance(port, m.SIntType)`: only a top-level port object can be an SInt. */
  predicate IsSignedRef(r: PortRef) {
    r.Top? && r.port.kind.Bits? && r.port.kind.signed
  }

  /** A fault File: its name, the stem `name_without_ext`, open mode, chunk size in bytes and
      endianness. */
  datatype File = File(name: string, nameWithoutExt: string, mode: string, chunkSize: int,
                       endianness: string)

  /** What an `actions.Peek` is read through: a port's `.name`, or a wrapped internal path. */
  datatype PeekSource = PeekPort(name: string) | PeekInternal(path: string)

  /** A fault expression tree. `PortWrap` is a PortWrapper (by its select path's
      `system_verilog_path`), `VarRef` an `actions.Var`, and `Leaf` any other leaf by the text
      str() gives it. */
  datatype Expression =
    | BinaryOp(left: Expression, op: string, right: Expression)
    | UnaryOp(op: string, operand: Expression)
    | PortWrap(svPath: string)
    | PeekE(source: PeekSource)
    | VarRef(name: string)
    | Leaf(text: string)

  /** A value an action carries: a hwtypes BitVector (width and the integer it was built
      from), a Python int, the Unknown and HiZ sentinels, an "any value" marker, a Peek, a
      PortWrapper, a FileRead, an Expression, or any other object by its str() text. */
  datatype Value =
    | BitVec(width: nat, bits: int)
    | Int(i: int)
    | Unknown
    | HiZ
    | AnyValue(text: string)
    | Peek(source: PeekSource)
    | Wrapped(svPath: string)
    | FileReadOf(file: File)
    | Expr(e: Expression)
    | Other(text: string)

  /** `value_utils.is_any`. */
  predicate IsAny(v: Value) {
    v.AnyValue?
  }

  function Pow2(n: nat): (p: nat)
    ensures p >= 1
  {
    if n == 0 then 1 else 2 * Pow2(n - 1)
  }

  /** `BitVector[n](v).as_uint()`: v reduced modulo 2^n. */
  function AsUint(n: nat, v: int): (u: nat)
    ensures u < Pow2(n)
  {
    v % Pow2(n)
  }
}
