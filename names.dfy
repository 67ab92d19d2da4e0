/** Value and name resolution of the SystemVerilog target (make_name, process_peek,
    process_value, compile_expression, input_wire, make_line). */
module Names {
  import opened Wrappers
  import opened Text
  import opened Hardware

  /** make_name: the text a port reference is written as. A SelectPath longer than two elements
      reaches through the `dut` instance; shorter paths and top-level ports use `verilogName`
      (the `verilog_name` escaping of fault.verilog_target, which is not part of this model). */
  function MakeName(verilogName: string -> string, r: PortRef): string {
    match r
    case Select(instances, leaf, svPath) =>
      if |instances| + 1 > 2 then "dut." + svPath else verilogName(leaf.name)
    case Internal(path, _) => "dut." + path
    case Top(p) => verilogName(p.name)
  }

  /** A SelectPath of one or two elements names the same register as its leaf port does. */
  lemma ShortSelectPathIsTopPort(verilogName: string -> string, instances: seq<string>, leaf: Port,
                                 svPath: string)
    requires |instances| <= 1
    ensures MakeName(verilogName, Select(instances, leaf, svPath)) == MakeName(verilogName, Top(leaf))
  {
  }

  /** A deeper SelectPath is resolved by its path alone, whatever its leaf port is called. */
  lemma DeepSelectPathIgnoresLeaf(verilogName: string -> string, instances: seq<string>, a: Port,
                                  b: Port, svPath: string)
    requires |instances| >= 2
    ensures MakeName(verilogName, Select(instances, a, svPath))
         == MakeName(verilogName, Select(instances, b, svPath))
    ensures MakeName(verilogName, Select(instances, a, svPath)) == "dut." + svPath
  {
  }

  /** process_peek: a wrapped internal port through `dut`, any other port by its name. */
  function ProcessPeek(s: PeekSource): string {
    match s
    case PeekInternal(path) => "dut." + path
    case PeekPort(name) => name
  }

  /** input_wire: the shadow wire of a register. */
  function InputWire(name: string): string {
    "__" + name + "_wire"
  }

  /** make_line(text, tabs): `tabs` indentation units, the text, and a newline. */
  function MakeLine(text: string, tabs: nat): string {
    Spaces(tabs) + text + "\n"
  }

  /** A sized decimal literal `{width}'d{value}`. */
  function SizedLiteral(width: nat, value: nat): string {
    NatToString(width) + "'d" + NatToString(value)
  }

  /** compile_expression: operands and operators separated by single spaces, with no
      parentheses of its own. Port and Peek leaves resolve as process_value resolves them;
      a Var leaf becomes its name; every other leaf (a BitVector, an int, Unknown, HiZ, a
      FileRead) is returned unchanged, so its text is the leaf's own rendering. */
  function CompileExpression(e: Expression): string {
    match e
    case BinaryOp(left, op, right) => CompileExpression(left) + " " + op + " " + CompileExpression(right)
    case UnaryOp(op, operand) => op + " " + CompileExpression(operand)
    case PortWrap(svPath) => "dut." + svPath
    case PeekE(source) => ProcessPeek(source)
    case VarRef(name) => name
    case Leaf(text) => text
  }

  /** process_value: the text a value is written as when it is assigned to or compared with
      `port`, checked in the source's order of precedence. */
  function ProcessValue(port: PortRef, value: Value): string {
    if value.BitVec? then
      SizedLiteral(value.width, AsUint(value.width, value.bits))
    else if IsSignedRef(port) && value.Int? && value.i < 0 then
      SizedLiteral(port.port.kind.width, AsUint(port.port.kind.width, value.i))
    else if value.Unknown? then "'X"
    else if value.HiZ? then "'Z"
    else if value.Peek? then ProcessPeek(value.source)
    else if value.Wrapped? then "dut." + value.svPath
    else if value.FileReadOf? then value.file.nameWithoutExt + "_in"
    else if value.Expr? then "(" + CompileExpression(value.e) + ")"
    else if value.Int? then IntToString(value.i)
    else value.text
  }

  /** An independent reading of an expression: its operators and leaves in source order. */
  function Tokens(e: Expression): (ts: seq<string>)
    ensures |ts| >= 1
  {
    match e
    case BinaryOp(left, op, right) => Tokens(left) + [op] + Tokens(right)
    case UnaryOp(op, operand) => [op] + Tokens(operand)
    case PortWrap(svPath) => ["dut." + svPath]
    case PeekE(source) => [ProcessPeek(source)]
    case VarRef(name) => [name]
    case Leaf(text) => [text]
  }

  /** Compiling an expression writes its tokens in order, one space apart: the tree's shape
      leaves no trace in the text beyond the order of its tokens. */
  lemma {:induction false} CompileExpressionIsTokens(e: Expression)
    ensures CompileExpression(e) == Join(" ", Tokens(e))
  {
    match e
    case BinaryOp(left, op, right) =>
      CompileExpressionIsTokens(left);
      CompileExpressionIsTokens(right);
      JoinAppend(" ", Tokens(left), [op]);
      JoinAppend(" ", Tokens(left) + [op], Tokens(right));
    case UnaryOp(op, operand) =>
      CompileExpressionIsTokens(operand);
      JoinAppend(" ", [op], Tokens(operand));
    case PortWrap(_) =>
    case PeekE(_) =>
    case VarRef(_) =>
    case Leaf(_) =>
  }

  /** Consequently two trees that group the same tokens differently compile to the same text:
      `(a + b) * c` and `a + (b * c)` both become `a + b * c`. */
  lemma CompileExpressionForgetsGrouping(a: Expression, b: Expression, c: Expression, p: string,
                                         q: string)
    ensures CompileExpression(BinaryOp(BinaryOp(a, p, b), q, c))
         == CompileExpression(BinaryOp(a, p, BinaryOp(b, q, c)))
  {
    var l := CompileExpression(a);
    var m := CompileExpression(b);
    var r := CompileExpression(c);
    assert (l + " " + p + " " + m) + " " + q + " " + r == l + " " + p + " " + (m + " " + q + " " + r);
  }

  /** The index of the first `'` in `s`, or |s|. */
  function FirstQuote(s: string): (k: nat)
    ensures k <= |s|
    ensures forall j :: 0 <= j < k ==> s[j] != '\''
    ensures k < |s| ==> s[k] == '\''
  {
    if s == [] then 0 else if s[0] == '\'' then 0 else 1 + FirstQuote(s[1..])
  }

  /** Reads a sized decimal literal `{width}'d{value}` back into its width and value. */
  function ParseSizedLiteral(s: string): Option<(nat, nat)> {
    var q := FirstQuote(s);
    if 0 < q && q + 2 < |s| && s[q + 1] == 'd' && AllDigits(s[..q]) && AllDigits(s[q + 2..]) then
      Some((DigitsValue(s[..q]), DigitsValue(s[q + 2..])))
    else
      None
  }

  lemma SizedLiteralRoundTrip(width: nat, value: nat)
    ensures ParseSizedLiteral(SizedLiteral(width, value)) == Some((width, value))
  {
    var w := NatToString(width);
    var v := NatToString(value);
    var s := SizedLiteral(width, value);
    assert s == w + "'d" + v;
    assert forall j :: 0 <= j < |w| ==> s[j] == w[j];
    assert s[|w|] == '\'';
    assert FirstQuote(s) == |w|;
    assert s[..|w|] == w;
    assert s[|w| + 2..] == v;
    NatToStringRoundTrip(width);
    NatToStringRoundTrip(value);
  }

  /** A BitVector is written as a sized literal of its own width holding its unsigned value,
      whatever the port, signed or not. */
  lemma BitVectorLiteral(port: PortRef, width: nat, bits: int)
    ensures ParseSizedLiteral(ProcessValue(port, BitVec(width, bits))) == Some((width, bits % Pow2(width)))
  {
    SizedLiteralRoundTrip(width, AsUint(width, bits));
  }

  lemma ModShift(v: int, p: int)
    requires p > 0 && -p <= v < 0
    ensures v % p == v + p
  {
    var r := v + p;
    assert 0 <= r < p;
    assert v == (-1) * p + r;
  }

  /** A negative int of n-bit range poked into an n-bit signed port is written as the sized
      unsigned literal of its two's-complement bits: the value read back has its sign bit set
      and is v + 2^n. */
  lemma SignedNegativeLiteral(port: PortRef, v: int)
    requires IsSignedRef(port) && port.port.kind.width >= 1
    requires -(Pow2(port.port.kind.width - 1) as int) <= v < 0
    ensures var n := port.port.kind.width;
      ParseSizedLiteral(ProcessValue(port, Int(v))) == Some((n, v + Pow2(n)))
      && v + Pow2(n) >= Pow2(n - 1)
  {
    var n := port.port.kind.width;
    ModShift(v, Pow2(n));
    SizedLiteralRoundTrip(n, AsUint(n, v));
  }

  /** Any negative int poked into an n-bit signed port, in range or not, is written as the
      sized n-bit literal of its value modulo 2^n: an out-of-range value wraps, as the source's
      BitVector conversion does. */
  lemma SignedNegativeWraps(port: PortRef, v: int)
    requires IsSignedRef(port) && v < 0
    ensures var n := port.port.kind.width;
      ParseSizedLiteral(ProcessValue(port, Int(v))) == Some((n, v % Pow2(n)))
  {
    var n := port.port.kind.width;
    SizedLiteralRoundTrip(n, AsUint(n, v));
  }

  /** The same int is written as plain decimal when the port is not a signed top-level port or
      the value is not negative. */
  lemma PlainIntLiteral(port: PortRef, v: int)
    requires !IsSignedRef(port) || v >= 0
    ensures ProcessValue(port, Int(v)) == IntToString(v)
  {
  }

  /** In the model the Unknown and HiZ sentinels are the don't-care and tri-state literals on
      every port. The source first evaluates `value < 0` for a signed port, which this model
      does not capture (see the process_value line under "Left out" in the README). */
  lemma SentinelLiterals(port: PortRef)
    ensures ProcessValue(port, Unknown) == "'X"
    ensures ProcessValue(port, HiZ) == "'Z"
  {
  }

  /** An expression value is written as its compiled tokens inside one pair of parentheses. */
  lemma ExpressionValueParenthesised(port: PortRef, e: Expression)
    ensures ProcessValue(port, Expr(e)) == "(" + Join(" ", Tokens(e)) + ")"
  {
    CompileExpressionIsTokens(e);
  }
}
