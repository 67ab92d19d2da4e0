/** The lowering of actions to SystemVerilog statements (the make_* methods and the
    generate_action_code dispatcher), as functions. The target's `declarations` list is threaded
    through explicitly: every lowering takes the declarations so far and returns the statement
    lines, or the exception raised, together with the declarations afterwards. The class in
    target.dfy runs the same steps in place and is proved equal to these functions. */
module Lowering {
  import opened Wrappers
  import opened Text
  import opened Hardware
  import opened Names
  import opened Actions

  /** What lowering reads from the target: `verilog_name` and `clock_step_delay`. */
  datatype Env = Env(verilogName: string -> string, clockStepDelay: int)

  /** The statement lines of a lowering, or the exception it raised, and the declarations list
      after it (declarations added before an exception stay in the list). */
  datatype Lowered = Lowered(code: Result<seq<string>>, decls: seq<string>)

  /** The shared loop index of the file actions. */
  const IndexDecl := "integer __i;"

  /** Appends the loop index declaration unless it is already present. */
  function WithIndexDecl(decls: seq<string>): seq<string> {
    if IndexDecl in decls then decls else decls + [IndexDecl]
  }

  /** make_poke. */
  function MakePoke(env: Env, port: PortRef, value: Value): seq<string> {
    [MakeName(env.verilogName, port) + " = " + ProcessValue(port, value) + ";",
     "#" + IntToString(env.clockStepDelay) + ";"]
  }

  /** make_print: the referenced ports follow the format string, after a comma, only when
      their joined names are not empty. */
  function MakePrint(env: Env, formatStr: string, ports: seq<PortRef>): seq<string> {
    var joined := Join(", ", seq(|ports|, k requires 0 <= k < |ports| => MakeName(env.verilogName, ports[k])));
    var args := if joined != "" then ", " + joined else "";
    ["$write(\"" + formatStr + "\"" + args + ");"]
  }

  /** The signal an Expect reads: inout ports through their shadow wire. */
  function ExpectReadName(env: Env, port: PortRef): string {
    var name := MakeName(env.verilogName, port);
    if IsInoutRef(port) then InputWire(name) else name
  }

  /** The port name an Expect's error message reports. */
  function ExpectDebugName(env: Env, port: PortRef): string {
    match port
    case Select(_, leaf, _) => leaf.name
    case Internal(_, _) => ExpectReadName(env, port)
    case Top(p) => p.name
  }

  /** The magnitude expression `((nom >= 0) ? nom : -nom)` of a parenthesised nominal value. */
  function AbsText(nom: string): string {
    "((" + nom + " >= 0) ? " + nom + " : -" + nom + ")"
  }

  /** The lower bound `(nom - rel*|nom| - abs)` of a tolerance check. */
  function LowBound(nom: string, t: Tolerance): string {
    "(" + nom + " - (" + t.relTol + ")*" + AbsText(nom) + " - (" + t.absTol + "))"
  }

  /** The upper bound `(nom + rel*|nom| + abs)` of a tolerance check. */
  function HighBound(nom: string, t: Tolerance): string {
    "(" + nom + " + (" + t.relTol + ")*" + AbsText(nom) + " + (" + t.absTol + "))"
  }

  /** make_expect: nothing for an "any" value; otherwise an `if` guard on the violation, the
      indented `$error` report (produced by make_line, so it ends in a newline), and `end`. */
  function MakeExpect(env: Env, i: nat, port: PortRef, value: Value, strict: bool,
                      tolerance: Option<Tolerance>): seq<string>
  {
    if IsAny(value) then []
    else
      var name := ExpectReadName(env, port);
      var v := ProcessValue(port, value);
      var errHead := "\"Failed on action=" + IntToString(i) + " checking port "
                     + ExpectDebugName(env, port) + ".";
      var condAndErr :=
        match tolerance
        case None =>
          (name + (if strict then " !== " else " != ") + v,
           errHead + " Expected %x, got %x\" , " + v + ", " + name)
        case Some(t) =>
          var nom := "(" + v + ")";
          var lo := LowBound(nom, t);
          var hi := HighBound(nom, t);
          ("!((" + lo + " <= " + name + ") && (" + name + " <= " + hi + "))",
           errHead + " Expected %0f to %0f, got %0f\", " + lo + ", " + hi + ", " + name);
      ["if (" + condAndErr.0 + ") begin", MakeLine("$error(" + condAndErr.1 + ");", 1), "end"]
  }

  /** One clock toggle of make_step: the half-period delay is the literal 5. */
  function StepLine(clockName: string): string {
    "#5 " + clockName + " ^= 1;"
  }

  /** make_step: one toggle per step (none for a step count below one). */
  function StepCode(clockName: string, steps: int): seq<string> {
    if steps <= 0 then [] else StepCode(clockName, steps - 1) + [StepLine(clockName)]
  }

  /** The counted header of make_loop. */
  function LoopHeader(loopVar: string, nIter: int): string {
    "for (" + loopVar + " = 0; " + loopVar + " < " + IntToString(nIter) + "; " + loopVar + "++) begin"
  }

  /** The declarations make_file_open appends. */
  function FileOpenDecls(f: File): seq<string> {
    ["reg [" + IntToString(f.chunkSize * 8 - 1) + ":0] " + f.nameWithoutExt + "_in;",
     "integer " + f.nameWithoutExt + "_file;"]
  }

  /** The open call of make_file_open. */
  function FileOpenLine(f: File): string {
    f.nameWithoutExt + "_file = $fopen(\"" + f.name + "\", \"" + f.mode + "\");"
  }

  /** The error check of make_file_open. */
  function FileCheckLine(f: File): string {
    "if (!" + f.nameWithoutExt + "_file) $error(\"Could not open file " + f.name + ": %0d\", "
    + f.nameWithoutExt + "_file);"
  }

  /** The statement lines of make_file_open: its two-line text, split as str.splitlines does. */
  function FileOpenCode(f: File): seq<string> {
    SplitLines(FileOpenLine(f) + "\n" + FileCheckLine(f) + "\n")
  }

  /** The byte loop of the file actions: big-endian counts from chunk-1 down to 0, anything
      else from 0 up to chunk-1. */
  function ChunkLoop(f: File): string {
    if f.endianness == "big" then "__i = " + IntToString(f.chunkSize - 1) + "; __i >= 0; __i--"
    else "__i = 0; __i < " + IntToString(f.chunkSize) + "; __i++"
  }

  function FileReadInit(f: File): string {
    f.nameWithoutExt + "_in = 0;"
  }

  function ForHeader(f: File): string {
    "for (" + ChunkLoop(f) + ") begin"
  }

  function FileReadBody(f: File): string {
    "    " + f.nameWithoutExt + "_in |= $fgetc(" + f.nameWithoutExt + "_file) << (8 * __i);"
  }

  /** The statement lines of make_file_read. */
  function FileReadCode(f: File): seq<string> {
    SplitLines(FileReadInit(f) + "\n" + ForHeader(f) + "\n" + FileReadBody(f) + "\n" + "end" + "\n")
  }

  function FileWriteBody(f: File, value: string): string {
    "    $fwrite(" + f.nameWithoutExt + "_file, \"%c\", (" + value + " >> (8 * __i)) & "
    + IntToString(f.chunkSize * 8) + "'hFF);"
  }

  /** The statement lines of make_file_write; `value` is the name of the written port. */
  function FileWriteCode(f: File, value: string): seq<string> {
    SplitLines(ForHeader(f) + "\n" + FileWriteBody(f, value) + "\n" + "end" + "\n")
  }

  /** make_file_close. */
  function MakeFileClose(f: File): seq<string> {
    ["$fclose(" + f.nameWithoutExt + "_file);"]
  }

  /** make_file_scan_format; `args` are the names of the variables scanned into. */
  function MakeFileScanFormat(f: File, format: string, args: seq<string>): seq<string> {
    ["$fscanf(" + f.nameWithoutExt + "_file, \"" + format + "\", " + Join(", ", args) + ");"]
  }

  /** The declaration make_var appends for a BitVector type of `size` bits. */
  function VarDecl(name: string, size: int): string {
    "reg [" + IntToString(size - 1) + ":0] " + name + ";"
  }

  /** A block: the header, the children's lines indented, and `end`; or the children's
      exception. */
  function Enclose(header: string, body: Lowered): Lowered {
    if body.code.Err? then body
    else Lowered(Ok([header] + Indent(body.code.value) + ["end"]), body.decls)
  }

  /** Loop, While and If own child actions; every other action is lowered on its own. */
  predicate IsBlock(a: Action) {
    a.Loop? || a.While? || a.If?
  }

  /** generate_action_code for an action that is not a block: the make_* method of its kind. */
  function LowerLeaf(env: Env, decls: seq<string>, i: nat, a: Action): Lowered
    requires !IsBlock(a)
  {
    match a
    case Poke(port, value) => Lowered(Ok(MakePoke(env, port, value)), decls)
    case Expect(port, value, strict, tol) => Lowered(Ok(MakeExpect(env, i, port, value, strict, tol)), decls)
    case Eval => Lowered(Ok([]), decls)
    case Step(steps, clock) => Lowered(Ok(StepCode(env.verilogName(clock.name), steps)), decls)
    case Print(fmt, ports) => Lowered(Ok(MakePrint(env, fmt, ports)), decls)
    case FileOpen(f) =>
      if !SupportedMode(f.mode) then Lowered(Err(NotImplementedError(f.mode)), decls)
      else Lowered(Ok(FileOpenCode(f)), decls + FileOpenDecls(f))
    case FileClose(f) => Lowered(Ok(MakeFileClose(f)), decls)
    case FileRead(f) => Lowered(Ok(FileReadCode(f)), WithIndexDecl(decls))
    case FileWrite(f, source) =>
      Lowered(Ok(FileWriteCode(f, MakeName(env.verilogName, source))), WithIndexDecl(decls))
    case FileScanFormat(f, format, args) => Lowered(Ok(MakeFileScanFormat(f, format, args)), decls)
    case Var(name, t) =>
      if t.BitVectorType? then Lowered(Ok([]), decls + [VarDecl(name, t.size)])
      else Lowered(Err(NotImplementedError(t.text)), decls)
  }

  /** generate_action_code for action number `i`: blocks lower their children in turn (a Loop
      first declares its counter), every other action goes to LowerLeaf. */
  function Lower(env: Env, decls: seq<string>, i: nat, a: Action): Lowered
    decreases a, 1
  {
    match a
    case Loop(nIter, v, xs) =>
      Enclose(LoopHeader(v, nIter), LowerSeq(env, decls + ["integer " + v + ";"], i, xs))
    case While(cond, xs) =>
      Enclose("while (" + CompileExpression(cond) + ") begin", LowerSeq(env, decls, i, xs))
    case If(cond, xs, es) =>
      var header := "if (" + CompileExpression(cond) + ") begin";
      var t := LowerSeq(env, decls, i, xs);
      if t.code.Err? then t
      else if es == [] then Lowered(Ok([header] + Indent(t.code.value) + ["end"]), t.decls)
      else
        var e := LowerSeq(env, t.decls, i, es);
        if e.code.Err? then e
        else Lowered(Ok([header] + Indent(t.code.value) + ["end else begin"] + Indent(e.code.value) + ["end"]),
                     e.decls)
    case _ => LowerLeaf(env, decls, i, a)
  }

  /** The children of a block lowered one after the other, their lines concatenated; the first
      exception stops the rest. */
  function LowerSeq(env: Env, decls: seq<string>, i: nat, xs: seq<Action>): Lowered
    decreases xs, 0
  {
    if xs == [] then Lowered(Ok([]), decls)
    else
      var p := LowerSeq(env, decls, i, xs[..|xs| - 1]);
      if p.code.Err? then p
      else
        var c := Lower(env, p.decls, i, xs[|xs| - 1]);
        if c.code.Err? then c else Lowered(Ok(p.code.value + c.code.value), c.decls)
  }
}
