/** The SystemVerilog target object: its declarations list, which the make_* methods and
    generate_port_code append to in place, and generate_code, which assembles the test bench.
    Every method is proved to do exactly what the functions of Lowering, PortBinding and the
    test bench functions below describe. */
module Target {
  import opened Wrappers
  import opened Text
  import opened Hardware
  import opened Names
  import opened Actions
  import opened Lowering
  import opened LoweringFacts
  import opened PortBinding
  import opened Simulators

  // ----- What generate_code produces -------------------------------------------------------------

  /** The top-level actions lowered one after the other, action j with index j (the
      `enumerate` of generate_code); the first exception stops the rest. */
  function LowerActions(env: Env, decls: seq<string>, xs: seq<Action>): Lowered {
    if xs == [] then Lowered(Ok([]), decls)
    else
      var p := LowerActions(env, decls, xs[..|xs| - 1]);
      if p.code.Err? then p
      else
        var c := Lower(env, p.decls, |xs| - 1, xs[|xs| - 1]);
        if c.code.Err? then c else Lowered(Ok(p.code.value + c.code.value), c.decls)
  }

  /** The initial block's body: every statement line indented by two units and ended by a
      newline. */
  function Body(lines: seq<string>): string {
    if lines == [] then "" else Body(lines[..|lines| - 1]) + ("        " + lines[|lines| - 1] + "\n")
  }

  /** The closing lines of the test bench after the initial block's body. */
  const Trailer := "\n        #20 $finish;\n    end\n\nendmodule\n"

  /** The test bench template filled in: the module header, the declarations one per line, the
      DUT instance with its connections, and the initial block. */
  function SourceText(circuitName: string, decls: seq<string>, portList: seq<string>, body: string): string {
    "module " + circuitName + "_tb;\n" + Join("\n", decls) + "\n\n    " + circuitName + " dut (\n        "
    + Join(",\n        ", portList) + "\n    );\n\n    initial begin\n" + body + Trailer
  }

  /** The source text generate_code returns, or the exception it raises, and the declarations
      list afterwards. */
  datatype Generated = Generated(src: Result<string>, decls: seq<string>)

  /** generate_code: the ports are bound first, then the actions are lowered, both adding to the
      declarations. */
  function GenerateCodeSpec(useInputWires: bool, power: PowerArgs, env: Env, circuitName: string,
                            decls: seq<string>, ports: seq<Port>, actions: seq<Action>): Generated
  {
    var b := PortsCode(useInputWires, power, decls, ports);
    if b.clauses.Err? then Generated(Err(b.clauses.error), b.decls)
    else
      var l := LowerActions(env, b.decls, actions);
      if l.code.Err? then Generated(Err(l.code.error), l.decls)
      else Generated(Ok(SourceText(circuitName, l.decls, b.clauses.value, Body(l.code.value))), l.decls)
  }

  lemma {:induction false} BodyAppend(xs: seq<string>, ys: seq<string>)
    ensures Body(xs + ys) == Body(xs) + Body(ys)
    decreases |ys|
  {
    if ys != [] {
      var init := ys[..|ys| - 1];
      assert (xs + ys)[..|xs + ys| - 1] == xs + init;
      BodyAppend(xs, init);
    } else {
      assert xs + ys == xs;
    }
  }

  /** The inner loop of generate_code: each line of an action's code, indented by two units and
      ended by a newline, appended to the body. */
  method AppendBody(body: string, lines: seq<string>) returns (r: string)
    ensures r == body + Body(lines)
  {
    r := body;
    var k := 0;
    while k < |lines|
      invariant 0 <= k <= |lines|
      invariant r == body + Body(lines[..k])
    {
      assert lines[..k + 1][..k] == lines[..k];
      r := r + ("        " + lines[k] + "\n");
      k := k + 1;
    }
    assert lines[..k] == lines;
  }

  // ----- The target object -----------------------------------------------------------------------

  class SystemVerilogTarget {
    const config: Config
    const env: Env
    /** circuit.IO.ports, in declaration order. */
    const ports: seq<Port>
    var declarations: seq<string>

    constructor(config: Config, verilogName: string -> string, ports: seq<Port>)
      ensures this.config == config && env == Env(verilogName, config.clockStepDelay)
      ensures this.ports == ports && declarations == []
    {
      this.config := config;
      this.env := Env(verilogName, config.clockStepDelay);
      this.ports := ports;
      declarations := [];
    }

    /** The constructor with its validation: the options are checked and defaulted first, and no
        target is made when they are rejected. */
    static method Create(o: Options, verilogName: string -> string, ports: seq<Port>)
      returns (r: Result<SystemVerilogTarget>)
      ensures r.Ok? <==> Configure(o).Ok?
      ensures r.Err? ==> r.error == Configure(o).error
      ensures r.Ok? ==> fresh(r.value) && r.value.config == Configure(o).value && r.value.ports == ports
                        && r.value.declarations == []
    {
      var c := Configure(o);
      if c.Err? {
        return Err(c.error);
      }
      var t := new SystemVerilogTarget(c.value, verilogName, ports);
      r := Ok(t);
    }

    /** add_decl. */
    method AddDecl(decls: seq<string>)
      modifies this
      ensures declarations == old(declarations) + decls
    {
      declarations := declarations + decls;
    }

    /** make_var. */
    method MakeVar(i: nat, name: string, t: VarType) returns (r: Result<seq<string>>)
      modifies this
      ensures t.BitVectorType? ==> r == Ok([]) && declarations == old(declarations) + [VarDecl(name, t.size)]
      ensures !t.BitVectorType? ==> r == Err(NotImplementedError(t.text)) && declarations == old(declarations)
    {
      if t.BitVectorType? {
        declarations := declarations + [VarDecl(name, t.size)];
        r := Ok([]);
      } else {
        r := Err(NotImplementedError(t.text));
      }
    }

    /** make_file_open. */
    method MakeFileOpen(i: nat, f: File) returns (r: Result<seq<string>>)
      modifies this
      ensures SupportedMode(f.mode) ==> r == Ok(FileOpenCode(f)) && declarations == old(declarations) + FileOpenDecls(f)
      ensures !SupportedMode(f.mode) ==> r == Err(NotImplementedError(f.mode)) && declarations == old(declarations)
    {
      if !SupportedMode(f.mode) {
        return Err(NotImplementedError(f.mode));
      }
      var name := f.nameWithoutExt;
      var bitSize := f.chunkSize * 8 - 1;
      var inDecl := "reg [" + IntToString(bitSize) + ":0] " + name + "_in;";
      var fileDecl := "integer " + name + "_file;";
      assert FileOpenDecls(f) == [inDecl, fileDecl];
      declarations := declarations + [inDecl];
      declarations := declarations + [fileDecl];
      Assoc(old(declarations), [inDecl], [fileDecl]);
      r := Ok(FileOpenCode(f));
    }

    /** make_file_read. */
    method MakeFileRead(i: nat, f: File) returns (r: Result<seq<string>>)
      modifies this
      ensures r == Ok(FileReadCode(f)) && declarations == WithIndexDecl(old(declarations))
    {
      if IndexDecl !in declarations {
        declarations := declarations + [IndexDecl];
      }
      r := Ok(FileReadCode(f));
    }

    /** make_file_write. */
    method MakeFileWrite(i: nat, f: File, source: PortRef) returns (r: Result<seq<string>>)
      modifies this
      ensures r == Ok(FileWriteCode(f, MakeName(env.verilogName, source)))
      ensures declarations == WithIndexDecl(old(declarations))
    {
      var value := MakeName(env.verilogName, source);
      if IndexDecl !in declarations {
        declarations := declarations + [IndexDecl];
      }
      r := Ok(FileWriteCode(f, value));
    }

    /** make_step: one toggle of the clock per step. */
    method MakeStep(clock: Port, steps: int) returns (code: seq<string>)
      ensures code == StepCode(env.verilogName(clock.name), steps)
      ensures |code| == if steps <= 0 then 0 else steps
      ensures forall k :: 0 <= k < |code| ==> code[k] == StepLine(env.verilogName(clock.name))
    {
      var name := env.verilogName(clock.name);
      code := [];
      var step := 0;
      while step < steps
        invariant 0 <= step <= (if steps > 0 then steps else 0)
        invariant code == StepCode(name, step)
      {
        code := code + [StepLine(name)];
        step := step + 1;
      }
      StepCodeShape(name, steps);
    }

    /** The loop over a block's children shared by make_loop, make_while and make_if: every
        child's lines, indented once, are appended to `code`. */
    method MakeChildren(i: nat, xs: seq<Action>, code: seq<string>) returns (r: Result<seq<string>>)
      modifies this
      ensures var l := LowerSeq(env, old(declarations), i, xs);
        declarations == l.decls && r == if l.code.Err? then l.code else Ok(code + Indent(l.code.value))
      decreases xs, 1
    {
      ghost var d0 := declarations;
      ghost var cur := LowerSeq(env, d0, i, []);
      var acc := code;
      var k := 0;
      while k < |xs|
        invariant 0 <= k <= |xs|
        invariant cur == LowerSeq(env, d0, i, xs[..k])
        invariant cur.code.Ok? && declarations == cur.decls && acc == code + Indent(cur.code.value)
      {
        var inner := MakeChild(i, xs, k, d0, cur);
        if inner.Err? {
          return inner;
        }
        IndentAppend(cur.code.value, inner.value);
        acc := acc + Indent(inner.value);
        cur := Lowered(Ok(cur.code.value + inner.value), declarations);
        k := k + 1;
      }
      assert xs[..k] == xs;
      r := Ok(acc);
    }

    /** One child of a block: its exception ends the block, its lines extend the block's. */
    method MakeChild(i: nat, xs: seq<Action>, k: nat, ghost d0: seq<string>, ghost cur: Lowered)
      returns (inner: Result<seq<string>>)
      requires k < |xs| && cur == LowerSeq(env, d0, i, xs[..k]) && cur.code.Ok? && declarations == cur.decls
      modifies this
      ensures inner.Err? ==> LowerSeq(env, d0, i, xs) == Lowered(inner, declarations)
      ensures inner.Ok? ==> LowerSeq(env, d0, i, xs[..k + 1]) == Lowered(Ok(cur.code.value + inner.value), declarations)
      decreases xs, 0
    {
      inner := GenerateActionCode(i, xs[k]);
      ChildStep(env, d0, i, xs, k, inner, declarations);
    }

    /** make_loop. */
    method MakeLoop(i: nat, a: Action) returns (r: Result<seq<string>>)
      requires a.Loop?
      modifies this
      ensures Lowered(r, declarations) == Lower(env, old(declarations), i, a)
      decreases a, 0
    {
      declarations := declarations + ["integer " + a.loopVar + ";"];
      var body := MakeChildren(i, a.actions, [LoopHeader(a.loopVar, a.nIter)]);
      if body.Err? {
        return body;
      }
      r := Ok(body.value + ["end"]);
    }

    /** make_while. */
    method MakeWhile(i: nat, a: Action) returns (r: Result<seq<string>>)
      requires a.While?
      modifies this
      ensures Lowered(r, declarations) == Lower(env, old(declarations), i, a)
      decreases a, 0
    {
      var cond := CompileExpression(a.loopCond);
      var body := MakeChildren(i, a.actions, ["while (" + cond + ") begin"]);
      if body.Err? {
        return body;
      }
      r := Ok(body.value + ["end"]);
    }

    /** make_if: the else branch turns the closing `end` into `end else begin`. */
    method MakeIf(i: nat, a: Action) returns (r: Result<seq<string>>)
      requires a.If?
      modifies this
      ensures Lowered(r, declarations) == Lower(env, old(declarations), i, a)
      decreases a, 0
    {
      var cond := CompileExpression(a.cond);
      var t := MakeChildren(i, a.actions, ["if (" + cond + ") begin"]);
      if t.Err? {
        return t;
      }
      var code := t.value + ["end"];
      if a.elseActions != [] {
        assert code[..|code| - 1] == t.value && code[|code| - 1] == "end";
        code := code[..|code| - 1] + [code[|code| - 1] + " else begin"];
        assert "end" + " else begin" == "end else begin";
        assert code == t.value + ["end else begin"];
        var e := MakeChildren(i, a.elseActions, code);
        if e.Err? {
          return e;
        }
        code := e.value + ["end"];
      }
      r := Ok(code);
    }

    /** generate_action_code: the make_* method of the action's kind. */
    method GenerateActionCode(i: nat, a: Action) returns (r: Result<seq<string>>)
      modifies this
      ensures Lowered(r, declarations) == Lower(env, old(declarations), i, a)
      decreases a, 1
    {
      if a.Loop? {
        r := MakeLoop(i, a);
      } else if a.While? {
        r := MakeWhile(i, a);
      } else if a.If? {
        r := MakeIf(i, a);
      } else {
        r := GenerateLeafCode(i, a);
        LowerOfLeaf(env, old(declarations), i, a);
      }
    }

    /** generate_action_code for every action that is not a block. */
    method GenerateLeafCode(i: nat, a: Action) returns (r: Result<seq<string>>)
      requires !IsBlock(a)
      modifies this
      ensures Lowered(r, declarations) == LowerLeaf(env, old(declarations), i, a)
    {
      match a
      case Var(name, t) => r := MakeVar(i, name, t);
      case FileOpen(f) => r := MakeFileOpen(i, f);
      case FileRead(f) => r := MakeFileRead(i, f);
      case FileWrite(f, source) => r := MakeFileWrite(i, f, source);
      case Step(steps, clock) =>
        var code := MakeStep(clock, steps);
        r := Ok(code);
      case Poke(port, value) => r := Ok(MakePoke(env, port, value));
      case Expect(port, value, strict, tolerance) => r := Ok(MakeExpect(env, i, port, value, strict, tolerance));
      case Eval => r := Ok([]);
      case Print(formatStr, refs) => r := Ok(MakePrint(env, formatStr, refs));
      case FileClose(f) => r := Ok(MakeFileClose(f));
      case FileScanFormat(f, format, args) => r := Ok(MakeFileScanFormat(f, format, args));
    }

    /** generate_port_code: a leaf is declared and connected here; arrays of non-bits and tuples
        go to generate_recursive_port_code. */
    method GeneratePortCode(name: string, k: Kind, power: PowerArgs) returns (r: Result<seq<string>>)
      modifies this
      ensures Bound(r, declarations) == PortCode(config.useInputWires, power, old(declarations), name, k)
      decreases k, 1
    {
      if !IsLeafKind(k) {
        r := GenerateRecursivePortCode(name, k, power);
        return;
      }
      var widthStr := WidthStr(k);
      var connectTo := name;
      var s := StorageOf(config.useInputWires, power, name, k);
      if s == Unsupported {
        return Err(NotImplementedError(""));
      }
      if s == Shadowed {
        connectTo := InputWire(name);
        AddDecl([MakeLine("reg " + widthStr + name + ";", 1),
                 MakeLine("wire " + widthStr + connectTo + ";", 1),
                 MakeLine("assign " + connectTo + "=" + name + ";", 1)]);
      } else {
        AddDecl([MakeLine(StorageKeyword(s) + " " + widthStr + connectTo + ";", 1)]);
      }
      r := Ok(["." + name + "(" + connectTo + ")"]);
    }

    /** generate_recursive_port_code: array elements `{name}_{j}` for j in range(N), tuple fields
        `{name}_{key}` for the zipped keys and types. */
    method GenerateRecursivePortCode(name: string, k: Kind, power: PowerArgs) returns (r: Result<seq<string>>)
      requires !IsLeafKind(k)
      modifies this
      ensures Bound(r, declarations) == PortCode(config.useInputWires, power, old(declarations), name, k)
      decreases k, 0
    {
      if k.Array? {
        r := GenerateElementsCode(name, k.elem, k.n, power);
      } else {
        r := GenerateFieldsCode(name, k.keys, k.fields, Min(|k.keys|, |k.fields|), power);
      }
    }

    /** The array branch of generate_recursive_port_code: element j bound as `{name}_{j}`. */
    method GenerateElementsCode(name: string, elem: Kind, n: nat, power: PowerArgs) returns (r: Result<seq<string>>)
      modifies this
      ensures Bound(r, declarations) == ElementsCode(config.useInputWires, power, old(declarations), name, elem, n)
      decreases elem, 2
    {
      ghost var d0 := declarations;
      var portList: seq<string> := [];
      var j := 0;
      while j < n
        invariant 0 <= j <= n
        invariant Bound(Ok(portList), declarations) == ElementsCode(config.useInputWires, power, d0, name, elem, j)
      {
        ghost var d := declarations;
        var result := GeneratePortCode(name + "_" + NatToString(j), elem, power);
        ElementStep(config.useInputWires, power, d0, name, elem, n, j, portList, d, result, declarations);
        if result.Err? {
          return result;
        }
        portList := portList + result.value;
        j := j + 1;
      }
      r := Ok(portList);
    }

    /** The tuple branch of generate_recursive_port_code: the first `m` (key, field) pairs, field
        k bound as `{name}_{k}`. */
    method GenerateFieldsCode(name: string, keys: seq<string>, fields: seq<Kind>, m: nat, power: PowerArgs)
      returns (r: Result<seq<string>>)
      requires m <= |keys| && m <= |fields|
      modifies this
      ensures Bound(r, declarations) == FieldsCode(config.useInputWires, power, old(declarations), name, keys, fields, m)
      decreases fields, 2
    {
      ghost var d0 := declarations;
      var portList: seq<string> := [];
      var j := 0;
      while j < m
        invariant 0 <= j <= m
        invariant Bound(Ok(portList), declarations) == FieldsCode(config.useInputWires, power, d0, name, keys, fields, j)
      {
        ghost var d := declarations;
        var result := GeneratePortCode(name + "_" + keys[j], fields[j], power);
        FieldStep(config.useInputWires, power, d0, name, keys, fields, m, j, portList, d, result, declarations);
        if result.Err? {
          return result;
        }
        portList := portList + result.value;
        j := j + 1;
      }
      r := Ok(portList);
    }

    /** The port loop of generate_code: every port of the circuit bound in order. */
    method GeneratePortList(power: PowerArgs) returns (r: Result<seq<string>>)
      modifies this
      ensures Bound(r, declarations) == PortsCode(config.useInputWires, power, old(declarations), ports)
    {
      ghost var d0 := declarations;
      var portList: seq<string> := [];
      var j := 0;
      while j < |ports|
        invariant 0 <= j <= |ports|
        invariant Bound(Ok(portList), declarations) == PortsCode(config.useInputWires, power, d0, ports[..j])
      {
        ghost var d := declarations;
        var result := GeneratePortCode(ports[j].name, ports[j].kind, power);
        PortStep(config.useInputWires, power, d0, ports, j, portList, d, result, declarations);
        if result.Err? {
          return result;
        }
        portList := portList + result.value;
        j := j + 1;
      }
      assert ports[..j] == ports;
      r := Ok(portList);
    }

    /** The action loop of generate_code: action i lowered with index i, each of its lines
        appended to the initial block's body. */
    method GenerateInitialBody(actions: seq<Action>) returns (r: Result<string>)
      modifies this
      ensures var l := LowerActions(env, old(declarations), actions);
        declarations == l.decls && r == if l.code.Err? then Err(l.code.error) else Ok(Body(l.code.value))
    {
      ghost var d1 := declarations;
      ghost var cur := LowerActions(env, d1, []);
      var initialBody := "";
      var i := 0;
      while i < |actions|
        invariant 0 <= i <= |actions|
        invariant cur == LowerActions(env, d1, actions[..i])
        invariant cur.code.Ok? && declarations == cur.decls && initialBody == Body(cur.code.value)
      {
        var code := GenerateActionCode(i, actions[i]);
        ActionStep(env, d1, actions, i, code, declarations);
        if code.Err? {
          return Err(code.error);
        }
        ghost var prev := cur.code.value;
        initialBody := AppendBody(initialBody, code.value);
        BodyAppend(prev, code.value);
        cur := Lowered(Ok(prev + code.value), declarations);
        i := i + 1;
      }
      assert actions[..i] == actions;
      r := Ok(initialBody);
    }

    /** generate_code: binds the circuit's ports, lowers the actions with their indices, and fills
        in the test bench template. */
    method GenerateCode(actions: seq<Action>, power: PowerArgs) returns (r: Result<string>)
      modifies this
      ensures Generated(r, declarations)
              == GenerateCodeSpec(config.useInputWires, power, env, config.circuitName, old(declarations), ports, actions)
    {
      var portList := GeneratePortList(power);
      if portList.Err? {
        return Err(portList.error);
      }
      var initialBody := GenerateInitialBody(actions);
      if initialBody.Err? {
        return Err(initialBody.error);
      }
      r := Ok(SourceText(config.circuitName, declarations, portList.value, initialBody.value));
    }
  }

  // ----- Exceptions stop the walks ----------------------------------------------------------------

  /** One more child of a block: its exception ends the block, its lines extend the block's. */
  lemma ChildStep(env: Env, d0: seq<string>, i: nat, xs: seq<Action>, k: nat, inner: Result<seq<string>>,
                  decls: seq<string>)
    requires k < |xs| && LowerSeq(env, d0, i, xs[..k]).code.Ok?
    requires Lowered(inner, decls) == Lower(env, LowerSeq(env, d0, i, xs[..k]).decls, i, xs[k])
    ensures inner.Err? ==> LowerSeq(env, d0, i, xs) == Lowered(inner, decls)
    ensures inner.Ok? ==> LowerSeq(env, d0, i, xs[..k + 1])
                          == Lowered(Ok(LowerSeq(env, d0, i, xs[..k]).code.value + inner.value), decls)
  {
    LowerSeqSnoc(env, d0, i, xs, k);
    if inner.Err? {
      LowerSeqErrorStops(env, d0, i, xs, k + 1);
    }
  }

  /** One more element of an array: its exception ends the array, its clauses extend the
      array's. */
  lemma ElementStep(uw: bool, power: PowerArgs, d0: seq<string>, name: string, elem: Kind, n: nat, j: nat,
                    clauses: seq<string>, d: seq<string>, result: Result<seq<string>>, decls: seq<string>)
    requires j < n && Bound(Ok(clauses), d) == ElementsCode(uw, power, d0, name, elem, j)
    requires Bound(result, decls) == PortCode(uw, power, d, name + "_" + NatToString(j), elem)
    ensures result.Err? ==> Bound(result, decls) == ElementsCode(uw, power, d0, name, elem, n)
    ensures result.Ok? ==> Bound(Ok(clauses + result.value), decls) == ElementsCode(uw, power, d0, name, elem, j + 1)
  {
    assert ElementsCode(uw, power, d0, name, elem, j + 1)
        == Then(Bound(Ok(clauses), d), PortCode(uw, power, d, name + "_" + NatToString(j), elem));
    if result.Err? {
      ElementsErrorStops(uw, power, d0, name, elem, n, j + 1);
    }
  }

  /** One more field of a tuple: its exception ends the tuple, its clauses extend the tuple's. */
  lemma FieldStep(uw: bool, power: PowerArgs, d0: seq<string>, name: string, keys: seq<string>, fields: seq<Kind>,
                  m: nat, j: nat, clauses: seq<string>, d: seq<string>, result: Result<seq<string>>,
                  decls: seq<string>)
    requires j < m <= |keys| && m <= |fields|
    requires Bound(Ok(clauses), d) == FieldsCode(uw, power, d0, name, keys, fields, j)
    requires Bound(result, decls) == PortCode(uw, power, d, name + "_" + keys[j], fields[j])
    ensures result.Err? ==> Bound(result, decls) == FieldsCode(uw, power, d0, name, keys, fields, m)
    ensures result.Ok? ==> Bound(Ok(clauses + result.value), decls) == FieldsCode(uw, power, d0, name, keys, fields, j + 1)
  {
    FieldsStep(uw, power, d0, name, keys, fields, j + 1);
    if result.Err? {
      FieldsErrorStops(uw, power, d0, name, keys, fields, m, j + 1);
    }
  }

  /** One more port of the circuit: its exception ends generate_code, its clauses extend the
      port list. */
  lemma PortStep(uw: bool, power: PowerArgs, d0: seq<string>, ports: seq<Port>, j: nat,
                 clauses: seq<string>, d: seq<string>, result: Result<seq<string>>, decls: seq<string>)
    requires j < |ports| && Bound(Ok(clauses), d) == PortsCode(uw, power, d0, ports[..j])
    requires Bound(result, decls) == PortCode(uw, power, d, ports[j].name, ports[j].kind)
    ensures result.Err? ==> Bound(result, decls) == PortsCode(uw, power, d0, ports)
    ensures result.Ok? ==> Bound(Ok(clauses + result.value), decls) == PortsCode(uw, power, d0, ports[..j + 1])
  {
    assert ports[..j + 1][..j] == ports[..j];
    if result.Err? {
      PortsErrorStops(uw, power, d0, ports, j + 1);
    }
  }

  lemma {:induction false} ElementsErrorStops(uw: bool, power: PowerArgs, d: seq<string>, name: string, elem: Kind,
                                              n: nat, j: nat)
    requires j <= n && ElementsCode(uw, power, d, name, elem, j).clauses.Err?
    ensures ElementsCode(uw, power, d, name, elem, n) == ElementsCode(uw, power, d, name, elem, j)
    decreases n
  {
    if j < n {
      ElementsErrorStops(uw, power, d, name, elem, n - 1, j);
    }
  }

  lemma {:induction false} FieldsErrorStops(uw: bool, power: PowerArgs, d: seq<string>, name: string,
                                            keys: seq<string>, fields: seq<Kind>, m: nat, j: nat)
    requires j <= m <= |keys| && m <= |fields| && FieldsCode(uw, power, d, name, keys, fields, j).clauses.Err?
    ensures FieldsCode(uw, power, d, name, keys, fields, m) == FieldsCode(uw, power, d, name, keys, fields, j)
    decreases m
  {
    if j < m {
      FieldsErrorStops(uw, power, d, name, keys, fields, m - 1, j);
    }
  }

  lemma {:induction false} PortsErrorStops(uw: bool, power: PowerArgs, d: seq<string>, ports: seq<Port>, j: nat)
    requires j <= |ports| && PortsCode(uw, power, d, ports[..j]).clauses.Err?
    ensures PortsCode(uw, power, d, ports) == PortsCode(uw, power, d, ports[..j])
    decreases |ports|
  {
    if j < |ports| {
      var init := ports[..|ports| - 1];
      assert init[..j] == ports[..j];
      PortsErrorStops(uw, power, d, init, j);
    } else {
      assert ports[..j] == ports;
    }
  }

  /** One more top-level action, lowered with its position as index. */
  lemma ActionStep(env: Env, d0: seq<string>, xs: seq<Action>, k: nat, inner: Result<seq<string>>,
                   decls: seq<string>)
    requires k < |xs| && LowerActions(env, d0, xs[..k]).code.Ok?
    requires Lowered(inner, decls) == Lower(env, LowerActions(env, d0, xs[..k]).decls, k, xs[k])
    ensures inner.Err? ==> LowerActions(env, d0, xs) == Lowered(inner, decls)
    ensures inner.Ok? ==> LowerActions(env, d0, xs[..k + 1])
                          == Lowered(Ok(LowerActions(env, d0, xs[..k]).code.value + inner.value), decls)
  {
    assert xs[..k + 1][..k] == xs[..k];
    if inner.Err? {
      LowerActionsErrorStops(env, d0, xs, k + 1);
    }
  }

  lemma {:induction false} LowerActionsErrorStops(env: Env, d: seq<string>, xs: seq<Action>, k: nat)
    requires k <= |xs| && LowerActions(env, d, xs[..k]).code.Err?
    ensures LowerActions(env, d, xs) == LowerActions(env, d, xs[..k])
    decreases |xs|
  {
    if k < |xs| {
      var init := xs[..|xs| - 1];
      assert init[..k] == xs[..k];
      LowerActionsErrorStops(env, d, init, k);
    } else {
      assert xs[..k] == xs;
    }
  }
}
