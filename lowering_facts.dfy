/** Properties of the action lowering: what each action emits, how blocks nest, and what
    lowering does to the declarations list. */
module LoweringFacts {
  import opened Wrappers
  import opened Text
  import opened Hardware
  import opened Names
  import opened Actions
  import opened Lowering

  // ----- Sequences of actions ------------------------------------------------------------

  /** Once a child raises, the later children are not lowered: the block's result is that
      child's exception and the declarations up to it. */
  lemma {:induction false} LowerSeqErrorStops(env: Env, d: seq<string>, i: nat, xs: seq<Action>, k: nat)
    requires k <= |xs| && LowerSeq(env, d, i, xs[..k]).code.Err?
    ensures LowerSeq(env, d, i, xs) == LowerSeq(env, d, i, xs[..k])
    decreases |xs|
  {
    if k < |xs| {
      var init := xs[..|xs| - 1];
      assert init[..k] == xs[..k];
      LowerSeqErrorStops(env, d, i, init, k);
    } else {
      assert xs[..k] == xs;
    }
  }

  /** Lowering one more child extends a block's result by that child's lowering. */
  lemma LowerSeqSnoc(env: Env, d: seq<string>, i: nat, xs: seq<Action>, k: nat)
    requires k < |xs|
    ensures var p := LowerSeq(env, d, i, xs[..k]);
      LowerSeq(env, d, i, xs[..k + 1])
      == if p.code.Err? then p
         else
           var c := Lower(env, p.decls, i, xs[k]);
           if c.code.Err? then c else Lowered(Ok(p.code.value + c.code.value), c.decls)
  {
    assert xs[..k + 1][..k] == xs[..k];
    assert xs[..k + 1][k] == xs[k];
  }

  // ----- Declarations only grow ------------------------------------------------------------

  /** Lowering only appends to the declarations: the list before is a prefix of the list after,
      also when an exception is raised. */
  lemma {:induction false} LowerExtendsDecls(env: Env, d: seq<string>, i: nat, a: Action)
    ensures d <= Lower(env, d, i, a).decls
    decreases a, 1
  {
    if !IsBlock(a) {
      LowerOfLeaf(env, d, i, a);
      LeafExtendsDecls(env, d, i, a);
    } else {
      match a
      case Loop(n, v, xs) =>
        LowerSeqExtendsDecls(env, d + ["integer " + v + ";"], i, xs);
      case While(_, xs) =>
        LowerSeqExtendsDecls(env, d, i, xs);
      case If(_, xs, es) =>
        LowerSeqExtendsDecls(env, d, i, xs);
        LowerSeqExtendsDecls(env, LowerSeq(env, d, i, xs).decls, i, es);
    }
  }

  lemma LeafExtendsDecls(env: Env, d: seq<string>, i: nat, a: Action)
    requires !IsBlock(a)
    ensures d <= LowerLeaf(env, d, i, a).decls
  {
  }

  lemma {:induction false} LowerSeqExtendsDecls(env: Env, d: seq<string>, i: nat, xs: seq<Action>)
    ensures d <= LowerSeq(env, d, i, xs).decls
    decreases xs, 0
  {
    if xs != [] {
      LowerSeqExtendsDecls(env, d, i, xs[..|xs| - 1]);
      var p := LowerSeq(env, d, i, xs[..|xs| - 1]);
      if p.code.Ok? {
        LowerExtendsDecls(env, p.decls, i, xs[|xs| - 1]);
      }
    }
  }

  // ----- The code does not depend on the declarations ----------------------------------------

  /** The statement lines (or the exception) do not depend on what was declared before; the
      declarations only decide whether the shared loop index is declared again. */
  lemma {:induction false} CodeIgnoresDecls(env: Env, d1: seq<string>, d2: seq<string>, i: nat, a: Action)
    ensures Lower(env, d1, i, a).code == Lower(env, d2, i, a).code
    decreases a, 1
  {
    if !IsBlock(a) {
      LowerOfLeaf(env, d1, i, a);
      LowerOfLeaf(env, d2, i, a);
      LeafCodeIgnoresDecls(env, d1, d2, i, a);
    } else {
      match a
      case Loop(n, v, xs) =>
        SeqCodeIgnoresDecls(env, d1 + ["integer " + v + ";"], d2 + ["integer " + v + ";"], i, xs);
      case While(_, xs) =>
        SeqCodeIgnoresDecls(env, d1, d2, i, xs);
      case If(_, xs, es) =>
        SeqCodeIgnoresDecls(env, d1, d2, i, xs);
        SeqCodeIgnoresDecls(env, LowerSeq(env, d1, i, xs).decls, LowerSeq(env, d2, i, xs).decls, i, es);
    }
  }

  lemma LeafCodeIgnoresDecls(env: Env, d1: seq<string>, d2: seq<string>, i: nat, a: Action)
    requires !IsBlock(a)
    ensures LowerLeaf(env, d1, i, a).code == LowerLeaf(env, d2, i, a).code
  {
  }

  lemma {:induction false} SeqCodeIgnoresDecls(env: Env, d1: seq<string>, d2: seq<string>, i: nat,
                                               xs: seq<Action>)
    ensures LowerSeq(env, d1, i, xs).code == LowerSeq(env, d2, i, xs).code
    decreases xs, 0
  {
    if xs != [] {
      var init := xs[..|xs| - 1];
      SeqCodeIgnoresDecls(env, d1, d2, i, init);
      var p1 := LowerSeq(env, d1, i, init);
      var p2 := LowerSeq(env, d2, i, init);
      CodeIgnoresDecls(env, p1.decls, p2.decls, i, xs[|xs| - 1]);
    }
  }

  // ----- Exactly the configuration errors raise ------------------------------------------------

  /** Lowering raises exactly when the action tree holds a file opened in an unsupported mode
      or a variable of a non-BitVector type. */
  lemma {:induction false} LowerFailsIff(env: Env, d: seq<string>, i: nat, a: Action)
    ensures Lower(env, d, i, a).code.Err? <==> HasConfigError(a)
    decreases a, 1
  {
    if !IsBlock(a) {
      LowerOfLeaf(env, d, i, a);
      LeafFailsIff(env, d, i, a);
    } else {
      match a
      case Loop(n, v, xs) =>
        LowerSeqFailsIff(env, d + ["integer " + v + ";"], i, xs);
      case While(_, xs) =>
        LowerSeqFailsIff(env, d, i, xs);
      case If(_, xs, es) =>
        LowerSeqFailsIff(env, d, i, xs);
        LowerSeqFailsIff(env, LowerSeq(env, d, i, xs).decls, i, es);
    }
  }

  lemma LeafFailsIff(env: Env, d: seq<string>, i: nat, a: Action)
    requires !IsBlock(a)
    ensures LowerLeaf(env, d, i, a).code.Err? <==> HasConfigError(a)
  {
  }

  lemma {:induction false} LowerSeqFailsIff(env: Env, d: seq<string>, i: nat, xs: seq<Action>)
    ensures LowerSeq(env, d, i, xs).code.Err? <==> AnyConfigError(xs)
    decreases xs, 0
  {
    if xs != [] {
      var init := xs[..|xs| - 1];
      var last := xs[|xs| - 1];
      LowerSeqFailsIff(env, d, i, init);
      var p := LowerSeq(env, d, i, init);
      LowerFailsIff(env, p.decls, i, last);
      assert AnyConfigError(xs) <==> AnyConfigError(init) || HasConfigError(last) by {
        if AnyConfigError(xs) {
          var k :| 0 <= k < |xs| && HasConfigError(xs[k]);
          if k < |xs| - 1 {
            assert init[k] == xs[k];
          }
        }
        if AnyConfigError(init) {
          var k :| 0 <= k < |init| && HasConfigError(init[k]);
          assert xs[k] == init[k];
        }
      }
    }
  }

  // ----- The shared loop index is declared at most once ------------------------------------------

  lemma LoopDeclIsIndexDecl(v: string)
    requires "integer " + v + ";" == IndexDecl
    ensures v == "__i"
  {
    var s := "integer " + v + ";";
    assert |v| == 3;
    assert s[8..11] == v;
  }

  lemma OtherDeclsAreNotIndexDecl(f: File, name: string, size: int)
    ensures IndexDecl !in FileOpenDecls(f)
    ensures VarDecl(name, size) != IndexDecl
  {
    assert FileOpenDecls(f)[0][0] == 'r';
    assert |FileOpenDecls(f)[1]| >= 14;
    assert VarDecl(name, size)[0] == 'r';
  }

  /** A non-block action is lowered by LowerLeaf. */
  lemma LowerOfLeaf(env: Env, d: seq<string>, i: nat, a: Action)
    requires !IsBlock(a)
    ensures Lower(env, d, i, a) == LowerLeaf(env, d, i, a)
  {
  }

  lemma IndexDeclAtMostOnceLeaf(env: Env, d: seq<string>, i: nat, a: Action)
    requires !IsBlock(a) && multiset(d)[IndexDecl] <= 1
    ensures multiset(LowerLeaf(env, d, i, a).decls)[IndexDecl] <= 1
  {
    var decls := LowerLeaf(env, d, i, a).decls;
    match a
    case FileOpen(f) =>
      OtherDeclsAreNotIndexDecl(f, "", 0);
      if SupportedMode(f.mode) {
        assert decls == d + FileOpenDecls(f);
        CountUnchanged(d, FileOpenDecls(f));
      }
    case Var(name, t) =>
      if t.BitVectorType? {
        OtherDeclsAreNotIndexDecl(File("", "", "", 0, ""), name, t.size);
        assert decls == d + [VarDecl(name, t.size)];
        CountUnchanged(d, [VarDecl(name, t.size)]);
      }
    case FileRead(_) =>
      assert decls == WithIndexDecl(d);
      WithIndexDeclCount(d);
    case FileWrite(_, _) =>
      assert decls == WithIndexDecl(d);
      WithIndexDeclCount(d);
    case _ =>
  }

  lemma CountUnchanged(d: seq<string>, extra: seq<string>)
    requires IndexDecl !in extra
    ensures multiset(d + extra)[IndexDecl] == multiset(d)[IndexDecl]
  {
    assert multiset(d + extra) == multiset(d) + multiset(extra);
  }

  /** `integer __i;` stays declared at most once, provided no Loop uses `__i` as its own
      counter (a Loop appends its counter's declaration without checking). */
  lemma {:induction false} IndexDeclAtMostOnce(env: Env, d: seq<string>, i: nat, a: Action)
    requires multiset(d)[IndexDecl] <= 1 && !UsesLoopVar(a, "__i")
    ensures multiset(Lower(env, d, i, a).decls)[IndexDecl] <= 1
    decreases a, 1
  {
    if !IsBlock(a) {
      LowerOfLeaf(env, d, i, a);
      IndexDeclAtMostOnceLeaf(env, d, i, a);
    } else {
      match a
      case Loop(n, v, xs) =>
        if "integer " + v + ";" == IndexDecl {
          LoopDeclIsIndexDecl(v);
        }
        IndexDeclAtMostOnceSeq(env, d + ["integer " + v + ";"], i, xs);
      case While(_, xs) =>
        IndexDeclAtMostOnceSeq(env, d, i, xs);
      case If(_, xs, es) =>
        IndexDeclAtMostOnceSeq(env, d, i, xs);
        IndexDeclAtMostOnceSeq(env, LowerSeq(env, d, i, xs).decls, i, es);
    }
  }

  lemma {:induction false} IndexDeclAtMostOnceSeq(env: Env, d: seq<string>, i: nat, xs: seq<Action>)
    requires multiset(d)[IndexDecl] <= 1 && !AnyUsesLoopVar(xs, "__i")
    ensures multiset(LowerSeq(env, d, i, xs).decls)[IndexDecl] <= 1
    decreases xs, 0
  {
    if xs != [] {
      var init := xs[..|xs| - 1];
      assert !AnyUsesLoopVar(init, "__i") by {
        forall k | 0 <= k < |init| ensures !UsesLoopVar(init[k], "__i") {
          assert init[k] == xs[k];
        }
      }
      IndexDeclAtMostOnceSeq(env, d, i, init);
      var p := LowerSeq(env, d, i, init);
      if p.code.Ok? {
        IndexDeclAtMostOnce(env, p.decls, i, xs[|xs| - 1]);
      }
    }
  }

  // ----- Every Loop declares its counter ---------------------------------------------------------

  /** When lowering succeeds, every Loop of the tree has declared `integer {loop_var};`. */
  lemma {:induction false} LoopCounterDeclared(env: Env, d: seq<string>, i: nat, a: Action, v: string)
    requires UsesLoopVar(a, v) && Lower(env, d, i, a).code.Ok?
    ensures "integer " + v + ";" in Lower(env, d, i, a).decls
    decreases a, 1
  {
    match a
    case Loop(n, w, xs) =>
      var d' := d + ["integer " + w + ";"];
      if w == v {
        LowerSeqExtendsDecls(env, d', i, xs);
        assert d'[|d|] == "integer " + v + ";";
      } else {
        LoopCounterDeclaredSeq(env, d', i, xs, v);
      }
    case While(_, xs) =>
      LoopCounterDeclaredSeq(env, d, i, xs, v);
    case If(_, xs, es) =>
      var t := LowerSeq(env, d, i, xs);
      if AnyUsesLoopVar(xs, v) {
        LoopCounterDeclaredSeq(env, d, i, xs, v);
        if es != [] {
          LowerSeqExtendsDecls(env, t.decls, i, es);
        }
      } else {
        LoopCounterDeclaredSeq(env, t.decls, i, es, v);
      }
  }

  lemma {:induction false} LoopCounterDeclaredSeq(env: Env, d: seq<string>, i: nat, xs: seq<Action>, v: string)
    requires AnyUsesLoopVar(xs, v) && LowerSeq(env, d, i, xs).code.Ok?
    ensures "integer " + v + ";" in LowerSeq(env, d, i, xs).decls
    decreases xs, 0
  {
    var init := xs[..|xs| - 1];
    var last := xs[|xs| - 1];
    var p := LowerSeq(env, d, i, init);
    var k :| 0 <= k < |xs| && UsesLoopVar(xs[k], v);
    if k == |xs| - 1 {
      LoopCounterDeclared(env, p.decls, i, last, v);
    } else {
      assert init[k] == xs[k];
      LoopCounterDeclaredSeq(env, d, i, init, v);
      LowerExtendsDecls(env, p.decls, i, last);
    }
  }

  // ----- Block layout ------------------------------------------------------------------------------

  /** The lines of `ss` one after the other. */
  function Concat(ss: seq<seq<string>>): seq<string> {
    if ss == [] then [] else Concat(ss[..|ss| - 1]) + ss[|ss| - 1]
  }

  /** The lines an action lowers to on its own. */
  function CodeAlone(env: Env, i: nat, a: Action): seq<string>
    requires !HasConfigError(a)
  {
    LowerFailsIff(env, [], i, a);
    Lower(env, [], i, a).code.value
  }

  function CodesAlone(env: Env, i: nat, xs: seq<Action>): seq<seq<string>>
    requires !AnyConfigError(xs)
  {
    seq(|xs|, k requires 0 <= k < |xs| => CodeAlone(env, i, xs[k]))
  }

  /** A block's children emit, in order, exactly the lines each of them emits on its own. */
  lemma {:induction false} LowerSeqConcatenates(env: Env, d: seq<string>, i: nat, xs: seq<Action>)
    requires !AnyConfigError(xs)
    ensures LowerSeq(env, d, i, xs).code == Ok(Concat(CodesAlone(env, i, xs)))
    decreases |xs|
  {
    if xs != [] {
      var init := xs[..|xs| - 1];
      var p := LowerSeq(env, d, i, init);
      NoConfigErrorInit(xs);
      LowerSeqConcatenates(env, d, i, init);
      ConcatenatesStep(env, d, i, xs, p);
    }
  }

  lemma NoConfigErrorInit(xs: seq<Action>)
    requires xs != [] && !AnyConfigError(xs)
    ensures !AnyConfigError(xs[..|xs| - 1]) && !HasConfigError(xs[|xs| - 1])
  {
    var init := xs[..|xs| - 1];
    forall k | 0 <= k < |init| ensures !HasConfigError(init[k]) {
      assert init[k] == xs[k];
    }
  }

  /** The inductive step of LowerSeqConcatenates: one more child appends its own lines. */
  lemma ConcatenatesStep(env: Env, d: seq<string>, i: nat, xs: seq<Action>, p: Lowered)
    requires xs != [] && !AnyConfigError(xs) && !AnyConfigError(xs[..|xs| - 1])
    requires p == LowerSeq(env, d, i, xs[..|xs| - 1]) && p.code == Ok(Concat(CodesAlone(env, i, xs[..|xs| - 1])))
    ensures LowerSeq(env, d, i, xs).code == Ok(Concat(CodesAlone(env, i, xs)))
  {
    var last := xs[|xs| - 1];
    CodeIgnoresDecls(env, p.decls, [], i, last);
    LowerFailsIff(env, [], i, last);
    assert CodesAlone(env, i, xs)[..|xs| - 1] == CodesAlone(env, i, xs[..|xs| - 1]);
  }

  /** A Loop emits its counted header, every child's lines indented once, and `end`; its
      counter's declaration comes right after the earlier declarations. */
  lemma LoopLayout(env: Env, d: seq<string>, i: nat, nIter: int, v: string, xs: seq<Action>)
    requires !AnyConfigError(xs)
    ensures Lower(env, d, i, Loop(nIter, v, xs)).code
         == Ok([LoopHeader(v, nIter)] + Indent(Concat(CodesAlone(env, i, xs))) + ["end"])
    ensures d + ["integer " + v + ";"] <= Lower(env, d, i, Loop(nIter, v, xs)).decls
  {
    LowerSeqConcatenates(env, d + ["integer " + v + ";"], i, xs);
    LowerSeqExtendsDecls(env, d + ["integer " + v + ";"], i, xs);
  }

  /** A While emits its pre-test header, every child's lines indented once, and `end`. */
  lemma WhileLayout(env: Env, d: seq<string>, i: nat, cond: Expression, xs: seq<Action>)
    requires !AnyConfigError(xs)
    ensures Lower(env, d, i, While(cond, xs)).code
         == Ok(["while (" + CompileExpression(cond) + ") begin"] + Indent(Concat(CodesAlone(env, i, xs))) + ["end"])
  {
    LowerSeqConcatenates(env, d, i, xs);
  }

  /** An If without else actions closes with `end`; with else actions the then-branch closes
      with `end else begin`, followed by the else-branch indented and a final `end`. */
  lemma IfLayout(env: Env, d: seq<string>, i: nat, cond: Expression, xs: seq<Action>, es: seq<Action>)
    requires !AnyConfigError(xs) && !AnyConfigError(es)
    ensures var header := "if (" + CompileExpression(cond) + ") begin";
      var thenCode := Indent(Concat(CodesAlone(env, i, xs)));
      Lower(env, d, i, If(cond, xs, es)).code
      == if es == [] then Ok([header] + thenCode + ["end"])
         else Ok([header] + thenCode + ["end else begin"] + Indent(Concat(CodesAlone(env, i, es))) + ["end"])
  {
    LowerSeqConcatenates(env, d, i, xs);
    LowerSeqConcatenates(env, LowerSeq(env, d, i, xs).decls, i, es);
  }

  /** `a` nested in one Loop per counter name of `vars`, outermost first. */
  function Nest(vars: seq<string>, nIter: int, a: Action): Action {
    if vars == [] then a else Loop(nIter, vars[0], [Nest(vars[1..], nIter, a)])
  }

  lemma LowerSeqSingleton(env: Env, d: seq<string>, i: nat, a: Action)
    ensures LowerSeq(env, d, i, [a]).code == Lower(env, d, i, a).code
  {
    assert [a][..0] == [];
    var c := Lower(env, d, i, a).code;
    if c.Ok? {
      assert [] + c.value == c.value;
    }
  }

  lemma EncloseSlice(header: string, c: seq<string>, m: nat, len: nat)
    requires m + len <= |c|
    ensures var code := [header] + Indent(c) + ["end"];
      |code| == |c| + 2 && code[m + 1..m + 1 + len] == Indent(c[m..m + len])
  {
  }

  /** A Loop around a single child encloses that child's lines. */
  lemma LoopOfOne(env: Env, d: seq<string>, i: nat, nIter: int, v: string, child: Action)
    ensures var c := Lower(env, d + ["integer " + v + ";"], i, child).code;
      Lower(env, d, i, Loop(nIter, v, [child])).code
      == if c.Err? then c else Ok([LoopHeader(v, nIter)] + Indent(c.value) + ["end"])
  {
    LowerSeqSingleton(env, d + ["integer " + v + ";"], i, child);
  }

  lemma NestNone(env: Env, d: seq<string>, i: nat, a: Action)
    requires !HasConfigError(a)
    ensures Lower(env, d, i, a).code == Ok(CodeAlone(env, i, a))
  {
    CodeIgnoresDecls(env, d, [], i, a);
    LowerFailsIff(env, [], i, a);
  }

  /** The lines of `inner` enclosed in one Loop per name of `vars`, outermost first. */
  function NestedCode(vars: seq<string>, nIter: int, inner: seq<string>): seq<string> {
    if vars == [] then inner
    else [LoopHeader(vars[0], nIter)] + Indent(NestedCode(vars[1..], nIter, inner)) + ["end"]
  }

  /** Lowering a nest of Loops around an action that raises nothing encloses the action's own
      lines once per Loop. */
  lemma {:induction false} NestLowering(env: Env, d: seq<string>, i: nat, vars: seq<string>, nIter: int, a: Action)
    requires !HasConfigError(a)
    ensures Lower(env, d, i, Nest(vars, nIter, a)).code == Ok(NestedCode(vars, nIter, CodeAlone(env, i, a)))
    decreases |vars|
  {
    if vars == [] {
      NestNone(env, d, i, a);
    } else {
      var d' := d + ["integer " + vars[0] + ";"];
      var child := Nest(vars[1..], nIter, a);
      var c := NestedCode(vars[1..], nIter, CodeAlone(env, i, a));
      NestLowering(env, d', i, vars[1..], nIter, a);
      assert Nest(vars, nIter, a) == Loop(nIter, vars[0], [child]);
      LoopOfOne(env, d, i, nIter, vars[0], child);
    }
  }

  /** k enclosing Loops indent each inner line by exactly k units, with the k headers above and
      the k `end`s below. */
  lemma {:induction false} NestedCodeIndents(vars: seq<string>, nIter: int, inner: seq<string>)
    ensures var code := NestedCode(vars, nIter, inner);
      |code| == |inner| + 2 * |vars| && code[|vars|..|vars| + |inner|] == IndentBy(|vars|, inner)
    decreases |vars|
  {
    if vars == [] {
      assert inner[0..|inner|] == inner;
      IndentByZero(inner);
    } else {
      var c := NestedCode(vars[1..], nIter, inner);
      NestedCodeIndents(vars[1..], nIter, inner);
      EncloseIndents(LoopHeader(vars[0], nIter), c, |vars[1..]|, inner);
    }
  }

  lemma EncloseIndents(header: string, c: seq<string>, n: nat, inner: seq<string>)
    requires |c| == |inner| + 2 * n && c[n..n + |inner|] == IndentBy(n, inner)
    ensures var code := [header] + Indent(c) + ["end"];
      |code| == |inner| + 2 * (n + 1) && code[n + 1..n + 1 + |inner|] == IndentBy(n + 1, inner)
  {
    EncloseSlice(header, c, n, |inner|);
    IndentByStep(n, inner);
  }

  /** Nesting an action in k Loops indents each of its lines by exactly k units, with the k
      headers above it and the k `end`s below it. */
  lemma NestedLoopIndentation(env: Env, d: seq<string>, i: nat, vars: seq<string>, nIter: int, a: Action)
    requires !HasConfigError(a)
    ensures var code := Lower(env, d, i, Nest(vars, nIter, a)).code;
      var inner := CodeAlone(env, i, a);
      code.Ok? && |code.value| == |inner| + 2 * |vars|
      && code.value[|vars|..|vars| + |inner|] == IndentBy(|vars|, inner)
  {
    NestLowering(env, d, i, vars, nIter, a);
    NestedCodeIndents(vars, nIter, CodeAlone(env, i, a));
  }

  // ----- Individual actions --------------------------------------------------------------------------

  /** A Poke assigns the resolved value and then waits clock_step_delay; it declares nothing. */
  lemma PokeLowering(env: Env, d: seq<string>, i: nat, port: PortRef, value: Value)
    ensures Lower(env, d, i, Poke(port, value))
         == Lowered(Ok([MakeName(env.verilogName, port) + " = " + ProcessValue(port, value) + ";",
                        "#" + IntToString(env.clockStepDelay) + ";"]), d)
  {
  }

  /** An Eval emits nothing and declares nothing. */
  lemma EvalLowering(env: Env, d: seq<string>, i: nat)
    ensures Lower(env, d, i, Eval) == Lowered(Ok([]), d)
  {
  }

  /** make_step emits exactly max(steps, 0) toggles of the clock. */
  lemma {:induction false} StepCodeShape(clockName: string, steps: int)
    ensures |StepCode(clockName, steps)| == (if steps > 0 then steps else 0)
    ensures forall k :: 0 <= k < |StepCode(clockName, steps)| ==> StepCode(clockName, steps)[k] == StepLine(clockName)
    decreases if steps > 0 then steps else 0
  {
    if steps > 0 {
      StepCodeShape(clockName, steps - 1);
    }
  }

  /** A Step's toggles use the literal half-period 5 whatever clock_step_delay is, and
      declare nothing. */
  lemma StepIgnoresClockStepDelay(vn: string -> string, delay1: int, delay2: int, d: seq<string>, i: nat,
                                  steps: int, clock: Port)
    ensures Lower(Env(vn, delay1), d, i, Step(steps, clock)) == Lower(Env(vn, delay2), d, i, Step(steps, clock))
    ensures Lower(Env(vn, delay1), d, i, Step(steps, clock)).decls == d
  {
  }

  /** With no ports a Print writes the format string alone. */
  lemma PrintWithoutPorts(env: Env, d: seq<string>, i: nat, formatStr: string)
    ensures Lower(env, d, i, Print(formatStr, [])) == Lowered(Ok(["$write(\"" + formatStr + "\"" + ");"]), d)
  {
    assert "$write(\"" + formatStr + "\"" + "" == "$write(\"" + formatStr + "\"";
  }

  /** With ports a Print passes their resolved names, comma separated, after the format
      string; a single port whose name is not empty is the one argument. */
  lemma PrintOnePort(env: Env, d: seq<string>, i: nat, formatStr: string, port: PortRef)
    requires MakeName(env.verilogName, port) != ""
    ensures Lower(env, d, i, Print(formatStr, [port]))
         == Lowered(Ok(["$write(\"" + formatStr + "\"" + (", " + MakeName(env.verilogName, port)) + ");"]), d)
  {
    var names := seq(1, k requires 0 <= k < 1 => MakeName(env.verilogName, [port][k]));
    assert names == [MakeName(env.verilogName, port)];
  }

  /** The names, each preceded by ", ", in order. */
  function CommaPrefixed(names: seq<string>): string {
    if names == [] then "" else CommaPrefixed(names[..|names| - 1]) + ", " + names[|names| - 1]
  }

  /** ", " followed by the names joined with ", " is each name preceded by ", ". */
  lemma {:induction false} JoinIsCommaPrefixed(names: seq<string>)
    requires names != []
    ensures ", " + Join(", ", names) == CommaPrefixed(names)
    ensures |names| > 1 ==> Join(", ", names) != ""
    decreases |names|
  {
    var init := names[..|names| - 1];
    if |names| == 1 {
      assert init == [];
    } else {
      JoinIsCommaPrefixed(init);
      assert ", " + Join(", ", names) == (", " + Join(", ", init)) + ", " + names[|names| - 1];
    }
  }

  /** A Print writes the format string and then every referenced port's resolved name, in
      order, each after ", ". The one exception is a single port whose name is empty: the
      joined names are then empty, and the source's test on them drops the comma as well. */
  lemma PrintArguments(env: Env, d: seq<string>, i: nat, formatStr: string, ports: seq<PortRef>)
    ensures var names := seq(|ports|, k requires 0 <= k < |ports| => MakeName(env.verilogName, ports[k]));
      names != [""] ==>
        Lower(env, d, i, Print(formatStr, ports))
        == Lowered(Ok(["$write(\"" + formatStr + "\"" + CommaPrefixed(names) + ");"]), d)
    ensures var names := seq(|ports|, k requires 0 <= k < |ports| => MakeName(env.verilogName, ports[k]));
      names == [""] ==> Lower(env, d, i, Print(formatStr, ports)) == Lowered(Ok(["$write(\"" + formatStr + "\"" + ");"]), d)
  {
    var names := seq(|ports|, k requires 0 <= k < |ports| => MakeName(env.verilogName, ports[k]));
    if ports != [] {
      JoinIsCommaPrefixed(names);
    }
    if names == [""] {
      assert Join(", ", names) == "";
      assert "$write(\"" + formatStr + "\"" + "" == "$write(\"" + formatStr + "\"";
    }
  }

  /** An Expect of an "any" value emits nothing; any other Expect emits exactly the three lines
      `if`, `$error`, `end`. Neither declares anything. */
  lemma ExpectAnyIsNoop(env: Env, d: seq<string>, i: nat, port: PortRef, value: Value, strict: bool,
                        tolerance: Option<Tolerance>)
    ensures var r := Lower(env, d, i, Expect(port, value, strict, tolerance));
      r.decls == d && r.code.Ok?
      && (r.code.value == [] <==> IsAny(value))
      && (!IsAny(value) ==> |r.code.value| == 3 && r.code.value[2] == "end")
  {
  }

  /** An exact Expect guards on `!==` when strict and `!=` otherwise, reading an inout port
      through its shadow wire, and its error reports the action number, the port, the expected
      value and the signal. */
  lemma ExpectExactLowering(env: Env, d: seq<string>, i: nat, port: PortRef, value: Value, strict: bool)
    requires !IsAny(value)
    ensures var name := if IsInoutRef(port) then InputWire(MakeName(env.verilogName, port))
                        else MakeName(env.verilogName, port);
      var v := ProcessValue(port, value);
      var head := "\"Failed on action=" + IntToString(i) + " checking port " + ExpectDebugName(env, port) + ".";
      Lower(env, d, i, Expect(port, value, strict, None)).code
      == Ok(["if (" + (name + (if strict then " !== " else " != ") + v) + ") begin",
             MakeLine("$error(" + (head + " Expected %x, got %x\" , " + v + ", " + name) + ");", 1),
             "end"])
  {
  }

  /** An Expect with a tolerance fails unless lo <= name <= hi, where lo and hi widen the
      parenthesised expected value by rel_tol times its magnitude plus abs_tol (the magnitude
      keeps the window the right way round for a negative expected value), and its error
      reports both bounds. */
  lemma ExpectToleranceLowering(env: Env, d: seq<string>, i: nat, port: PortRef, value: Value, strict: bool,
                                t: Tolerance)
    requires !IsAny(value)
    ensures var name := ExpectReadName(env, port);
      var nom := "(" + ProcessValue(port, value) + ")";
      var mag := "((" + nom + " >= 0) ? " + nom + " : -" + nom + ")";
      var lo := "(" + nom + " - (" + t.relTol + ")*" + mag + " - (" + t.absTol + "))";
      var hi := "(" + nom + " + (" + t.relTol + ")*" + mag + " + (" + t.absTol + "))";
      var head := "\"Failed on action=" + IntToString(i) + " checking port " + ExpectDebugName(env, port) + ".";
      Lower(env, d, i, Expect(port, value, strict, Some(t))).code
      == Ok(["if (" + ("!((" + lo + " <= " + name + ") && (" + name + " <= " + hi + "))") + ") begin",
             MakeLine("$error(" + (head + " Expected %0f to %0f, got %0f\", " + lo + ", " + hi + ", " + name) + ");", 1),
             "end"])
  {
  }

  /** The port an Expect reports: a SelectPath by its leaf port's name, a top-level port by
      its own name (not its escaped Verilog name), an internal port by the signal it reads. */
  lemma ExpectDebugNames(env: Env, instances: seq<string>, leaf: Port, svPath: string, p: Port, path: string,
                         k: Kind)
    ensures ExpectDebugName(env, Select(instances, leaf, svPath)) == leaf.name
    ensures ExpectDebugName(env, Top(p)) == p.name
    ensures ExpectDebugName(env, Internal(path, k))
         == if HasDirection(k, InOut) then "__dut." + path + "_wire" else "dut." + path
  {
  }

  lemma TwoLines(a: string, b: string)
    requires NoBreaks(a) && NoBreaks(b)
    ensures SplitLines(a + "\n" + b + "\n") == [a, b]
  {
    assert a + "\n" + b + "\n" == a + "\n" + (b + "\n");
    SplitLinesCons(a, b + "\n");
    assert b + "\n" + "" == b + "\n";
    SplitLinesCons(b, "");
  }

  lemma ThreeLines(a: string, b: string, c: string)
    requires NoBreaks(a) && NoBreaks(b) && NoBreaks(c)
    ensures SplitLines(a + "\n" + b + "\n" + c + "\n") == [a, b, c]
  {
    var p := a + "\n";
    Assoc(p, b, "\n");
    Assoc(p, b + "\n", c);
    Assoc(p, b + "\n" + c, "\n");
    SplitLinesCons(a, b + "\n" + c + "\n");
    TwoLines(b, c);
  }

  lemma FourLines(a: string, b: string, c: string, e: string)
    requires NoBreaks(a) && NoBreaks(b) && NoBreaks(c) && NoBreaks(e)
    ensures SplitLines(a + "\n" + b + "\n" + c + "\n" + e + "\n") == [a, b, c, e]
  {
    var p := a + "\n";
    Assoc(p, b, "\n");
    Assoc(p, b + "\n", c);
    Assoc(p, b + "\n" + c, "\n");
    Assoc(p, b + "\n" + c + "\n", e);
    Assoc(p, b + "\n" + c + "\n" + e, "\n");
    SplitLinesCons(a, b + "\n" + c + "\n" + e + "\n");
    ThreeLines(b, c, e);
  }

  // The literal pieces of the file actions' text hold no line boundary.

  lemma ChunkLoopLiterals()
    ensures NoBreaks("__i = ") && NoBreaks("; __i >= 0; __i--") && NoBreaks("__i = 0; __i < ") && NoBreaks("; __i++")
    ensures NoBreaks("for (") && NoBreaks(") begin")
  {
  }

  lemma FileOpenLiterals()
    ensures NoBreaks("_file = $fopen(\"") && NoBreaks("\", \"") && NoBreaks("\");")
  {
  }

  lemma FileCheckLiterals()
    ensures NoBreaks("if (!") && NoBreaks(": %0d\", ") && NoBreaks("_file);")
  {
  }

  lemma CouldNotOpenLiteral()
    ensures NoBreaks("_file) $error(\"Could not open file ")
  {
  }

  lemma FileReadLiterals()
    ensures NoBreaks("_in = 0;") && NoBreaks("    ") && NoBreaks("_in |= $fgetc(")
  {
  }

  lemma FgetcShiftLiteral()
    ensures NoBreaks("_file) << (8 * __i);")
  {
  }

  lemma FileWriteLiterals()
    ensures NoBreaks("    $fwrite(") && NoBreaks("_file, \"%c\", (") && NoBreaks("'hFF);")
  {
  }

  lemma ByteShiftLiteral()
    ensures NoBreaks(" >> (8 * __i)) & ")
  {
  }

  lemma ChunkLoopNoBreaks(f: File)
    ensures NoBreaks(ChunkLoop(f))
  {
    ChunkLoopLiterals();
    if f.endianness == "big" {
      IntToStringNoBreaks(f.chunkSize - 1);
      NoBreaksConcat("__i = ", IntToString(f.chunkSize - 1));
      NoBreaksConcat("__i = " + IntToString(f.chunkSize - 1), "; __i >= 0; __i--");
    } else {
      IntToStringNoBreaks(f.chunkSize);
      NoBreaksConcat("__i = 0; __i < ", IntToString(f.chunkSize));
      NoBreaksConcat("__i = 0; __i < " + IntToString(f.chunkSize), "; __i++");
    }
  }

  lemma ForHeaderNoBreaks(f: File)
    ensures NoBreaks(ForHeader(f))
  {
    ChunkLoopLiterals();
    ChunkLoopNoBreaks(f);
    NoBreaksConcat("for (", ChunkLoop(f));
    NoBreaksConcat("for (" + ChunkLoop(f), ") begin");
  }

  lemma FileOpenLineNoBreaks(f: File)
    requires SupportedMode(f.mode) && NoBreaks(f.name) && NoBreaks(f.nameWithoutExt)
    ensures NoBreaks(FileOpenLine(f))
  {
    FileOpenLiterals();
    var n := f.nameWithoutExt;
    NoBreaksConcat(n, "_file = $fopen(\"");
    NoBreaksConcat(n + "_file = $fopen(\"", f.name);
    NoBreaksConcat(n + "_file = $fopen(\"" + f.name, "\", \"");
    NoBreaksConcat(n + "_file = $fopen(\"" + f.name + "\", \"", f.mode);
    NoBreaksConcat(n + "_file = $fopen(\"" + f.name + "\", \"" + f.mode, "\");");
  }

  lemma FileCheckLineNoBreaks(f: File)
    requires NoBreaks(f.name) && NoBreaks(f.nameWithoutExt)
    ensures NoBreaks(FileCheckLine(f))
  {
    FileCheckLiterals();
    CouldNotOpenLiteral();
    var n := f.nameWithoutExt;
    var a := "if (!" + n + "_file) $error(\"Could not open file ";
    NoBreaksConcat("if (!", n);
    NoBreaksConcat("if (!" + n, "_file) $error(\"Could not open file ");
    NoBreaksConcat(a, f.name);
    NoBreaksConcat(a + f.name, ": %0d\", ");
    NoBreaksConcat(a + f.name + ": %0d\", ", n);
    NoBreaksConcat(a + f.name + ": %0d\", " + n, "_file);");
  }

  /** make_file_open emits two lines: the open call and its check. */
  lemma FileOpenCodeLines(f: File)
    requires SupportedMode(f.mode) && NoBreaks(f.name) && NoBreaks(f.nameWithoutExt)
    ensures FileOpenCode(f) == [FileOpenLine(f), FileCheckLine(f)]
  {
    FileOpenLineNoBreaks(f);
    FileCheckLineNoBreaks(f);
    TwoLines(FileOpenLine(f), FileCheckLine(f));
  }

  lemma FileReadLinesNoBreaks(f: File)
    requires NoBreaks(f.nameWithoutExt)
    ensures NoBreaks(FileReadInit(f)) && NoBreaks(FileReadBody(f))
  {
    FileReadLiterals();
    FgetcShiftLiteral();
    var n := f.nameWithoutExt;
    NoBreaksConcat(n, "_in = 0;");
    NoBreaksConcat("    ", n);
    NoBreaksConcat("    " + n, "_in |= $fgetc(");
    NoBreaksConcat("    " + n + "_in |= $fgetc(", n);
    NoBreaksConcat("    " + n + "_in |= $fgetc(" + n, "_file) << (8 * __i);");
  }

  /** make_file_read emits four lines: clear the chunk register, loop over the chunk's bytes
      in the file's byte order, OR one byte of the file into the register per iteration, and
      close the loop. */
  lemma FileReadCodeLines(f: File)
    requires NoBreaks(f.nameWithoutExt)
    ensures FileReadCode(f) == [FileReadInit(f), ForHeader(f), FileReadBody(f), "end"]
  {
    FileReadLinesNoBreaks(f);
    ForHeaderNoBreaks(f);
    FourLines(FileReadInit(f), ForHeader(f), FileReadBody(f), "end");
  }

  lemma FileWriteBodyNoBreaks(f: File, v: string)
    requires NoBreaks(f.nameWithoutExt) && NoBreaks(v)
    ensures NoBreaks(FileWriteBody(f, v))
  {
    FileWriteLiterals();
    ByteShiftLiteral();
    var n := f.nameWithoutExt;
    var a := "    $fwrite(" + n + "_file, \"%c\", (";
    var m := IntToString(f.chunkSize * 8);
    IntToStringNoBreaks(f.chunkSize * 8);
    NoBreaksConcat("    $fwrite(", n);
    NoBreaksConcat("    $fwrite(" + n, "_file, \"%c\", (");
    NoBreaksConcat(a, v);
    NoBreaksConcat(a + v, " >> (8 * __i)) & ");
    NoBreaksConcat(a + v + " >> (8 * __i)) & ", m);
    NoBreaksConcat(a + v + " >> (8 * __i)) & " + m, "'hFF);");
  }

  /** make_file_write emits three lines: loop over the chunk's bytes in the file's byte order,
      write one byte of the written value `v` per iteration, and close the loop. */
  lemma FileWriteCodeLines(f: File, v: string)
    requires NoBreaks(f.nameWithoutExt) && NoBreaks(v)
    ensures FileWriteCode(f, v) == [ForHeader(f), FileWriteBody(f, v), "end"]
  {
    ForHeaderNoBreaks(f);
    FileWriteBodyNoBreaks(f, v);
    ThreeLines(ForHeader(f), FileWriteBody(f, v), "end");
  }

  /** A file opened in a mode other than "r" or "w" raises NotImplementedError(mode) before
      anything is declared. */
  lemma FileOpenRejectsMode(env: Env, d: seq<string>, i: nat, f: File)
    requires !SupportedMode(f.mode)
    ensures Lower(env, d, i, FileOpen(f)) == Lowered(Err(NotImplementedError(f.mode)), d)
  {
  }

  /** A file opened for reading or writing declares its chunk register, as wide as the chunk
      size in bytes, and its descriptor, and emits the open call and its check as two lines. */
  lemma FileOpenLowering(env: Env, d: seq<string>, i: nat, f: File)
    requires SupportedMode(f.mode) && NoBreaks(f.name) && NoBreaks(f.nameWithoutExt)
    ensures Lower(env, d, i, FileOpen(f)) == Lowered(Ok([FileOpenLine(f), FileCheckLine(f)]), d + FileOpenDecls(f))
  {
    FileOpenCodeLines(f);
  }

  /** Appending the shared index declaration when absent leaves it declared, once if it was
      not declared before. */
  lemma WithIndexDeclCount(d: seq<string>)
    ensures IndexDecl in WithIndexDecl(d)
    ensures multiset(WithIndexDecl(d))[IndexDecl] == if IndexDecl in d then multiset(d)[IndexDecl] else 1
    ensures d <= WithIndexDecl(d) && |WithIndexDecl(d)| <= |d| + 1
  {
    if IndexDecl !in d {
      assert multiset(d)[IndexDecl] == 0;
    }
  }

  /** The byte loop runs from chunk-1 down to 0 for a big-endian file and from 0 up to chunk-1
      for any other endianness. */
  lemma ByteLoopDirection(f: File)
    ensures f.endianness == "big"
         ==> ForHeader(f) == "for (" + ("__i = " + IntToString(f.chunkSize - 1) + "; __i >= 0; __i--") + ") begin"
    ensures f.endianness != "big"
         ==> ForHeader(f) == "for (" + ("__i = 0; __i < " + IntToString(f.chunkSize) + "; __i++") + ") begin"
  {
  }

  /** A BitVector variable declares a register of its size and emits nothing; a variable of
      any other type raises NotImplementedError with that type. */
  lemma VarLowering(env: Env, d: seq<string>, i: nat, name: string, t: VarType)
    ensures Lower(env, d, i, Var(name, t))
         == if t.BitVectorType? then Lowered(Ok([]), d + ["reg [" + IntToString(t.size - 1) + ":0] " + name + ";"])
            else Lowered(Err(NotImplementedError(t.text)), d)
  {
  }
}
