/** What generate_code's result is made of: which inputs make it raise, that each top-level
    action is lowered with its own position, and the frame of the test bench text. */
module TargetFacts {
  import opened Wrappers
  import opened Text
  import opened Hardware
  import opened Actions
  import opened Lowering
  import opened LoweringFacts
  import opened PortBinding
  import opened Target

  /** The top-level actions raise exactly when one of them holds a configuration error. */
  lemma {:induction false} LowerActionsFailsIff(env: Env, d: seq<string>, xs: seq<Action>)
    ensures LowerActions(env, d, xs).code.Err? <==> AnyConfigError(xs)
    decreases |xs|
  {
    if xs != [] {
      var init := xs[..|xs| - 1];
      var last := xs[|xs| - 1];
      LowerActionsFailsIff(env, d, init);
      var p := LowerActions(env, d, init);
      LowerFailsIff(env, p.decls, |xs| - 1, last);
      assert AnyConfigError(xs) <==> AnyConfigError(init) || HasConfigError(last) by {
        if AnyConfigError(xs) {
          var k :| 0 <= k < |xs| && HasConfigError(xs[k]);
          if k < |xs| - 1 {
            assert init[k] == xs[k];
          }
        }
        if AnyConfigError(init) {
          var k :| 0 <= k < |init| && HasConfigError(init[k]);
          assert xs[k] == init[k];
        }
      }
    }
  }

  /** The lines of the top-level actions, action j lowered on its own with index j. */
  function IndexedCodes(env: Env, xs: seq<Action>): seq<seq<string>>
    requires !AnyConfigError(xs)
  {
    seq(|xs|, j requires 0 <= j < |xs| => CodeAlone(env, j, xs[j]))
  }

  /** The initial block holds, in order, the lines of every action lowered with its own
      position as index (the index that Expect reports as `action=`). */
  lemma {:induction false} LowerActionsConcatenates(env: Env, d: seq<string>, xs: seq<Action>)
    requires !AnyConfigError(xs)
    ensures LowerActions(env, d, xs).code == Ok(Concat(IndexedCodes(env, xs)))
    decreases |xs|
  {
    if xs != [] {
      var init := xs[..|xs| - 1];
      var last := xs[|xs| - 1];
      assert !AnyConfigError(init) by {
        forall k | 0 <= k < |init| ensures !HasConfigError(init[k]) {
          assert init[k] == xs[k];
        }
      }
      LowerActionsConcatenates(env, d, init);
      var p := LowerActions(env, d, init);
      CodeIgnoresDecls(env, p.decls, [], |xs| - 1, last);
      LowerFailsIff(env, [], |xs| - 1, last);
      assert IndexedCodes(env, xs)[..|xs| - 1] == IndexedCodes(env, init);
    }
  }

  /** Lowering the actions only appends to the declarations. */
  lemma {:induction false} LowerActionsExtendsDecls(env: Env, d: seq<string>, xs: seq<Action>)
    ensures d <= LowerActions(env, d, xs).decls
    decreases |xs|
  {
    if xs != [] {
      var init := xs[..|xs| - 1];
      LowerActionsExtendsDecls(env, d, init);
      var p := LowerActions(env, d, init);
      LowerExtendsDecls(env, p.decls, |xs| - 1, xs[|xs| - 1]);
    }
  }

  /** generate_code raises exactly when a leaf of some port has no storage class or an action
      holds a configuration error. */
  lemma GenerateCodeFailsIff(uw: bool, power: PowerArgs, env: Env, cn: string, d: seq<string>,
                             ports: seq<Port>, actions: seq<Action>)
    ensures GenerateCodeSpec(uw, power, env, cn, d, ports, actions).src.Ok?
        <==> AllSupported(uw, power, PortsLeaves(ports)) && !AnyConfigError(actions)
  {
    PortsCodeResult(uw, power, d, ports);
    var b := PortsCode(uw, power, d, ports);
    LowerActionsFailsIff(env, b.decls, actions);
  }

  lemma StartsWith(a: string, b: string, c: string)
    requires a <= b
    ensures a <= b + c
  {
    assert (b + c)[..|b|] == b;
  }

  /** The test bench is the module `{circuit}_tb` ending with the `$finish` delay and
      `endmodule`; its declarations are the earlier ones, then every port leaf's, then the
      actions'. */
  lemma GeneratedFrame(uw: bool, power: PowerArgs, env: Env, cn: string, d: seq<string>,
                       ports: seq<Port>, actions: seq<Action>)
    requires GenerateCodeSpec(uw, power, env, cn, d, ports, actions).src.Ok?
    ensures var g := GenerateCodeSpec(uw, power, env, cn, d, ports, actions);
      var src := g.src.value;
      "module " + cn + "_tb;\n" <= src
      && |Trailer| <= |src| && src[|src| - |Trailer|..] == Trailer
      && d + AllLeafDecls(uw, power, PortsLeaves(ports)) <= g.decls
  {
    PortsCodeResult(uw, power, d, ports);
    var b := PortsCode(uw, power, d, ports);
    var l := LowerActions(env, b.decls, actions);
    LowerActionsExtendsDecls(env, b.decls, actions);
    var h := "module " + cn + "_tb;\n";
    var decls := Join("\n", l.decls);
    var plist := Join(",\n        ", b.clauses.value);
    var body := Body(l.code.value);
    var s1 := h + decls + "\n\n    ";
    var s2 := s1 + cn + " dut (\n        ";
    var s3 := s2 + plist + "\n    );\n\n    initial begin\n";
    StartsWith(h, h, decls);
    StartsWith(h, h + decls, "\n\n    ");
    StartsWith(h, s1, cn);
    StartsWith(h, s1 + cn, " dut (\n        ");
    StartsWith(h, s2, plist);
    StartsWith(h, s2 + plist, "\n    );\n\n    initial begin\n");
    StartsWith(h, s3, body);
    StartsWith(h, s3 + body, Trailer);
    assert SourceText(cn, l.decls, b.clauses.value, body) == s3 + body + Trailer;
  }

  lemma BodyCons(x: string, ys: seq<string>)
    ensures Body([x] + ys) == "        " + x + "\n" + Body(ys)
  {
    BodyAppend([x], ys);
    assert [x][..0] == [];
  }

  lemma EightSpaces()
    ensures NoBreaks("        ") && Spaces(2) == "        "
  {
  }

  lemma IndentByCons(d: nat, x: string, ys: seq<string>)
    ensures IndentBy(d, [x] + ys) == [Spaces(d) + x] + IndentBy(d, ys)
  {
  }

  /** Read back line by line, the initial block's body is the statement lines, each indented
      by two units. */
  lemma {:induction false} BodyLines(lines: seq<string>)
    requires forall k :: 0 <= k < |lines| ==> NoBreaks(lines[k])
    ensures SplitLines(Body(lines)) == IndentBy(2, lines)
    decreases |lines|
  {
    if lines != [] {
      var x := lines[0];
      var ys := lines[1..];
      assert lines == [x] + ys;
      assert forall k :: 0 <= k < |ys| ==> ys[k] == lines[k + 1];
      BodyCons(x, ys);
      EightSpaces();
      NoBreaksConcat("        ", x);
      SplitLinesCons("        " + x, Body(ys));
      BodyLines(ys);
      IndentByCons(2, x, ys);
    }
  }
}
