# fault: the SystemVerilog test bench target and the Tester recorder

This project models two parts of the fault hardware testing library. The first is the
`SystemVerilogTarget`. It takes the actions a test records (poke, expect, step, loops,
file I/O, ...) and the ports of the circuit under test, and writes a SystemVerilog test
bench from them. It also builds the command lines that compile and run that test bench
with ncsim, vcs or iverilog. The second is the `Tester`, which records those actions one
call at a time.

The modules follow the structure of the program:

- `Wrappers`: `Option`, `Result`, and the Python exceptions the code raises (`ValueError`,
  `TypeError`, `RuntimeError`, `NotImplementedError`) as values.
- `Text`: the Python string operations the generator relies on. These are `str()` of an
  int, `str.join`, `str.splitlines`, and indentation by units of four spaces.
- `Hardware`: the objects the target receives.
  - Magma port types are an abstract `Kind`: Real, Bit, Bits(n), Array(N, T) and
    Tuple(keys, types), each with a direction.
  - The three kinds of port reference, fault values, expressions and file descriptors.
- `Names`: `make_name`, `process_peek`, `process_value`, `compile_expression`,
  `input_wire` and `make_line`, as functions.
- `Actions`: the action datatype.
- `Lowering`: a pure specification of every `make_*` lowerer and of the dispatch by
  action kind. The declarations list is threaded through as a value.
- `LoweringFacts`: what each action emits, how blocks nest, and what lowering does to the
  declarations.
- `PortBinding`: a pure specification of `generate_port_code` and
  `generate_recursive_port_code`. A port is flattened into leaves, and each leaf gets a
  declaration and a `.name(signal)` clause.
- `Simulators`: the constructor's defaulting and validation, `def_args`, the three command
  builders and the TCL commands of `write_ncsim_tcl`.
- `Target`: the class `SystemVerilogTarget`.
  - Its mutable `declarations` field is appended to in place by the `make_*` methods and by
    port binding.
  - Every method, with its loops, is proved to compute exactly what the pure functions of
    `Lowering`, `PortBinding`, `Simulators` and `Target` specify.
  - `GenerateCode` is proved equal to the template filled in with the bound ports and the
    lowered actions.
- `TargetFacts`: properties of `generate_code`'s result.
  - When it raises.
  - That action j is lowered with index j.
  - The frame of the module text.
  - That the body reads back as the statement lines indented by two units.
- `TesterModel`: the class `Tester`. Its append-only `actions` log keeps the invariant
  that every recorded Step drives the tester's clock.

Several helpers are defined outside the two modelled files. Each is a parameter or abstract data:

| helper | how it is modelled |
|---|---|
| `verilog_name` (fault.verilog_target) | a function parameter of the environment |
| `SelectPath.system_verilog_path` | a string stored on the select path |
| `actions.is_inout` | taken from the direction of the referenced port's type |
| `value_utils.is_any` | a value constructor |
| `value_utils.make_value` | a function field of the tester |
| `File.name_without_ext` | data stored on the file |

`BitVector[n](v).as_uint()` is `v mod 2^n`.

Two behaviours of the code as written are stated as lemmas rather than corrected:

- `compile_expression` writes nested operators without parentheses of their own.
  `CompileExpressionForgetsGrouping` shows that `(a + b) * c` and `a + (b * c)` give the
  same text.
- The children of a block are lowered with the block's own action index.

## Model

| member | source | states |
|---|---|---|
| Text.NatToStringRoundTrip | fault/system_verilog_target.py:422-425 | reading back the digits of `str(j)`, as used for array element names, gives j |
| Text.NatToStringInjective | fault/system_verilog_target.py:422-425 | distinct element indices give distinct `str(j)` |
| Text.JoinAppend | fault/system_verilog_target.py:496-499 | joining two non-empty lists is the two joins with the separator between them |
| Text.IndentAppend | fault/system_verilog_target.py:255-258 | indenting the lines of consecutive children is indenting each child's lines in turn |
| Text.IndentByStep | fault/system_verilog_target.py:255-258 | indenting lines that are already indented by d units puts them at d+1 units |
| Text.FirstBreak | fault/system_verilog_target.py:275 | the first line boundary: none before it, and the one at its position is a boundary |
| Text.SplitLines | fault/system_verilog_target.py:275 | no line that `str.splitlines` returns contains a line boundary |
| Text.SplitLinesCons | fault/system_verilog_target.py:275 | a line without boundaries followed by `\n` splits off as exactly that line |
| Hardware.AsUint | fault/system_verilog_target.py:199-201 | `as_uint` of an n-bit BitVector lies below 2^n |
| Names.ShortSelectPathIsTopPort | fault/system_verilog_target.py:165-176 | a SelectPath of one or two elements resolves as its leaf port does |
| Names.DeepSelectPathIgnoresLeaf | fault/system_verilog_target.py:166-168 | a longer SelectPath resolves to `dut.` plus its path, whatever its leaf is |
| Names.Tokens | fault/system_verilog_target.py:218-234 | every expression has at least one token |
| Names.CompileExpressionIsTokens | fault/system_verilog_target.py:218-234 | a compiled expression is its operators and leaves in source order, one space apart |
| Names.CompileExpressionForgetsGrouping | fault/system_verilog_target.py:219-223 | two groupings of the same three operands compile to the same text |
| Names.SizedLiteralRoundTrip | fault/system_verilog_target.py:198 | a sized literal `{w}'d{v}` parses back to (w, v) |
| Names.BitVectorLiteral | fault/system_verilog_target.py:197-198 | a BitVector of width w on any port is the sized literal of w and its value mod 2^w |
| Names.SignedNegativeLiteral | fault/system_verilog_target.py:199-202 | a negative in-range int on an n-bit signed port is the sized literal of v + 2^n, whose sign bit is set |
| Names.SignedNegativeWraps | fault/system_verilog_target.py:199-202 | any negative int on an n-bit signed port, in range or not, is the sized n-bit literal of v mod 2^n |
| Names.PlainIntLiteral | fault/system_verilog_target.py:196-216 | any other int is returned as its decimal text |
| Names.SentinelLiterals | fault/system_verilog_target.py:203-206 | in the model, Unknown is `'X` and HiZ is `'Z` on every port; the source's `value < 0` test on a sentinel is left out (see "Left out") |
| Names.ExpressionValueParenthesised | fault/system_verilog_target.py:214-215 | an expression value is its compiled tokens in one pair of parentheses |
| PortBinding.LeavesAreLeafKinds | fault/system_verilog_target.py:419-439 | the flattening of a port yields only leaf types (Real, Bit or array of bits) |
| PortBinding.ElementLeavesAreLeafKinds | fault/system_verilog_target.py:421-426 | the leaves of the first n array elements are leaf types |
| PortBinding.FieldLeavesAreLeafKinds | fault/system_verilog_target.py:427-432 | the leaves of the first m tuple fields are leaf types |
| PortBinding.LeavesCodeAppend | fault/system_verilog_target.py:426 | binding two leaf lists in a row is binding their concatenation |
| PortBinding.PortCodeIsLeavesCode | fault/system_verilog_target.py:435-439 | binding a port is binding its flattened leaves in order |
| PortBinding.ElementsStep | fault/system_verilog_target.py:422-426 | unfolds the definition one step: element n-1 is bound after the first n-1 under the name `{name}_{n-1}` |
| PortBinding.ElementsCombine | fault/system_verilog_target.py:422-426 | binding n-1 elements and then element n-1 is binding the leaves of n elements |
| PortBinding.ElementsCodeIsLeavesCode | fault/system_verilog_target.py:421-426 | binding array elements is binding their leaves |
| PortBinding.FieldsStep | fault/system_verilog_target.py:428-432 | unfolds the definition one step: field m-1 is bound after the first m-1 under the name `{name}_{key}` |
| PortBinding.FieldsCombine | fault/system_verilog_target.py:428-432 | binding m-1 fields and then field m-1 is binding the leaves of m fields |
| PortBinding.FieldsCodeIsLeavesCode | fault/system_verilog_target.py:427-432 | binding tuple fields is binding their leaves |
| PortBinding.AllClauses | fault/system_verilog_target.py:482 | one clause per leaf |
| PortBinding.LeavesResultStep | fault/system_verilog_target.py:435-482 | one more leaf keeps the result of binding leaves as LeavesCodeResult states it |
| PortBinding.LeavesCodeResult | fault/system_verilog_target.py:435-482 | binding leaves succeeds iff every leaf has a storage class; it only appends declarations, and on success gives exactly one clause per leaf and every leaf's declarations in order |
| PortBinding.AllClausesIndex | fault/system_verilog_target.py:482 | the j-th clause belongs to the j-th leaf |
| PortBinding.LeafDeclCount | fault/system_verilog_target.py:456-478 | a shadowed leaf adds three declarations and any other leaf adds one |
| PortBinding.PortClauses | fault/system_verilog_target.py:442-482 | clause j is `.{leaf}({leaf})`, or `.{leaf}(__{leaf}_wire)` for a shadowed leaf |
| PortBinding.UndirectedLeafRaises | fault/system_verilog_target.py:470-473 | a leaf with no direction and no power role raises NotImplementedError and declares nothing |
| PortBinding.StoragePrecedence | fault/system_verilog_target.py:446-473 | each storage class holds exactly when its branch is the first that applies: real, then supply0, supply1 and tri by list membership, then wire for an output, shadowed for an inout (or an input with use_input_wires), reg for any other input, and unsupported otherwise |
| PortBinding.ArrayOfVectorsLeaves | fault/system_verilog_target.py:421-426 | an array of leaves yields `{name}_{j}` for j < N |
| PortBinding.ElementLeavesOfLeaf | fault/system_verilog_target.py:421-426 | the first n elements of a leaf type are `{name}_{j}` for j < n |
| PortBinding.PortsLeavesAreLeafKinds | fault/system_verilog_target.py:487-489 | the circuit's leaves are leaf types |
| PortBinding.PortsCodeIsLeavesCode | fault/system_verilog_target.py:487-489 | binding all ports is binding all their leaves in port order |
| PortBinding.PortsCodeResult | fault/system_verilog_target.py:487-489 | the port list succeeds iff every leaf is supported; it has one clause per leaf and every leaf's declarations in order |
| LoweringFacts.LowerSeqErrorStops | fault/system_verilog_target.py:255-258 | once a child raises, later children are not lowered |
| LoweringFacts.LowerSeqSnoc | fault/system_verilog_target.py:255-258 | one more child extends the block's lines and declarations by that child's |
| LoweringFacts.LowerExtendsDecls | fault/system_verilog_target.py:184-417 | lowering only appends declarations, also when it raises |
| LoweringFacts.LowerSeqExtendsDecls | fault/system_verilog_target.py:255-258 | a block's children only append declarations |
| LoweringFacts.CodeIgnoresDecls | fault/system_verilog_target.py:280-311 | the lines emitted do not depend on what was declared earlier |
| LoweringFacts.SeqCodeIgnoresDecls | fault/system_verilog_target.py:255-258 | the same holds for a block's children |
| LoweringFacts.LowerFailsIff | fault/system_verilog_target.py:184-189 | lowering raises iff the tree holds an unsupported file mode or a non-BitVector variable |
| LoweringFacts.LowerSeqFailsIff | fault/system_verilog_target.py:264-265 | a block raises iff one of its children's trees does |
| LoweringFacts.OtherDeclsAreNotIndexDecl | fault/system_verilog_target.py:268-270 | file-open and variable declarations are never `integer __i;` |
| LoweringFacts.IndexDeclAtMostOnceLeaf | fault/system_verilog_target.py:263-311 | no action other than a block can declare `integer __i;` a second time |
| LoweringFacts.IndexDeclAtMostOnce | fault/system_verilog_target.py:281-283 | `integer __i;` stays declared at most once while no Loop uses `__i` as its counter |
| LoweringFacts.IndexDeclAtMostOnceSeq | fault/system_verilog_target.py:299-301 | the same holds for a block's children |
| LoweringFacts.LoopCounterDeclared | fault/system_verilog_target.py:249 | after a successful lowering every Loop's counter is declared |
| LoweringFacts.LoopCounterDeclaredSeq | fault/system_verilog_target.py:249 | the same holds for a block's children |
| LoweringFacts.ConcatenatesStep | fault/system_verilog_target.py:255-258 | one more child appends exactly the lines it emits on its own |
| LoweringFacts.LowerSeqConcatenates | fault/system_verilog_target.py:255-258 | a block's children emit, in order, exactly the lines each emits on its own |
| LoweringFacts.LoopLayout | fault/system_verilog_target.py:248-261 | a Loop is its counted header, its children indented once, and `end`, and it declares its counter right after the earlier declarations |
| LoweringFacts.WhileLayout | fault/system_verilog_target.py:380-393 | a While is `while (cond) begin`, its children indented once, and `end` |
| LoweringFacts.IfLayout | fault/system_verilog_target.py:395-417 | an If closes with `end`, or with `end else begin`, the else children indented and `end` |
| LoweringFacts.LoopOfOne | fault/system_verilog_target.py:248-261 | a Loop around one child encloses that child's lines, or raises its exception |
| LoweringFacts.NestLowering | fault/system_verilog_target.py:248-261 | a nest of Loops around an action that raises nothing encloses the action's own lines once per Loop |
| LoweringFacts.NestedCodeIndents | fault/system_verilog_target.py:255-258 | k enclosing Loops put k headers above and k `end`s below, and indent each inner line by k units |
| LoweringFacts.NestedLoopIndentation | fault/system_verilog_target.py:255-258 | k nested Loops indent the inner lines by exactly k units, with k headers above and k `end`s below |
| LoweringFacts.PokeLowering | fault/system_verilog_target.py:236-240 | a Poke is `name = value;` then `#{clock_step_delay};`, declaring nothing |
| LoweringFacts.EvalLowering | fault/system_verilog_target.py:369-371 | an Eval emits and declares nothing |
| LoweringFacts.StepCodeShape | fault/system_verilog_target.py:373-378 | make_step emits max(steps, 0) copies of `#5 {clk} ^= 1;` |
| LoweringFacts.StepIgnoresClockStepDelay | fault/system_verilog_target.py:377 | a Step does not depend on clock_step_delay and declares nothing |
| LoweringFacts.PrintWithoutPorts | fault/system_verilog_target.py:242-246 | a Print without ports writes the format string alone |
| LoweringFacts.PrintOnePort | fault/system_verilog_target.py:243-246 | a Print of one port passes its resolved name after the format string |
| LoweringFacts.JoinIsCommaPrefixed | fault/system_verilog_target.py:243-244 | `", "` before the names joined with `", "` is each name, in order, preceded by `", "`, and two or more names never join to the empty text |
| LoweringFacts.PrintArguments | fault/system_verilog_target.py:242-246 | for any list of ports the `$write` holds the format string and then each resolved name in order after `", "`; when the one port's name is empty, the format string stands alone |
| LoweringFacts.ExpectAnyIsNoop | fault/system_verilog_target.py:313-367 | an Expect emits nothing iff its value is "any", otherwise three lines ending in `end`; it never declares |
| LoweringFacts.ExpectExactLowering | fault/system_verilog_target.py:318-347 | an exact Expect guards on `!==` if strict and `!=` otherwise, reads an inout port through its shadow wire, and reports action, port, value and signal |
| LoweringFacts.ExpectToleranceLowering | fault/system_verilog_target.py:348-367 | a tolerance Expect fails unless lo <= name <= hi, with lo and hi as nom ∓ rel*\|nom\| ∓ abs, and reports both bounds |
| LoweringFacts.ExpectDebugNames | fault/system_verilog_target.py:327-333 | the reported port is the leaf name, the port's own name, or the signal read for an internal port |
| LoweringFacts.FileOpenCodeLines | fault/system_verilog_target.py:271-275 | make_file_open emits the open call and its check as two lines |
| LoweringFacts.FileReadCodeLines | fault/system_verilog_target.py:288-294 | make_file_read emits the clear, the byte loop header, the OR of one byte, and `end` |
| LoweringFacts.FileWriteCodeLines | fault/system_verilog_target.py:306-311 | make_file_write emits the byte loop header, the write of one byte, and `end` |
| LoweringFacts.FileOpenRejectsMode | fault/system_verilog_target.py:264-265 | a mode other than r or w raises NotImplementedError(mode) before declaring anything |
| LoweringFacts.FileOpenLowering | fault/system_verilog_target.py:263-275 | a supported open declares its chunk register and descriptor and emits two lines |
| LoweringFacts.WithIndexDeclCount | fault/system_verilog_target.py:281-283 | appending `integer __i;` when absent leaves it declared, and once if it was absent |
| LoweringFacts.ByteLoopDirection | fault/system_verilog_target.py:284-287 | a big-endian chunk loops from chunk-1 down to 0, any other from 0 up to chunk-1 |
| LoweringFacts.VarLowering | fault/system_verilog_target.py:184-189 | a BitVector variable declares `reg [size-1:0] name;` and emits nothing; another type raises |
| Simulators.ConfigureErrors | fault/system_verilog_target.py:109-142 | the constructor raises both-library, missing and unsupported simulator errors in that order, and succeeds iff none applies |
| Simulators.ConfigureDefaults | fault/system_verilog_target.py:109-160 | the library list, ext_model_file, skip_compile and the empty-list defaults |
| Simulators.ConfigureKeywordDefaults | fault/system_verilog_target.py:35-43 | with only a circuit name and a supported simulator, the target has timescale `1ns/1ns`, clock step delay 5, 10000 cycles, VCD dumping on, no_warning, ext_test_bench and use_input_wires off, no external model, compilation on, empty lists and no top module; with no simulator it raises |
| Simulators.ExtTestBenchSkipsCompile | fault/system_verilog_target.py:121-127 | an external test bench implies an external model and skip_compile when both are left out |
| Simulators.DefArgList | fault/system_verilog_target.py:629-636 | one argument per define |
| Simulators.DefArgListIndex | fault/system_verilog_target.py:631-635 | argument j is define j |
| Simulators.DefArgs | fault/system_verilog_target.py:629-636 | the loop computes DefArgList |
| Simulators.DefArgShape | fault/system_verilog_target.py:632-634 | `prefix+key`, with `=value` only when a value is given |
| Simulators.Flagged | fault/system_verilog_target.py:664-665 | two arguments per library |
| Simulators.FlaggedIndex | fault/system_verilog_target.py:664-669 | the flag comes before every item, in order |
| Simulators.Prefixed | fault/system_verilog_target.py:700-701 | one argument per directory |
| Simulators.PrefixedIndex | fault/system_verilog_target.py:736-737 | argument j is the prefix glued to directory j |
| Simulators.AppendFlagged | fault/system_verilog_target.py:696-697 | the loop appends Flagged |
| Simulators.AppendPrefixed | fault/system_verilog_target.py:700-701 | the loop appends Prefixed |
| Simulators.NcsimHead | fault/system_verilog_target.py:642-658 | seven leading arguments with `-top`, five without |
| Simulators.NcsimCmd | fault/system_verilog_target.py:638-681 | the argument vector is NcsimCmdSpec |
| Simulators.VcsCmd | fault/system_verilog_target.py:683-716 | the argument vector is VcsCmdSpec and the binary `./simv` |
| Simulators.IverilogCmd | fault/system_verilog_target.py:718-746 | the argument vector is IverilogCmdSpec and the binary `{circuit}_tb` |
| Simulators.NcsimTopSelection | fault/system_verilog_target.py:644-652 | `-top {circuit}_tb` without a top module or external bench, `-top {top}` with one, and no `-top` otherwise |
| Simulators.NcsimSplit | fault/system_verilog_target.py:638-681 | ncsim's vector is its head, the sources and its tail |
| Simulators.VcsSplit | fault/system_verilog_target.py:683-716 | vcs's vector is `vcs`, the timescale, the sources and its tail |
| Simulators.IverilogSplit | fault/system_verilog_target.py:718-746 | iverilog's vector is `iverilog -o {circuit}_tb`, the sources and its tail |
| Simulators.SourcesPassedInOrder | fault/system_verilog_target.py:661 | each simulator gets the sources unchanged and in order after its fixed leading arguments |
| Simulators.DefinesPrecedeTrailingFlags | fault/system_verilog_target.py:739-743 | iverilog gets one `-D` per define, in order, right before the final `-g2012` |
| Simulators.TclCommandsShape | fault/system_verilog_target.py:614-619 | two more commands with VCD dumping, always ending with `run {num_cycles}ns` and `quit` |
| Target.BodyAppend | fault/system_verilog_target.py:493-494 | the body of two line lists is the two bodies one after the other |
| Target.AppendBody | fault/system_verilog_target.py:493-494 | the loop appends every line, indented by two units and newline-ended |
| Target.SystemVerilogTarget.constructor | fault/system_verilog_target.py:144-160 | the settings are kept and the declarations start empty |
| Target.SystemVerilogTarget.Create | fault/system_verilog_target.py:109-160 | a target is made iff the options are accepted, with the same error otherwise |
| Target.SystemVerilogTarget.AddDecl | fault/system_verilog_target.py:162-163 | the declarations are extended by the given ones |
| Target.SystemVerilogTarget.MakeVar | fault/system_verilog_target.py:184-189 | a BitVector variable appends its register declaration; another type raises and appends nothing |
| Target.SystemVerilogTarget.MakeFileOpen | fault/system_verilog_target.py:263-275 | an unsupported mode raises with nothing appended; otherwise two declarations and the open code |
| Target.SystemVerilogTarget.MakeFileRead | fault/system_verilog_target.py:280-294 | appends `integer __i;` only when absent and returns the read code |
| Target.SystemVerilogTarget.MakeFileWrite | fault/system_verilog_target.py:296-311 | appends `integer __i;` only when absent and returns the write code for the resolved name |
| Target.SystemVerilogTarget.MakeStep | fault/system_verilog_target.py:373-378 | max(steps, 0) toggle lines of the escaped clock name |
| Target.SystemVerilogTarget.MakeChild | fault/system_verilog_target.py:256-258 | one child's lowering either ends the block with its exception or extends the block's lines |
| Target.SystemVerilogTarget.MakeChildren | fault/system_verilog_target.py:255-258 | the children's lines are indented and appended, or the first exception is returned |
| Target.SystemVerilogTarget.MakeLoop | fault/system_verilog_target.py:248-261 | the result and new declarations are Lower's for the Loop |
| Target.SystemVerilogTarget.MakeWhile | fault/system_verilog_target.py:380-393 | the result and new declarations are Lower's for the While |
| Target.SystemVerilogTarget.MakeIf | fault/system_verilog_target.py:395-417 | the result and new declarations are Lower's for the If |
| Target.SystemVerilogTarget.GenerateActionCode | fault/system_verilog_target.py:184-417 | every action kind is lowered as Lower states |
| Target.SystemVerilogTarget.GenerateLeafCode | fault/system_verilog_target.py:184-378 | every action that is not a block is lowered as LowerLeaf states |
| Target.SystemVerilogTarget.GeneratePortCode | fault/system_verilog_target.py:435-482 | the clauses and new declarations are PortCode's |
| Target.SystemVerilogTarget.GenerateRecursivePortCode | fault/system_verilog_target.py:419-433 | arrays and tuples are bound element by element as PortCode states |
| Target.SystemVerilogTarget.GenerateElementsCode | fault/system_verilog_target.py:421-426 | the N elements of an array are bound in order as ElementsCode states, stopping at the first exception |
| Target.SystemVerilogTarget.GenerateFieldsCode | fault/system_verilog_target.py:427-432 | the zipped (key, field) pairs of a tuple are bound in order as FieldsCode states, stopping at the first exception |
| Target.SystemVerilogTarget.GeneratePortList | fault/system_verilog_target.py:486-489 | all ports are bound in order as PortsCode states |
| Target.SystemVerilogTarget.GenerateInitialBody | fault/system_verilog_target.py:491-494 | action i is lowered with index i and its lines are appended to the body |
| Target.SystemVerilogTarget.GenerateCode | fault/system_verilog_target.py:484-503 | the text and new declarations are GenerateCodeSpec's |
| Target.ChildStep | fault/system_verilog_target.py:257-258 | one more child either ends the block with its exception or extends its lines |
| Target.ElementStep | fault/system_verilog_target.py:422-426 | one more element either ends the array with its exception or extends its clauses |
| Target.FieldStep | fault/system_verilog_target.py:428-432 | one more field either ends the tuple with its exception or extends its clauses |
| Target.PortStep | fault/system_verilog_target.py:486-489 | one more port either ends generate_code with its exception or extends the port list |
| Target.ElementsErrorStops | fault/system_verilog_target.py:422-426 | once an element raises, later elements are not bound |
| Target.FieldsErrorStops | fault/system_verilog_target.py:428-432 | once a field raises, later fields are not bound |
| Target.PortsErrorStops | fault/system_verilog_target.py:487-489 | once a port raises, later ports are not bound |
| Target.ActionStep | fault/system_verilog_target.py:491-492 | one more top-level action, lowered with its position as index |
| Target.LowerActionsErrorStops | fault/system_verilog_target.py:491-492 | once an action raises, later actions are not lowered |
| TargetFacts.LowerActionsFailsIff | fault/system_verilog_target.py:491-492 | the actions raise iff one holds an unsupported file mode or variable type |
| TargetFacts.LowerActionsConcatenates | fault/system_verilog_target.py:491-494 | the body lines are every action's own lines in order, action j with index j |
| TargetFacts.LowerActionsExtendsDecls | fault/system_verilog_target.py:491-492 | lowering the actions only appends declarations |
| TargetFacts.GenerateCodeFailsIff | fault/system_verilog_target.py:484-503 | generate_code raises iff some port leaf has no storage class or some action holds a configuration error |
| TargetFacts.GeneratedFrame | fault/system_verilog_target.py:17-31 | the text opens with `module {circuit}_tb;` and ends with `$finish` and `endmodule`; the declarations hold every port leaf's in order |
| TargetFacts.BodyLines | fault/system_verilog_target.py:493-494 | split into lines, the body is the statement lines indented by two units |
| TesterModel.MakeTarget | fault/tester.py:18-28 | verilator, coreir and python are accepted, and anything else raises NotImplementedError(target) |
| TesterModel.StepsUseAppend | fault/tester.py:41-45 | appending keeps the Step invariant iff the new action does |
| TesterModel.Tester.constructor | fault/tester.py:11-16 | the action list starts empty and the clock is kept |
| TesterModel.Tester.Create | fault/tester.py:11-16 | a clock that is not a ClockType raises TypeError; otherwise the tester starts empty |
| TesterModel.Tester.Poke | fault/tester.py:30-32 | exactly one Poke of the converted value is appended |
| TesterModel.Tester.Expect | fault/tester.py:34-36 | exactly one Expect of the converted value is appended |
| TesterModel.Tester.Eval | fault/tester.py:38-39 | exactly one Eval is appended |
| TesterModel.Tester.Step | fault/tester.py:41-45 | without a clock, RuntimeError and nothing recorded; otherwise one Step(steps, clock), with steps defaulting to 1 |

## Left out

- `run`, `subprocess_run` and `display_subprocess_output` (fault/system_verilog_target.py:505-610) are left out. They run processes and scan their output. The list of sources `run` assembles and its dispatch on the simulator are not modelled either. The command builders take the sources as a parameter.
- `write_test_bench`'s file write and timestamp bump are file-system I/O and are left out. `write_ncsim_tcl`'s file write is left out for the same reason. Its command list is `Simulators.TclCommands`.
- The magma compile done by the `VerilogTarget` superclass constructor is left out. So are the `circuit_name`, `directory`, `magma_output`, `magma_opts` and `sim_env` settings, which only that compile and the subprocess calls use. `circuit_name` is taken as given, already defaulted.
- `generate_action_code` is defined in fault/verilog_target.py, which is not part of this model. It is modelled as a dispatch on the action's kind to the matching `make_*`.
- The `VerilatorTarget` and `MagmaSimulatorTarget` constructions in `make_target` are foreign code. The model returns which target would be built. The warning logged for `"python"` and `serialize`/`compile_and_run` are left out.
- `TesterModel.Tester.Expect`: `actions.Expect` is not part of this model. Its defaults are taken as non-strict with no tolerance.
- `TesterModel.Tester.Create`: the `TypeError` message shows `repr((clock, type(clock)))`. The model takes that text as a parameter.
- `value_utils.make_value` is a function parameter, so the conversion it does is not modelled.
- The numeric tolerance is left out. `rel_tol` and `abs_tol` are floats that are only spliced into the text, so the model keeps their text.
- The runtime semantics of the generated Verilog are the simulator's concern and are left out. This covers four-state comparison and the `$fgetc` byte assembly.
- `process_value`'s signed branch (fault/system_verilog_target.py:199) is modelled for int values only. The Python `value < 0` comparison on other objects, such as the Unknown and HiZ sentinels poked into a signed port, is not modelled; `Names.SentinelLiterals` is a statement about the model on that account.
- The line-splitting lemmas for file code (`LoweringFacts.FileOpenCodeLines`, `LoweringFacts.FileReadCodeLines`, `LoweringFacts.FileWriteCodeLines`) and `TargetFacts.BodyLines` require that names and statement lines contain no line breaks. Otherwise `str.splitlines` would split them further.
- `LoweringFacts.IndexDeclAtMostOnce`: this is weaker than "at most once" in general. A Loop whose counter is named `__i` appends `integer __i;` without checking, so the lemma excludes such Loops.
