/** The test actions a Tester records and the SystemVerilog target lowers. */
module Actions {
  import opened Wrappers
  import opened Hardware

  /** str() of an Expect's rel_tol and abs_tol; only spliced into the generated text. */
  datatype Tolerance = Tolerance(relTol: string, absTol: string)

  /** The `_type` of an `actions.Var`: a hwtypes BitVector type of some size, or any other
      type by its str() text. */
  datatype VarType = BitVectorType(size: int) | OtherType(text: string)

  /** One recorded action. An Expect with no tolerance is exact (`is_exact`); `strict` chooses
      the four-state comparison. Block actions own their child action lists. */
  datatype Action =
    | Poke(port: PortRef, value: Value)
    | Expect(port: PortRef, value: Value, strict: bool, tolerance: Option<Tolerance>)
    | Eval
    | Step(steps: int, clock: Port)
    | Print(formatStr: string, ports: seq<PortRef>)
    | Loop(nIter: int, loopVar: string, actions: seq<Action>)
    | While(loopCond: Expression, actions: seq<Action>)
    | If(cond: Expression, actions: seq<Action>, elseActions: seq<Action>)
    | FileOpen(file: File)
    | FileClose(file: File)
    | FileRead(file: File)
    | FileWrite(file: File, source: PortRef)
    | FileScanFormat(file: File, format: string, args: seq<string>)
    | Var(name: string, varType: VarType)

  /** The open modes make_file_open accepts. */
  predicate SupportedMode(mode: string) {
    mode == "r" || mode == "w"
  }

  /** An action, or an action nested in it, that lowering rejects: a file opened in a mode
      other than read or write, or a variable whose type is not a BitVector type. */
  predicate HasConfigError(a: Action)
    decreases a, 1
  {
    match a
    case FileOpen(f) => !SupportedMode(f.mode)
    case Var(_, t) => !t.BitVectorType?
    case Loop(_, _, xs) => AnyConfigError(xs)
    case While(_, xs) => AnyConfigError(xs)
    case If(_, xs, es) => AnyConfigError(xs) || AnyConfigError(es)
    case _ => false
  }

  predicate AnyConfigError(xs: seq<Action>)
    decreases xs, 0
  {
    exists k :: 0 <= k < |xs| && HasConfigError(xs[k])
  }

  /** Whether some Loop in the tree uses `v` as its counter. */
  predicate UsesLoopVar(a: Action, v: string)
    decreases a, 1
  {
    match a
    case Loop(_, w, xs) => w == v || AnyUsesLoopVar(xs, v)
    case While(_, xs) => AnyUsesLoopVar(xs, v)
    case If(_, xs, es) => AnyUsesLoopVar(xs, v) || AnyUsesLoopVar(es, v)
    case _ => false
  }

  predicate AnyUsesLoopVar(xs: seq<Action>, v: string)
    decreases xs, 0
  {
    exists k :: 0 <= k < |xs| && UsesLoopVar(xs[k], v)
  }
}
