/** The Tester: a circuit, an optional clock, and the list of actions it records, one per call
    of poke, expect, eval and step, for a target to replay later. */
module TesterModel {
  import opened Wrappers
  import opened Hardware
  import opened Actions

  /** The circuit under test: its name and its ports. */
  datatype Circuit = Circuit(name: string, ports: seq<Port>)

  /** magma.ClockType: a single bit qualified as a clock. */
  predicate IsClockPort(p: Port) {
    p.kind.Bit? && p.kind.isClock
  }

  const NoClockMessage := "Stepping tester without a clock (did you specify a clock during initialization?)"

  /** The simulator targets make_target knows. */
  datatype TargetChoice = Verilator | MagmaSimulator(backend: string)

  /** make_target's dispatch on the target name. */
  function MakeTarget(target: string): (r: Result<TargetChoice>)
    ensures r.Ok? <==> target == "verilator" || target == "coreir" || target == "python"
    ensures r.Err? ==> r.error == NotImplementedError(target)
    ensures target == "verilator" ==> r == Ok(Verilator)
    ensures target == "coreir" || target == "python" ==> r == Ok(MagmaSimulator(target))
  {
    if target == "verilator" then Ok(Verilator)
    else if target == "coreir" then Ok(MagmaSimulator("coreir"))
    else if target == "python" then Ok(MagmaSimulator("python"))
    else Err(NotImplementedError(target))
  }

  /** Whether every Step among `xs` drives `clock`, and there is no Step without a clock. */
  predicate StepsUse(clock: Option<Port>, xs: seq<Action>) {
    forall k :: 0 <= k < |xs| && xs[k].Step? ==> clock.Some? && xs[k].clock == clock.value
  }

  /** Recording one more action keeps the Step invariant exactly when that action keeps it. */
  lemma StepsUseAppend(clock: Option<Port>, xs: seq<Action>, a: Action)
    ensures StepsUse(clock, xs + [a]) <==> StepsUse(clock, xs) && StepsUse(clock, [a])
  {
    if StepsUse(clock, xs + [a]) {
      forall k | 0 <= k < |xs| && xs[k].Step? ensures clock.Some? && xs[k].clock == clock.value {
        assert (xs + [a])[k] == xs[k];
      }
      assert (xs + [a])[|xs|] == a;
    }
  }

  class Tester {
    const circuit: Circuit
    const clock: Option<Port>
    /** value_utils.make_value: the conversion of a raw value for a given port. */
    const makeValue: (PortRef, Value) -> Value
    var actions: seq<Action>

    /** Every recorded Step drives the tester's clock; a tester without a clock has recorded no
        Step. */
    predicate Valid()
      reads this
    {
      (clock.Some? ==> IsClockPort(clock.value)) && StepsUse(clock, actions)
    }

    constructor(circuit: Circuit, clock: Option<Port>, makeValue: (PortRef, Value) -> Value)
      requires clock.None? || IsClockPort(clock.value)
      ensures this.circuit == circuit && this.clock == clock && this.makeValue == makeValue
      ensures actions == [] && Valid()
    {
      this.circuit := circuit;
      this.clock := clock;
      this.makeValue := makeValue;
      actions := [];
    }

    /** Tester(circuit, clock): a clock that is not a ClockType raises TypeError; `clockText`
        is the text of the pair `(clock, type(clock))` the message shows. */
    static method Create(circuit: Circuit, clock: Option<Port>, clockText: string,
                         makeValue: (PortRef, Value) -> Value)
      returns (r: Result<Tester>)
      ensures r.Ok? <==> clock.None? || IsClockPort(clock.value)
      ensures r.Err? ==> r.error == TypeError("Expected clock port: " + clockText)
      ensures r.Ok? ==> fresh(r.value) && r.value.circuit == circuit && r.value.clock == clock
                        && r.value.actions == [] && r.value.Valid()
    {
      if clock.Some? && !IsClockPort(clock.value) {
        return Err(TypeError("Expected clock port: " + clockText));
      }
      var t := new Tester(circuit, clock, makeValue);
      r := Ok(t);
    }

    /** poke: one Poke of the converted value. */
    method Poke(port: PortRef, value: Value)
      requires Valid()
      modifies this
      ensures actions == old(actions) + [Actions.Poke(port, makeValue(port, value))]
      ensures Valid()
    {
      var v := makeValue(port, value);
      actions := actions + [Actions.Poke(port, v)];
      StepsUseAppend(clock, old(actions), Actions.Poke(port, v));
    }

    /** expect: one exact, non-strict Expect of the converted value. */
    method Expect(port: PortRef, value: Value)
      requires Valid()
      modifies this
      ensures actions == old(actions) + [Actions.Expect(port, makeValue(port, value), false, None)]
      ensures Valid()
    {
      var v := makeValue(port, value);
      actions := actions + [Actions.Expect(port, v, false, None)];
      StepsUseAppend(clock, old(actions), Actions.Expect(port, v, false, None));
    }

    /** eval: one Eval. */
    method Eval()
      requires Valid()
      modifies this
      ensures actions == old(actions) + [Actions.Eval]
      ensures Valid()
    {
      actions := actions + [Actions.Eval];
      StepsUseAppend(clock, old(actions), Actions.Eval);
    }

    /** step(steps=1): without a clock nothing is recorded and RuntimeError is raised; otherwise
        one Step of the clock. */
    method Step(steps: int := 1) returns (r: Result<()>)
      requires Valid()
      modifies this
      ensures clock.None? ==> r == Err(RuntimeError(NoClockMessage)) && actions == old(actions)
      ensures clock.Some? ==> r == Ok(()) && actions == old(actions) + [Actions.Step(steps, clock.value)]
      ensures Valid()
    {
      if clock.None? {
        return Err(RuntimeError(NoClockMessage));
      }
      actions := actions + [Actions.Step(steps, clock.value)];
      StepsUseAppend(clock, old(actions), Actions.Step(steps, clock.value));
      r := Ok(());
    }
  }
}
