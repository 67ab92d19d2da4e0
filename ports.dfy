/** How the test bench binds the ports of the circuit under test (generate_port_code and
    generate_recursive_port_code): every port is flattened into leaf signals, each leaf gets a
    testbench signal declared for it and a `.name(signal)` clause in the instance's port list. */
module PortBinding {
  import opened Wrappers
  import opened Text
  import opened Hardware
  import opened Names

  /** The `supply0s`, `supply1s` and `tris` lists of `power_args`; a missing key is an empty
      list. Membership is list membership of the (flattened) port name. */
  datatype PowerArgs = PowerArgs(supply0s: seq<string>, supply1s: seq<string>, tris: seq<string>)

  /** How a leaf signal is declared. `Shadowed` is a register driving a shadow wire that is
      connected to the pin; `Unsupported` is a type with no direction, which raises. */
  datatype Storage = RealSignal | Supply0 | Supply1 | Tri | Wire | Shadowed | Reg | Unsupported

  /** The clause list of a binding, or the exception it raised, with the declarations after it. */
  datatype Bound = Bound(clauses: Result<seq<string>>, decls: seq<string>)

  /** An array of anything but single bits, and a tuple, are bound element by element; every
      other type (a Real, a Bit, or an array of bits) is one signal. */
  predicate IsLeafKind(k: Kind) {
    !(k.Array? && !k.elem.Bit?) && !k.Tuple?
  }

  /** The storage class of a leaf, in the source's order of precedence. */
  function StorageOf(useInputWires: bool, power: PowerArgs, name: string, k: Kind): Storage {
    if k.Real? then RealSignal
    else if name in power.supply0s then Supply0
    else if name in power.supply1s then Supply1
    else if name in power.tris then Tri
    else if HasDirection(k, Output) then Wire
    else if HasDirection(k, InOut) || (HasDirection(k, Input) && useInputWires) then Shadowed
    else if HasDirection(k, Input) then Reg
    else Unsupported
  }

  function StorageKeyword(s: Storage): string {
    match s
    case RealSignal => "real"
    case Supply0 => "supply0"
    case Supply1 => "supply1"
    case Tri => "tri"
    case Wire => "wire"
    case Shadowed => "reg"
    case Reg => "reg"
    case Unsupported => ""
  }

  /** The bit range of a bit-vector leaf, empty for a single-bit or real leaf. */
  function WidthStr(k: Kind): string {
    if IsBitVectorKind(k) then "[" + IntToString(VectorWidth(k) - 1) + ":0] " else ""
  }

  /** The testbench signal connected to the pin. */
  function ConnectTo(name: string, s: Storage): string {
    if s == Shadowed then InputWire(name) else name
  }

  /** The declaration lines of a leaf (each made by make_line with one tab, so each ends in a
      newline): three for a shadowed register, one otherwise. */
  function LeafDecls(name: string, k: Kind, s: Storage): seq<string> {
    var ws := WidthStr(k);
    if s == Shadowed then
      [MakeLine("reg " + ws + name + ";", 1),
       MakeLine("wire " + ws + InputWire(name) + ";", 1),
       MakeLine("assign " + InputWire(name) + "=" + name + ";", 1)]
    else
      [MakeLine(StorageKeyword(s) + " " + ws + ConnectTo(name, s) + ";", 1)]
  }

  /** The port list clause of a leaf. */
  function Clause(name: string, s: Storage): string {
    "." + name + "(" + ConnectTo(name, s) + ")"
  }

  /** generate_port_code for a leaf. */
  function LeafCode(useInputWires: bool, power: PowerArgs, decls: seq<string>, name: string, k: Kind): Bound
  {
    var s := StorageOf(useInputWires, power, name, k);
    if s == Unsupported then Bound(Err(NotImplementedError("")), decls)
    else Bound(Ok([Clause(name, s)]), decls + LeafDecls(name, k, s))
  }

  /** The second binding after the first: the first one's exception if it raised, else the
      second one's exception, else both clause lists; `c` is the second binding run on the
      first one's declarations. */
  function Then(p: Bound, c: Bound): Bound {
    if p.clauses.Err? then p
    else if c.clauses.Err? then c
    else Bound(Ok(p.clauses.value + c.clauses.value), c.decls)
  }

  function Min(a: nat, b: nat): nat {
    if a <= b then a else b
  }

  /** generate_port_code: a leaf directly, an array or tuple through
      generate_recursive_port_code. */
  function PortCode(useInputWires: bool, power: PowerArgs, decls: seq<string>, name: string, k: Kind): Bound
    decreases k, 0, 0
  {
    if IsLeafKind(k) then LeafCode(useInputWires, power, decls, name, k)
    else if k.Array? then ElementsCode(useInputWires, power, decls, name, k.elem, k.n)
    else FieldsCode(useInputWires, power, decls, name, k.keys, k.fields, Min(|k.keys|, |k.fields|))
  }

  /** The first `n` elements of an array, element j bound as `{name}_{j}`. */
  function ElementsCode(useInputWires: bool, power: PowerArgs, decls: seq<string>, name: string, elem: Kind,
                        n: nat): Bound
    decreases elem, 1, n
  {
    if n == 0 then Bound(Ok([]), decls)
    else
      var p := ElementsCode(useInputWires, power, decls, name, elem, n - 1);
      Then(p, PortCode(useInputWires, power, p.decls, name + "_" + NatToString(n - 1), elem))
  }

  /** The first `m` (key, field) pairs of a tuple, field k bound as `{name}_{k}`; zip stops at
      the shorter of the two lists. */
  function FieldsCode(useInputWires: bool, power: PowerArgs, decls: seq<string>, name: string,
                      keys: seq<string>, fields: seq<Kind>, m: nat): Bound
    requires m <= |keys| && m <= |fields|
    decreases fields, 1, m
  {
    if m == 0 then Bound(Ok([]), decls)
    else
      var p := FieldsCode(useInputWires, power, decls, name, keys, fields, m - 1);
      Then(p, PortCode(useInputWires, power, p.decls, name + "_" + keys[m - 1], fields[m - 1]))
  }

  /** The ports of the circuit bound one after the other (the loop of generate_code). */
  function PortsCode(useInputWires: bool, power: PowerArgs, decls: seq<string>, ports: seq<Port>): Bound {
    if ports == [] then Bound(Ok([]), decls)
    else
      var p := PortsCode(useInputWires, power, decls, ports[..|ports| - 1]);
      Then(p, PortCode(useInputWires, power, p.decls, ports[|ports| - 1].name, ports[|ports| - 1].kind))
  }

  // ----- An independent reading: the flattened leaves ------------------------------------------

  /** The leaf signals of a port, with their flattened names, in binding order. */
  function Leaves(name: string, k: Kind): seq<(string, Kind)>
    decreases k, 0, 0
  {
    if IsLeafKind(k) then [(name, k)]
    else if k.Array? then ElementLeaves(name, k.elem, k.n)
    else FieldLeaves(name, k.keys, k.fields, Min(|k.keys|, |k.fields|))
  }

  function ElementLeaves(name: string, elem: Kind, n: nat): seq<(string, Kind)>
    decreases elem, 1, n
  {
    if n == 0 then [] else ElementLeaves(name, elem, n - 1) + Leaves(name + "_" + NatToString(n - 1), elem)
  }

  function FieldLeaves(name: string, keys: seq<string>, fields: seq<Kind>, m: nat): seq<(string, Kind)>
    requires m <= |keys| && m <= |fields|
    decreases fields, 1, m
  {
    if m == 0 then [] else FieldLeaves(name, keys, fields, m - 1) + Leaves(name + "_" + keys[m - 1], fields[m - 1])
  }

  predicate AllLeaves(ls: seq<(string, Kind)>) {
    forall j :: 0 <= j < |ls| ==> IsLeafKind(ls[j].1)
  }

  lemma AllLeavesAppend(xs: seq<(string, Kind)>, ys: seq<(string, Kind)>)
    requires AllLeaves(xs) && AllLeaves(ys)
    ensures AllLeaves(xs + ys)
  {
    forall j | 0 <= j < |xs + ys| ensures IsLeafKind((xs + ys)[j].1) {
      if j < |xs| {
        assert (xs + ys)[j] == xs[j];
      } else {
        assert (xs + ys)[j] == ys[j - |xs|];
      }
    }
  }

  /** The flattening stops exactly at leaf types: every leaf it yields is a Real, a Bit or an
      array of bits. */
  lemma {:induction false} LeavesAreLeafKinds(name: string, k: Kind)
    ensures AllLeaves(Leaves(name, k))
    decreases k, 0, 0
  {
    if !IsLeafKind(k) {
      if k.Array? {
        ElementLeavesAreLeafKinds(name, k.elem, k.n);
      } else {
        FieldLeavesAreLeafKinds(name, k.keys, k.fields, Min(|k.keys|, |k.fields|));
      }
    }
  }

  lemma {:induction false} ElementLeavesAreLeafKinds(name: string, elem: Kind, n: nat)
    ensures AllLeaves(ElementLeaves(name, elem, n))
    decreases elem, 1, n
  {
    if n > 0 {
      ElementLeavesAreLeafKinds(name, elem, n - 1);
      LeavesAreLeafKinds(name + "_" + NatToString(n - 1), elem);
      AllLeavesAppend(ElementLeaves(name, elem, n - 1), Leaves(name + "_" + NatToString(n - 1), elem));
    }
  }

  lemma {:induction false} FieldLeavesAreLeafKinds(name: string, keys: seq<string>, fields: seq<Kind>, m: nat)
    requires m <= |keys| && m <= |fields|
    ensures AllLeaves(FieldLeaves(name, keys, fields, m))
    decreases fields, 1, m
  {
    if m > 0 {
      FieldLeavesAreLeafKinds(name, keys, fields, m - 1);
      LeavesAreLeafKinds(name + "_" + keys[m - 1], fields[m - 1]);
      AllLeavesAppend(FieldLeaves(name, keys, fields, m - 1), Leaves(name + "_" + keys[m - 1], fields[m - 1]));
    }
  }

  /** Binding a flat list of leaves one after the other. */
  function LeavesCode(useInputWires: bool, power: PowerArgs, decls: seq<string>, ls: seq<(string, Kind)>): Bound
  {
    if ls == [] then Bound(Ok([]), decls)
    else
      var p := LeavesCode(useInputWires, power, decls, ls[..|ls| - 1]);
      Then(p, LeafCode(useInputWires, power, p.decls, ls[|ls| - 1].0, ls[|ls| - 1].1))
  }

  /** Binding `xs + ys` is binding `xs` and then `ys`. */
  lemma {:induction false} LeavesCodeAppend(uw: bool, power: PowerArgs, d: seq<string>, xs: seq<(string, Kind)>,
                                            ys: seq<(string, Kind)>)
    ensures var p := LeavesCode(uw, power, d, xs);
      LeavesCode(uw, power, d, xs + ys) == Then(p, LeavesCode(uw, power, p.decls, ys))
    decreases |ys|
  {
    if ys == [] {
      assert xs + ys == xs;
      var p := LeavesCode(uw, power, d, xs);
      if p.clauses.Ok? {
        assert p.clauses.value + [] == p.clauses.value;
      }
    } else {
      var ys' := ys[..|ys| - 1];
      assert (xs + ys)[..|xs + ys| - 1] == xs + ys';
      assert (xs + ys)[|xs + ys| - 1] == ys[|ys| - 1];
      LeavesCodeAppend(uw, power, d, xs, ys');
      var p := LeavesCode(uw, power, d, xs);
      if p.clauses.Ok? {
        var q := LeavesCode(uw, power, p.decls, ys');
        if q.clauses.Ok? {
          var last := LeafCode(uw, power, q.decls, ys[|ys| - 1].0, ys[|ys| - 1].1);
          if last.clauses.Ok? {
            assert p.clauses.value + q.clauses.value + last.clauses.value
                == p.clauses.value + (q.clauses.value + last.clauses.value);
          }
        }
      }
    }
  }

  /** generate_port_code binds exactly the flattened leaves of a port, in order: the recursive
      walk over arrays and tuples is the flat walk over Leaves. */
  lemma {:induction false} PortCodeIsLeavesCode(uw: bool, power: PowerArgs, d: seq<string>, name: string, k: Kind)
    ensures PortCode(uw, power, d, name, k) == LeavesCode(uw, power, d, Leaves(name, k))
    decreases k, 0, 0, 0
  {
    if IsLeafKind(k) {
      assert [(name, k)][..0] == [];
      var c := LeafCode(uw, power, d, name, k);
      if c.clauses.Ok? {
        assert [] + c.clauses.value == c.clauses.value;
      }
    } else if k.Array? {
      ElementsCodeIsLeavesCode(uw, power, d, name, k.elem, k.n);
    } else {
      FieldsCodeIsLeavesCode(uw, power, d, name, k.keys, k.fields, Min(|k.keys|, |k.fields|));
    }
  }

  lemma ElementsStep(uw: bool, power: PowerArgs, d: seq<string>, name: string, elem: Kind, n: nat)
    requires 0 < n
    ensures var p := ElementsCode(uw, power, d, name, elem, n - 1);
      ElementsCode(uw, power, d, name, elem, n)
      == Then(p, PortCode(uw, power, p.decls, name + "_" + NatToString(n - 1), elem))
    ensures ElementLeaves(name, elem, n)
         == ElementLeaves(name, elem, n - 1) + Leaves(name + "_" + NatToString(n - 1), elem)
  {
  }

  /** The inductive step of ElementsCodeIsLeavesCode: binding the first n-1 elements and then
      element n-1 is binding the leaves of the first n elements. */
  lemma {:induction false} ElementsCombine(uw: bool, power: PowerArgs, d: seq<string>, name: string, elem: Kind,
                                           n: nat, p: Bound)
    requires 0 < n
    requires p == ElementsCode(uw, power, d, name, elem, n - 1)
    requires p == LeavesCode(uw, power, d, ElementLeaves(name, elem, n - 1))
    ensures ElementsCode(uw, power, d, name, elem, n) == LeavesCode(uw, power, d, ElementLeaves(name, elem, n))
    decreases elem, 1, n, 0
  {
    var ename := name + "_" + NatToString(n - 1);
    PortCodeIsLeavesCode(uw, power, p.decls, ename, elem);
    ElementsStep(uw, power, d, name, elem, n);
    LeavesCodeAppend(uw, power, d, ElementLeaves(name, elem, n - 1), Leaves(ename, elem));
  }

  lemma {:induction false} ElementsCodeIsLeavesCode(uw: bool, power: PowerArgs, d: seq<string>, name: string,
                                                    elem: Kind, n: nat)
    ensures ElementsCode(uw, power, d, name, elem, n) == LeavesCode(uw, power, d, ElementLeaves(name, elem, n))
    decreases elem, 1, n, 1
  {
    if n > 0 {
      var p := ElementsCode(uw, power, d, name, elem, n - 1);
      ElementsCodeIsLeavesCode(uw, power, d, name, elem, n - 1);
      ElementsCombine(uw, power, d, name, elem, n, p);
    }
  }

  lemma FieldsStep(uw: bool, power: PowerArgs, d: seq<string>, name: string, keys: seq<string>, fields: seq<Kind>,
                   m: nat)
    requires 0 < m <= |keys| && m <= |fields|
    ensures var p := FieldsCode(uw, power, d, name, keys, fields, m - 1);
      FieldsCode(uw, power, d, name, keys, fields, m)
      == Then(p, PortCode(uw, power, p.decls, name + "_" + keys[m - 1], fields[m - 1]))
    ensures FieldLeaves(name, keys, fields, m)
         == FieldLeaves(name, keys, fields, m - 1) + Leaves(name + "_" + keys[m - 1], fields[m - 1])
  {
  }

  /** The inductive step of FieldsCodeIsLeavesCode: binding the first m-1 fields and then
      field m-1 is binding the leaves of the first m fields. */
  lemma {:induction false} FieldsCombine(uw: bool, power: PowerArgs, d: seq<string>, name: string,
                                         keys: seq<string>, fields: seq<Kind>, m: nat, p: Bound)
    requires 0 < m <= |keys| && m <= |fields|
    requires p == FieldsCode(uw, power, d, name, keys, fields, m - 1)
    requires p == LeavesCode(uw, power, d, FieldLeaves(name, keys, fields, m - 1))
    ensures FieldsCode(uw, power, d, name, keys, fields, m) == LeavesCode(uw, power, d, FieldLeaves(name, keys, fields, m))
    decreases fields, 1, m, 0
  {
    var fname := name + "_" + keys[m - 1];
    PortCodeIsLeavesCode(uw, power, p.decls, fname, fields[m - 1]);
    FieldsStep(uw, power, d, name, keys, fields, m);
    LeavesCodeAppend(uw, power, d, FieldLeaves(name, keys, fields, m - 1), Leaves(fname, fields[m - 1]));
  }

  lemma {:induction false} FieldsCodeIsLeavesCode(uw: bool, power: PowerArgs, d: seq<string>, name: string,
                                                  keys: seq<string>, fields: seq<Kind>, m: nat)
    requires m <= |keys| && m <= |fields|
    ensures FieldsCode(uw, power, d, name, keys, fields, m) == LeavesCode(uw, power, d, FieldLeaves(name, keys, fields, m))
    decreases fields, 1, m, 1
  {
    if m > 0 {
      var p := FieldsCode(uw, power, d, name, keys, fields, m - 1);
      FieldsCodeIsLeavesCode(uw, power, d, name, keys, fields, m - 1);
      FieldsCombine(uw, power, d, name, keys, fields, m, p);
    }
  }

  // ----- What binding the leaves produces ------------------------------------------------------

  function StorageOfLeaf(uw: bool, power: PowerArgs, l: (string, Kind)): Storage {
    StorageOf(uw, power, l.0, l.1)
  }

  /** The declarations of the leaves, in order. */
  function AllLeafDecls(uw: bool, power: PowerArgs, ls: seq<(string, Kind)>): seq<string> {
    if ls == [] then []
    else
      var l := ls[|ls| - 1];
      AllLeafDecls(uw, power, ls[..|ls| - 1]) + LeafDecls(l.0, l.1, StorageOfLeaf(uw, power, l))
  }

  /** The clauses of the leaves, in order. */
  function AllClauses(uw: bool, power: PowerArgs, ls: seq<(string, Kind)>): (cl: seq<string>)
    ensures |cl| == |ls|
  {
    if ls == [] then []
    else
      var l := ls[|ls| - 1];
      AllClauses(uw, power, ls[..|ls| - 1]) + [Clause(l.0, StorageOfLeaf(uw, power, l))]
  }

  predicate AllSupported(uw: bool, power: PowerArgs, ls: seq<(string, Kind)>) {
    forall j :: 0 <= j < |ls| ==> StorageOfLeaf(uw, power, ls[j]) != Unsupported
  }

  lemma AllSupportedInit(uw: bool, power: PowerArgs, ls: seq<(string, Kind)>)
    requires ls != []
    ensures AllSupported(uw, power, ls)
        <==> AllSupported(uw, power, ls[..|ls| - 1]) && StorageOfLeaf(uw, power, ls[|ls| - 1]) != Unsupported
  {
    var init := ls[..|ls| - 1];
    assert forall j :: 0 <= j < |init| ==> init[j] == ls[j];
  }

  /** Binding leaves succeeds exactly when every leaf has a storage class (it is real, powered
      or directed); then it yields the leaves' clauses in order and appends their declarations
      in order. */
  lemma {:induction false} LeavesCodeResult(uw: bool, power: PowerArgs, d: seq<string>, ls: seq<(string, Kind)>)
    ensures var r := LeavesCode(uw, power, d, ls);
      (r.clauses.Ok? <==> AllSupported(uw, power, ls))
      && d <= r.decls
      && (r.clauses.Ok? ==> r.clauses.value == AllClauses(uw, power, ls) && r.decls == d + AllLeafDecls(uw, power, ls))
    decreases |ls|
  {
    if ls != [] {
      var p := LeavesCode(uw, power, d, ls[..|ls| - 1]);
      LeavesCodeResult(uw, power, d, ls[..|ls| - 1]);
      LeavesResultStep(uw, power, d, ls, p);
    }
  }

  /** The inductive step of LeavesCodeResult: one more leaf bound after the others. */
  lemma LeavesResultStep(uw: bool, power: PowerArgs, d: seq<string>, ls: seq<(string, Kind)>, p: Bound)
    requires ls != [] && p == LeavesCode(uw, power, d, ls[..|ls| - 1])
    requires (p.clauses.Ok? <==> AllSupported(uw, power, ls[..|ls| - 1])) && d <= p.decls
    requires p.clauses.Ok? ==> p.clauses.value == AllClauses(uw, power, ls[..|ls| - 1])
                               && p.decls == d + AllLeafDecls(uw, power, ls[..|ls| - 1])
    ensures var r := LeavesCode(uw, power, d, ls);
      (r.clauses.Ok? <==> AllSupported(uw, power, ls))
      && d <= r.decls
      && (r.clauses.Ok? ==> r.clauses.value == AllClauses(uw, power, ls) && r.decls == d + AllLeafDecls(uw, power, ls))
  {
    var init := ls[..|ls| - 1];
    var l := ls[|ls| - 1];
    AllSupportedInit(uw, power, ls);
    var c := LeafCode(uw, power, p.decls, l.0, l.1);
    assert LeavesCode(uw, power, d, ls) == Then(p, c);
    if p.clauses.Ok? && c.clauses.Ok? {
      var s := StorageOfLeaf(uw, power, l);
      assert c.decls == p.decls + LeafDecls(l.0, l.1, s);
      AllLeafDeclsSnoc(uw, power, d, ls);
    }
  }

  lemma AllLeafDeclsSnoc(uw: bool, power: PowerArgs, d: seq<string>, ls: seq<(string, Kind)>)
    requires ls != []
    ensures var l := ls[|ls| - 1];
      d + AllLeafDecls(uw, power, ls[..|ls| - 1]) + LeafDecls(l.0, l.1, StorageOfLeaf(uw, power, l))
      == d + AllLeafDecls(uw, power, ls)
  {
    var l := ls[|ls| - 1];
    var a := AllLeafDecls(uw, power, ls[..|ls| - 1]);
    var b := LeafDecls(l.0, l.1, StorageOfLeaf(uw, power, l));
    assert d + a + b == d + (a + b);
  }

  lemma {:induction false} AllClausesIndex(uw: bool, power: PowerArgs, ls: seq<(string, Kind)>, j: nat)
    requires j < |ls|
    ensures AllClauses(uw, power, ls)[j] == Clause(ls[j].0, StorageOfLeaf(uw, power, ls[j]))
    decreases |ls|
  {
    if j < |ls| - 1 {
      AllClausesIndex(uw, power, ls[..|ls| - 1], j);
    }
  }

  /** A leaf declares three lines when it is shadowed and one otherwise. */
  lemma LeafDeclCount(name: string, k: Kind, s: Storage)
    ensures |LeafDecls(name, k, s)| == if s == Shadowed then 3 else 1
  {
  }

  /** A bound port therefore has one clause per leaf, each `.leaf(signal)`, where the signal is
      the shadow wire exactly for shadowed leaves. */
  lemma PortClauses(uw: bool, power: PowerArgs, d: seq<string>, name: string, k: Kind)
    requires PortCode(uw, power, d, name, k).clauses.Ok?
    ensures var ls := Leaves(name, k);
      var cl := PortCode(uw, power, d, name, k).clauses.value;
      |cl| == |ls|
      && forall j :: 0 <= j < |ls| ==>
           cl[j] == "." + ls[j].0 + "("
                    + (if StorageOfLeaf(uw, power, ls[j]) == Shadowed then "__" + ls[j].0 + "_wire" else ls[j].0) + ")"
  {
    PortCodeIsLeavesCode(uw, power, d, name, k);
    LeavesCodeResult(uw, power, d, Leaves(name, k));
    forall j | 0 <= j < |Leaves(name, k)| {
      AllClausesIndex(uw, power, Leaves(name, k), j);
    }
  }

  /** A port with no direction raises NotImplementedError; one that is powered or real does not
      need a direction. */
  lemma UndirectedLeafRaises(uw: bool, power: PowerArgs, d: seq<string>, name: string, k: Kind)
    requires IsLeafKind(k) && !k.Real?
    requires name !in power.supply0s && name !in power.supply1s && name !in power.tris
    requires !HasDirection(k, Output) && !HasDirection(k, InOut) && !HasDirection(k, Input)
    ensures PortCode(uw, power, d, name, k) == Bound(Err(NotImplementedError("")), d)
  {
  }

  /** The storage class follows the source's precedence: real, then the power lists in the
      order supply0, supply1, tri, then output, inout (or input with input wires), input. */
  lemma StoragePrecedence(uw: bool, power: PowerArgs, name: string, k: Kind)
    ensures var s := StorageOf(uw, power, name, k);
      (s == RealSignal <==> k.Real?)
      && (s == Supply0 <==> !k.Real? && name in power.supply0s)
      && (s == Supply1 <==> !k.Real? && name !in power.supply0s && name in power.supply1s)
      && (s == Tri <==> !k.Real? && name !in power.supply0s && name !in power.supply1s && name in power.tris)
      && var plain := !k.Real? && name !in power.supply0s && name !in power.supply1s && name !in power.tris;
      (s in {Wire, Shadowed, Reg, Unsupported} <==> plain)
      && (s == Wire <==> plain && HasDirection(k, Output))
      && (s == Shadowed <==>
            (plain && !HasDirection(k, Output)
             && (HasDirection(k, InOut) || (uw && HasDirection(k, Input)))))
      && (s == Reg <==>
            (plain && !HasDirection(k, Output) && !HasDirection(k, InOut)
             && !uw && HasDirection(k, Input)))
      && (s == Unsupported <==>
            (plain && !HasDirection(k, Output) && !HasDirection(k, InOut) && !HasDirection(k, Input)))
  {
  }

  /** An array of n vectors is bound as n leaves named `{name}_0`, ..., `{name}_{n-1}`. */
  lemma {:induction false} ArrayOfVectorsLeaves(name: string, n: nat, elem: Kind)
    requires IsLeafKind(elem) && !elem.Bit?
    ensures Leaves(name, Array(n, elem)) == seq(n, j requires 0 <= j < n => (name + "_" + NatToString(j), elem))
  {
    ElementLeavesOfLeaf(name, n, elem);
  }

  lemma {:induction false} ElementLeavesOfLeaf(name: string, n: nat, elem: Kind)
    requires IsLeafKind(elem)
    ensures ElementLeaves(name, elem, n) == seq(n, j requires 0 <= j < n => (name + "_" + NatToString(j), elem))
  {
    if n > 0 {
      ElementLeavesOfLeaf(name, n - 1, elem);
    }
  }

  // ----- The whole port list ---------------------------------------------------------------------

  /** The leaves of all ports of the circuit, port by port. */
  function PortsLeaves(ports: seq<Port>): seq<(string, Kind)> {
    if ports == [] then []
    else PortsLeaves(ports[..|ports| - 1]) + Leaves(ports[|ports| - 1].name, ports[|ports| - 1].kind)
  }

  /** Flattening the ports yields only leaf types. */
  lemma {:induction false} PortsLeavesAreLeafKinds(ports: seq<Port>)
    ensures AllLeaves(PortsLeaves(ports))
  {
    if ports != [] {
      var last := ports[|ports| - 1];
      PortsLeavesAreLeafKinds(ports[..|ports| - 1]);
      LeavesAreLeafKinds(last.name, last.kind);
      AllLeavesAppend(PortsLeaves(ports[..|ports| - 1]), Leaves(last.name, last.kind));
    }
  }

  /** The port loop of generate_code binds exactly the leaves of all ports, in order. */
  lemma {:induction false} PortsCodeIsLeavesCode(uw: bool, power: PowerArgs, d: seq<string>, ports: seq<Port>)
    ensures PortsCode(uw, power, d, ports) == LeavesCode(uw, power, d, PortsLeaves(ports))
  {
    if ports != [] {
      var init := ports[..|ports| - 1];
      var last := ports[|ports| - 1];
      PortsCodeIsLeavesCode(uw, power, d, init);
      var p := PortsCode(uw, power, d, init);
      PortCodeIsLeavesCode(uw, power, p.decls, last.name, last.kind);
      LeavesCodeAppend(uw, power, d, PortsLeaves(init), Leaves(last.name, last.kind));
    }
  }

  /** Binding the circuit's ports succeeds exactly when every leaf of every port has a storage
      class; the clauses are then the leaves' clauses in order. */
  lemma PortsCodeResult(uw: bool, power: PowerArgs, d: seq<string>, ports: seq<Port>)
    ensures var r := PortsCode(uw, power, d, ports);
      var ls := PortsLeaves(ports);
      (r.clauses.Ok? <==> AllSupported(uw, power, ls))
      && d <= r.decls
      && (r.clauses.Ok? ==> r.clauses.value == AllClauses(uw, power, ls) && r.decls == d + AllLeafDecls(uw, power, ls))
  {
    PortsCodeIsLeavesCode(uw, power, d, ports);
    LeavesCodeResult(uw, power, d, PortsLeaves(ports));
  }
}
