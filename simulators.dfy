/** The option handling of the SystemVerilog target: the defaulting and validation its
    constructor performs, and the command lines it builds for the three supported simulators
    (def_args, ncsim_cmd, vcs_cmd, iverilog_cmd, and the TCL commands of write_ncsim_tcl). */
module Simulators {
  import opened Wrappers
  import opened Text

  /** One entry of the `defines` dictionary, in insertion order: a name and an optional value. */
  datatype Define = Define(key: string, value: Option<string>)

  /** The constructor's keyword arguments that the target keeps or validates, each with the
      default the constructor gives it; `None` is a keyword left at its default of None. */
  datatype Options = Options(
    circuitName: string,
    includeVerilogLibraries: Option<seq<string>> := None,
    extSrcs: Option<seq<string>> := None,
    simulator: Option<string> := None,
    timescale: string := "1ns/1ns",
    clockStepDelay: int := 5,
    numCycles: int := 10000,
    dumpVcd: bool := true,
    noWarning: bool := false,
    extModelFile: Option<bool> := None,
    skipCompile: Option<bool> := None,
    extLibs: Option<seq<string>> := None,
    defines: Option<seq<Define>> := None,
    flags: Option<seq<string>> := None,
    incDirs: Option<seq<string>> := None,
    extTestBench: bool := false,
    topModule: Option<string> := None,
    useInputWires: bool := false)

  /** The settings of a constructed target, every default filled in. */
  datatype Config = Config(
    circuitName: string,
    includeVerilogLibraries: seq<string>,
    simulator: string,
    timescale: string,
    clockStepDelay: int,
    numCycles: int,
    dumpVcd: bool,
    noWarning: bool,
    extModelFile: bool,
    skipCompile: bool,
    extLibs: seq<string>,
    defines: seq<Define>,
    flags: seq<string>,
    incDirs: seq<string>,
    extTestBench: bool,
    topModule: Option<string>,
    useInputWires: bool)

  predicate SupportedSimulator(s: string) {
    s == "vcs" || s == "ncsim" || s == "iverilog"
  }

  function OrElse<T>(o: Option<T>, d: T): T {
    if o.Some? then o.value else d
  }

  const BothLibrariesMessage := "Cannot specify both \"include_verilog_libraries\" and \"ext_srcs\"."
  const NoSimulatorMessage := "Must specify simulator when using system-verilog target"

  /** The constructor: the library lists are checked first, then the simulator. */
  function Configure(o: Options): Result<Config> {
    if o.includeVerilogLibraries.Some? && o.extSrcs.Some? then Err(ValueError(BothLibrariesMessage))
    else if o.simulator.None? then Err(ValueError(NoSimulatorMessage))
    else if !SupportedSimulator(o.simulator.value) then Err(ValueError("Unsupported simulator " + o.simulator.value))
    else
      var libs := if o.includeVerilogLibraries.Some? then o.includeVerilogLibraries.value
                  else OrElse(o.extSrcs, []);
      var extModelFile := OrElse(o.extModelFile, o.extTestBench);
      Ok(Config(o.circuitName, libs, o.simulator.value, o.timescale, o.clockStepDelay, o.numCycles, o.dumpVcd,
                o.noWarning, extModelFile, OrElse(o.skipCompile, extModelFile), OrElse(o.extLibs, []),
                OrElse(o.defines, []), OrElse(o.flags, []), OrElse(o.incDirs, []), o.extTestBench, o.topModule,
                o.useInputWires))
  }

  /** The constructor raises exactly in these cases, with these messages and in this order. */
  lemma ConfigureErrors(o: Options)
    ensures o.includeVerilogLibraries.Some? && o.extSrcs.Some?
         ==> Configure(o) == Err(ValueError("Cannot specify both \"include_verilog_libraries\" and \"ext_srcs\"."))
    ensures !(o.includeVerilogLibraries.Some? && o.extSrcs.Some?) && o.simulator.None?
         ==> Configure(o) == Err(ValueError("Must specify simulator when using system-verilog target"))
    ensures !(o.includeVerilogLibraries.Some? && o.extSrcs.Some?) && o.simulator.Some?
            && !SupportedSimulator(o.simulator.value)
         ==> Configure(o) == Err(ValueError("Unsupported simulator " + o.simulator.value))
    ensures Configure(o).Ok?
        <==> !(o.includeVerilogLibraries.Some? && o.extSrcs.Some?) && o.simulator.Some?
             && SupportedSimulator(o.simulator.value)
  {
  }

  /** A constructed target has a supported simulator, takes its library list from whichever of
      the two keywords was given, and defaults ext_model_file to ext_test_bench and skip_compile
      to ext_model_file. */
  lemma ConfigureDefaults(o: Options)
    requires Configure(o).Ok?
    ensures var c := Configure(o).value;
      SupportedSimulator(c.simulator) && Some(c.simulator) == o.simulator
      && c.includeVerilogLibraries
         == (if o.includeVerilogLibraries.Some? then o.includeVerilogLibraries.value
             else if o.extSrcs.Some? then o.extSrcs.value else [])
      && (o.extModelFile.None? ==> c.extModelFile == o.extTestBench)
      && (o.skipCompile.None? ==> c.skipCompile == c.extModelFile)
      && (o.defines.None? ==> c.defines == [])
      && (o.extLibs.None? ==> c.extLibs == [])
      && (o.flags.None? ==> c.flags == [])
      && (o.incDirs.None? ==> c.incDirs == [])
      && c.topModule == o.topModule && c.extTestBench == o.extTestBench
  {
  }

  /** A target built with only a circuit name and a supported simulator gets the keyword
      defaults: timescale 1ns/1ns, a clock step delay of 5, 10000 cycles, VCD dumping on,
      warnings kept, no external test bench or model, magma compilation on, empty library,
      define, flag and include lists, no top module and no input wires. Without a simulator
      the same call raises. */
  lemma ConfigureKeywordDefaults(name: string, sim: string)
    ensures Configure(Options(name)) == Err(ValueError(NoSimulatorMessage))
    ensures SupportedSimulator(sim) ==>
      var r := Configure(Options(name, simulator := Some(sim)));
      r.Ok? && var c := r.value;
      c.circuitName == name && c.simulator == sim
      && c.timescale == "1ns/1ns" && c.clockStepDelay == 5 && c.numCycles == 10000
      && c.dumpVcd && !c.noWarning && !c.extTestBench && !c.useInputWires
      && !c.extModelFile && !c.skipCompile && c.topModule.None?
      && c.includeVerilogLibraries == [] && c.extLibs == [] && c.defines == []
      && c.flags == [] && c.incDirs == []
  {
  }

  /** With both ext_model_file and skip_compile left out, an external test bench also means an
      external model and no magma compilation. */
  lemma ExtTestBenchSkipsCompile(o: Options)
    requires Configure(o).Ok? && o.extModelFile.None? && o.skipCompile.None? && o.extTestBench
    ensures Configure(o).value.extModelFile && Configure(o).value.skipCompile
  {
  }

  // ----- Command-line fragments --------------------------------------------------------------------

  /** One define as a command-line argument: the prefix and the key, then `=value` only when a
      value is given. */
  function DefArg(prefix: string, d: Define): string {
    if d.value.Some? then prefix + d.key + "=" + d.value.value else prefix + d.key
  }

  /** def_args: one argument per define, in order. */
  function DefArgList(prefix: string, defines: seq<Define>): (r: seq<string>)
    ensures |r| == |defines|
  {
    if defines == [] then [] else DefArgList(prefix, defines[..|defines| - 1]) + [DefArg(prefix, defines[|defines| - 1])]
  }

  /** The j-th argument of def_args is the j-th define. */
  lemma {:induction false} DefArgListIndex(prefix: string, defines: seq<Define>, j: nat)
    requires j < |defines|
    ensures DefArgList(prefix, defines)[j] == DefArg(prefix, defines[j])
    decreases |defines|
  {
    if j < |defines| - 1 {
      DefArgListIndex(prefix, defines[..|defines| - 1], j);
    }
  }

  /** def_args, as the source's loop. */
  method DefArgs(prefix: string, defines: seq<Define>) returns (r: seq<string>)
    ensures r == DefArgList(prefix, defines)
  {
    r := [];
    var j := 0;
    while j < |defines|
      invariant 0 <= j <= |defines|
      invariant r == DefArgList(prefix, defines[..j])
    {
      assert defines[..j + 1][..j] == defines[..j];
      r := r + [DefArg(prefix, defines[j])];
      j := j + 1;
    }
    assert defines[..j] == defines;
  }

  /** A define without a value is the prefix and its name; one with a value adds `=value`. */
  lemma DefArgShape(prefix: string, key: string, value: string)
    ensures DefArg(prefix, Define(key, None)) == prefix + key
    ensures DefArg(prefix, Define(key, Some(value))) == prefix + key + "=" + value
    ensures |DefArg(prefix, Define(key, Some(value)))| == |prefix| + |key| + 1 + |value|
  {
  }

  /** The flag before every item: `flag, x0, flag, x1, ...` (the `-v lib` and `-incdir dir`
      loops). */
  function Flagged(flag: string, xs: seq<string>): (r: seq<string>)
    ensures |r| == 2 * |xs|
  {
    if xs == [] then [] else Flagged(flag, xs[..|xs| - 1]) + [flag, xs[|xs| - 1]]
  }

  lemma {:induction false} FlaggedIndex(flag: string, xs: seq<string>, j: nat)
    requires j < |xs|
    ensures Flagged(flag, xs)[2 * j] == flag && Flagged(flag, xs)[2 * j + 1] == xs[j]
    decreases |xs|
  {
    if j < |xs| - 1 {
      FlaggedIndex(flag, xs[..|xs| - 1], j);
    }
  }

  /** Every item with the prefix glued on (the `+incdir+dir` and `-Idir` loops). */
  function Prefixed(prefix: string, xs: seq<string>): (r: seq<string>)
    ensures |r| == |xs|
  {
    if xs == [] then [] else Prefixed(prefix, xs[..|xs| - 1]) + [prefix + xs[|xs| - 1]]
  }

  lemma {:induction false} PrefixedIndex(prefix: string, xs: seq<string>, j: nat)
    requires j < |xs|
    ensures Prefixed(prefix, xs)[j] == prefix + xs[j]
    decreases |xs|
  {
    if j < |xs| - 1 {
      PrefixedIndex(prefix, xs[..|xs| - 1], j);
    }
  }

  /** Appends `flag, x` for every item, as the source's loops do. */
  method AppendFlagged(cmd: seq<string>, flag: string, xs: seq<string>) returns (r: seq<string>)
    ensures r == cmd + Flagged(flag, xs)
  {
    r := cmd;
    var j := 0;
    while j < |xs|
      invariant 0 <= j <= |xs|
      invariant r == cmd + Flagged(flag, xs[..j])
    {
      assert xs[..j + 1][..j] == xs[..j];
      r := r + [flag, xs[j]];
      j := j + 1;
    }
    assert xs[..j] == xs;
  }

  /** Appends `prefix + x` for every item, as the source's loops do. */
  method AppendPrefixed(cmd: seq<string>, prefix: string, xs: seq<string>) returns (r: seq<string>)
    ensures r == cmd + Prefixed(prefix, xs)
  {
    r := cmd;
    var j := 0;
    while j < |xs|
      invariant 0 <= j <= |xs|
      invariant r == cmd + Prefixed(prefix, xs[..j])
    {
      assert xs[..j + 1][..j] == xs[..j];
      r := r + [prefix + xs[j]];
      j := j + 1;
    }
    assert xs[..j] == xs;
  }

  // ----- The three simulators ---------------------------------------------------------------------

  /** The top module passed to ncsim: the generated test bench `{circuit}_tb` unless a top
      module was named or the test bench is external. */
  function NcsimTop(c: Config): Option<string> {
    if c.topModule.None? && !c.extTestBench then Some(c.circuitName + "_tb") else c.topModule
  }

  /** The arguments of ncsim_cmd before the sources. */
  function NcsimHead(c: Config, cmdFile: string): (r: seq<string>)
    ensures |r| == if NcsimTop(c).Some? then 7 else 5
  {
    var top := NcsimTop(c);
    ["irun"] + (if top.Some? then ["-top", top.value] else []) + ["-timescale", c.timescale] + ["-input", cmdFile]
  }

  /** The arguments of ncsim_cmd after the sources. */
  function NcsimTail(c: Config): seq<string> {
    Flagged("-v", c.extLibs) + Flagged("-incdir", c.incDirs) + DefArgList("+define+", c.defines)
    + ["-access", "+rwc"] + ["-notimingchecks"] + (if c.noWarning then ["-neverwarn"] else [])
  }

  /** The argument vector of ncsim_cmd. */
  function NcsimCmdSpec(c: Config, sources: seq<string>, cmdFile: string): seq<string> {
    NcsimHead(c, cmdFile) + sources
    + Flagged("-v", c.extLibs) + Flagged("-incdir", c.incDirs) + DefArgList("+define+", c.defines)
    + ["-access", "+rwc"] + ["-notimingchecks"] + (if c.noWarning then ["-neverwarn"] else [])
  }

  /** ncsim_cmd. */
  method NcsimCmd(c: Config, sources: seq<string>, cmdFile: string) returns (cmd: seq<string>)
    ensures cmd == NcsimCmdSpec(c, sources, cmdFile)
  {
    cmd := ["irun"];
    var top := if c.topModule.None? && !c.extTestBench then Some(c.circuitName + "_tb") else c.topModule;
    if top.Some? {
      cmd := cmd + ["-top", top.value];
    }
    assert cmd == ["irun"] + (if top.Some? then ["-top", top.value] else []);
    cmd := cmd + ["-timescale", c.timescale];
    cmd := cmd + ["-input", cmdFile];
    assert cmd == NcsimHead(c, cmdFile);
    cmd := cmd + sources;
    cmd := AppendFlagged(cmd, "-v", c.extLibs);
    cmd := AppendFlagged(cmd, "-incdir", c.incDirs);
    var defs := DefArgs("+define+", c.defines);
    cmd := cmd + defs;
    cmd := cmd + ["-access", "+rwc"];
    cmd := cmd + ["-notimingchecks"];
    if c.noWarning {
      cmd := cmd + ["-neverwarn"];
    }
  }

  /** The arguments of vcs_cmd after the sources. */
  function VcsTail(c: Config): seq<string> {
    Flagged("-v", c.extLibs) + Prefixed("+incdir+", c.incDirs) + DefArgList("+define+", c.defines)
    + ["-sverilog"] + ["-full64"] + ["+v2k"] + ["-LDFLAGS"] + ["-Wl,--no-as-needed"]
    + (if c.dumpVcd then ["+vcs+vcdpluson", "-debug_pp"] else [])
  }

  /** The argument vector of vcs_cmd (the binary it produces is `./simv`). */
  function VcsCmdSpec(c: Config, sources: seq<string>): seq<string> {
    ["vcs"] + ["-timescale=" + c.timescale] + sources
    + Flagged("-v", c.extLibs) + Prefixed("+incdir+", c.incDirs) + DefArgList("+define+", c.defines)
    + ["-sverilog"] + ["-full64"] + ["+v2k"] + ["-LDFLAGS"] + ["-Wl,--no-as-needed"]
    + (if c.dumpVcd then ["+vcs+vcdpluson", "-debug_pp"] else [])
  }

  /** vcs_cmd: the argument vector and the binary it builds. */
  method VcsCmd(c: Config, sources: seq<string>) returns (cmd: seq<string>, binFile: string)
    ensures cmd == VcsCmdSpec(c, sources) && binFile == "./simv"
  {
    cmd := ["vcs"];
    cmd := cmd + ["-timescale=" + c.timescale];
    cmd := cmd + sources;
    cmd := AppendFlagged(cmd, "-v", c.extLibs);
    cmd := AppendPrefixed(cmd, "+incdir+", c.incDirs);
    var defs := DefArgs("+define+", c.defines);
    cmd := cmd + defs;
    cmd := cmd + ["-sverilog"];
    cmd := cmd + ["-full64"];
    cmd := cmd + ["+v2k"];
    cmd := cmd + ["-LDFLAGS"];
    cmd := cmd + ["-Wl,--no-as-needed"];
    if c.dumpVcd {
      cmd := cmd + ["+vcs+vcdpluson", "-debug_pp"];
    }
    binFile := "./simv";
  }

  /** The arguments of iverilog_cmd after the sources. */
  function IverilogTail(c: Config): seq<string> {
    Flagged("-v", c.extLibs) + Prefixed("-I", c.incDirs) + DefArgList("-D", c.defines) + ["-g2012"]
  }

  /** The argument vector of iverilog_cmd (the binary it produces is `{circuit}_tb`). */
  function IverilogCmdSpec(c: Config, sources: seq<string>): seq<string> {
    ["iverilog"] + ["-o", c.circuitName + "_tb"] + sources
    + Flagged("-v", c.extLibs) + Prefixed("-I", c.incDirs) + DefArgList("-D", c.defines) + ["-g2012"]
  }

  /** iverilog_cmd: the argument vector and the binary it builds. */
  method IverilogCmd(c: Config, sources: seq<string>) returns (cmd: seq<string>, binFile: string)
    ensures cmd == IverilogCmdSpec(c, sources) && binFile == c.circuitName + "_tb"
  {
    cmd := ["iverilog"];
    binFile := c.circuitName + "_tb";
    cmd := cmd + ["-o", binFile];
    cmd := cmd + sources;
    cmd := AppendFlagged(cmd, "-v", c.extLibs);
    cmd := AppendPrefixed(cmd, "-I", c.incDirs);
    var defs := DefArgs("-D", c.defines);
    cmd := cmd + defs;
    cmd := cmd + ["-g2012"];
  }

  /** ncsim names the generated test bench as top exactly when no top module is given and the
      test bench is not external; with no top at all, no `-top` flag is passed. */
  lemma NcsimTopSelection(c: Config, sources: seq<string>, cmdFile: string)
    ensures var cmd := NcsimCmdSpec(c, sources, cmdFile);
      (c.topModule.None? && !c.extTestBench ==> cmd[1..3] == ["-top", c.circuitName + "_tb"])
      && (c.topModule.Some? ==> cmd[1..3] == ["-top", c.topModule.value])
      && (c.topModule.None? && c.extTestBench ==> cmd[1] == "-timescale")
  {
    var h := NcsimHead(c, cmdFile);
    var cmd := NcsimCmdSpec(c, sources, cmdFile);
    assert cmd[..|h|] == h;
    if NcsimTop(c).Some? {
      assert h[1..3] == ["-top", NcsimTop(c).value];
    } else {
      assert h[1] == "-timescale";
    }
  }

  lemma NcsimSplit(c: Config, sources: seq<string>, cmdFile: string)
    ensures NcsimCmdSpec(c, sources, cmdFile) == NcsimHead(c, cmdFile) + sources + NcsimTail(c)
  {
    var hs := NcsimHead(c, cmdFile) + sources;
    var t := Flagged("-v", c.extLibs);
    Assoc(hs, t, Flagged("-incdir", c.incDirs));
    t := t + Flagged("-incdir", c.incDirs);
    Assoc(hs, t, DefArgList("+define+", c.defines));
    t := t + DefArgList("+define+", c.defines);
    Assoc(hs, t, ["-access", "+rwc"]);
    t := t + ["-access", "+rwc"];
    Assoc(hs, t, ["-notimingchecks"]);
    t := t + ["-notimingchecks"];
    Assoc(hs, t, if c.noWarning then ["-neverwarn"] else []);
  }

  lemma VcsSplit(c: Config, sources: seq<string>)
    ensures VcsCmdSpec(c, sources) == ["vcs"] + ["-timescale=" + c.timescale] + sources + VcsTail(c)
  {
    var hs := ["vcs"] + ["-timescale=" + c.timescale] + sources;
    var t := Flagged("-v", c.extLibs);
    Assoc(hs, t, Prefixed("+incdir+", c.incDirs));
    t := t + Prefixed("+incdir+", c.incDirs);
    Assoc(hs, t, DefArgList("+define+", c.defines));
    t := t + DefArgList("+define+", c.defines);
    Assoc(hs, t, ["-sverilog"]);
    t := t + ["-sverilog"];
    Assoc(hs, t, ["-full64"]);
    t := t + ["-full64"];
    Assoc(hs, t, ["+v2k"]);
    t := t + ["+v2k"];
    Assoc(hs, t, ["-LDFLAGS"]);
    t := t + ["-LDFLAGS"];
    Assoc(hs, t, ["-Wl,--no-as-needed"]);
    t := t + ["-Wl,--no-as-needed"];
    Assoc(hs, t, if c.dumpVcd then ["+vcs+vcdpluson", "-debug_pp"] else []);
  }

  lemma IverilogSplit(c: Config, sources: seq<string>)
    ensures IverilogCmdSpec(c, sources) == ["iverilog"] + ["-o", c.circuitName + "_tb"] + sources + IverilogTail(c)
  {
  }

  lemma Middle<T>(h: seq<T>, m: seq<T>, t: seq<T>)
    ensures (h + m + t)[|h|..|h| + |m|] == m
  {
  }

  /** Every simulator receives the sources unchanged and in order, right after its fixed
      leading arguments. */
  lemma SourcesPassedInOrder(c: Config, sources: seq<string>, cmdFile: string)
    ensures var k := if NcsimTop(c).Some? then 7 else 5;
      NcsimCmdSpec(c, sources, cmdFile)[k..k + |sources|] == sources
    ensures VcsCmdSpec(c, sources)[2..2 + |sources|] == sources
    ensures IverilogCmdSpec(c, sources)[3..3 + |sources|] == sources
  {
    NcsimSplit(c, sources, cmdFile);
    Middle(NcsimHead(c, cmdFile), sources, NcsimTail(c));
    VcsSplit(c, sources);
    Middle(["vcs"] + ["-timescale=" + c.timescale], sources, VcsTail(c));
    IverilogSplit(c, sources);
    Middle(["iverilog"] + ["-o", c.circuitName + "_tb"], sources, IverilogTail(c));
  }

  /** iverilog receives one `-D` argument per define, in order, right before its final `-g2012`. */
  lemma DefinesPrecedeTrailingFlags(c: Config, sources: seq<string>)
    ensures var cmd := IverilogCmdSpec(c, sources);
      cmd[|cmd| - 1 - |c.defines|..|cmd| - 1] == DefArgList("-D", c.defines) && cmd[|cmd| - 1] == "-g2012"
  {
    var pre := ["iverilog"] + ["-o", c.circuitName + "_tb"] + sources + Flagged("-v", c.extLibs) + Prefixed("-I", c.incDirs);
    var d := DefArgList("-D", c.defines);
    Middle(pre, d, ["-g2012"]);
  }

  /** The commands of write_ncsim_tcl: VCD dumping when enabled, then the run and quit. */
  function TclCommands(c: Config): seq<string> {
    (if c.dumpVcd
     then ["database -open -vcd vcddb -into verilog.vcd -default -timescale ps", "probe -create -all -vcd -depth all"]
     else [])
    + ["run " + IntToString(c.numCycles) + "ns"] + ["quit"]
  }

  /** The TCL script is two commands longer when dumping VCD, and always ends by running for
      num_cycles ns and quitting. */
  lemma TclCommandsShape(c: Config)
    ensures |TclCommands(c)| == if c.dumpVcd then 4 else 2
    ensures TclCommands(c)[|TclCommands(c)| - 2..] == ["run " + IntToString(c.numCycles) + "ns", "quit"]
  {
  }
}
