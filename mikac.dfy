/** The build driver mikac.c: `compile_mika` runs the translator, the C
    compiler on the generated file, the compiler on the runtime library and
    the linker, one stage after the other, and on every failure removes a
    specific set of intermediate files.

    The disk is a set of paths. `system` is an oracle that, given the command
    line and the files present, returns an exit status and the files the
    command created. Every command, temp-file creation and `remove` call is
    recorded in a log. `ctx->output_file` is part of the state, because the
    link stage assigns it. */
module Mikac {
  import opened CStrings
  import opened Paths
  import opened OutputFree

  const InstalledStdlib: string := "/usr/local/include/mika/mika_std.c"
  const StdlibObject: string := "/tmp/mika_std.o"

  /** The flags of mikac: -o, -v, -g, -k, -c. */
  datatype Config = Config(input: string, output: Option<string>, verbose: bool, debug: bool,
                           keepFiles: bool, compileOnly: bool)

  /** What `system` reports for one command. */
  datatype Exec = Exec(status: int, created: set<string>)

  /** The outside world. `run` stands for `system`. `tempStdlib` is the
      value of `rand()` when create_temp_stdlib succeeds, None when its
      malloc or fopen fails. `allocOk` says whether the malloc for the
      default executable name succeeds. */
  datatype Env = Env(run: (string, set<string>) -> Exec, tempStdlib: Option<nat>, allocOk: bool)

  datatype Effect = Command(cmd: string) | CreateTemp(path: string) | Delete(path: string)

  /** The disk, what has been done so far, and ctx->output_file. */
  datatype Machine = Machine(files: set<string>, log: seq<Effect>, output: Option<string>)

  datatype Outcome = Outcome(status: int, m: Machine)

  /** A stage either hands the machine to the next stage or ends the run. */
  datatype Stage = Next(m: Machine) | Done(status: int, m: Machine)

  // ---------------------------------------------------------------------------
  // Paths and command lines
  // ---------------------------------------------------------------------------

  /** c_file: the input cut at its last '.', then ".c". */
  function CPath(input: string): string {
    StripExtension(input) + ".c"
  }

  /** o_file: the input cut at its last '.', then ".o". */
  function OPath(input: string): string {
    StripExtension(input) + ".o"
  }

  /** The executable when -o is not given: the input cut at its last '.'. */
  function DefaultExecutable(input: string): string {
    StripExtension(input)
  }

  /** For an accepted input the three derived paths replace ".mk" by ".c",
      by ".o" and by nothing. */
  lemma DerivedPathsOfMkInput(input: string)
    requires HasMkExtension(input)
    ensures CPath(input) == input[..|input| - 3] + ".c"
    ensures OPath(input) == input[..|input| - 3] + ".o"
    ensures DefaultExecutable(input) == input[..|input| - 3]
  {
    StemOfMkPath(input);
  }

  /** The generated C file and the object file are different files, and
      neither is the source or the executable. */
  lemma DerivedPathsAreDistinct(input: string)
    requires HasMkExtension(input)
    ensures CPath(input) != OPath(input)
    ensures CPath(input) != input && OPath(input) != input
    ensures CPath(input) != DefaultExecutable(input) && OPath(input) != DefaultExecutable(input)
  {
    DerivedPathsOfMkInput(input);
    var c, o := CPath(input), OPath(input);
    assert c[|c| - 1] == 'c' && o[|o| - 1] == 'o';
    assert |c| == |input| - 1 && |o| == |input| - 1;
  }

  /** The decimal digits of `n`, as sprintf("%d") prints them. */
  function Decimal(n: nat): (r: string)
    ensures 0 < |r|
    ensures forall k :: 0 <= k < |r| ==> '0' <= r[k] <= '9'
  {
    if n < 10 then [DigitChar(n)] else Decimal(n / 10) + [DigitChar(n % 10)]
  }

  function DigitChar(d: nat): (c: char)
    requires d < 10
    ensures '0' <= c <= '9'
  {
    "0123456789"[d]
  }

  /** The temporary runtime source: "/tmp/mika_std_", rand() % 10000 in
      decimal, then ".c". */
  function TempStdlibPath(random: nat): string {
    "/tmp/mika_std_" + Decimal(random % 10000) + ".c"
  }

  /** The temporary source is never the installed library or the shared
      object the library is compiled to. */
  lemma TempStdlibPathIsSource(random: nat)
    ensures TempStdlibPath(random) != StdlibObject
    ensures TempStdlibPath(random) != InstalledStdlib
  {
    var t := TempStdlibPath(random);
    assert t[|t| - 1] == 'c';
    assert StdlibObject[|StdlibObject| - 1] == 'o';
    assert t[..9] == "/tmp/mika";
    assert InstalledStdlib[..9] == "/usr/loca";
  }

  function TranslateCommand(input: string, verbose: bool): string {
    if verbose then "mika2c -v '" + input + "'" else "mika2c '" + input + "'"
  }

  function DebugFlag(debug: bool): string {
    if debug then " -g" else ""
  }

  const IncludeFlag: string := " -I/usr/local/include"

  function CompileCommand(c: string, o: string, debug: bool): string {
    "gcc -c " + c + " -o " + o + DebugFlag(debug) + IncludeFlag
  }

  function LibCommand(lib: string): string {
    "gcc -c " + lib + " -o " + StdlibObject
  }

  function LinkCommand(o: string, exe: string, debug: bool): string {
    "gcc " + o + " " + StdlibObject + " -o '" + exe + "'" + DebugFlag(debug)
  }

  /** -g is the only difference the debug flag makes to a command line: it
      is inserted before the include flag when compiling and appended when
      linking. */
  lemma DebugOnlyAddsFlag(c: string, o: string, exe: string)
    ensures CompileCommand(c, o, true) ==
            CompileCommand(c, o, false)[..|CompileCommand(c, o, false)| - |IncludeFlag|] + " -g" +
            CompileCommand(c, o, false)[|CompileCommand(c, o, false)| - |IncludeFlag|..]
    ensures LinkCommand(o, exe, true) == LinkCommand(o, exe, false) + " -g"
  {
    var prefix := "gcc -c " + c + " -o " + o;
    var plain := CompileCommand(c, o, false);
    assert plain == prefix + IncludeFlag;
    assert plain[..|plain| - |IncludeFlag|] == prefix;
    assert plain[|plain| - |IncludeFlag|..] == IncludeFlag;
  }

  // ---------------------------------------------------------------------------
  // The effects: execute_command, remove, cleanup_files
  // ---------------------------------------------------------------------------

  /** execute_command: run the command, add what it created. */
  function RunCommand(env: Env, m: Machine, cmd: string): Outcome {
    var e := env.run(cmd, m.files);
    Outcome(e.status, m.(files := m.files + e.created, log := m.log + [Command(cmd)]))
  }

  /** remove(path). */
  function Remove(m: Machine, path: string): Machine {
    m.(files := m.files - {path}, log := m.log + [Delete(path)])
  }

  /** The paths an optional argument names. */
  function Named(p: Option<string>): set<string> {
    if p.Some? then {p.value} else {}
  }

  /** cleanup_files: unless keep_files is set, remove each given path that
      exists, the C file first. */
  function Cleanup(m: Machine, c: Option<string>, o: Option<string>, keep: bool): (r: Machine)
    ensures keep ==> r == m
    ensures !keep ==> r.files == m.files - Named(c) - Named(o)
    ensures r.output == m.output && m.log <= r.log
    ensures forall k :: |m.log| <= k < |r.log| ==>
              r.log[k].Delete? && r.log[k].path in (Named(c) + Named(o)) * m.files
  {
    if keep then m
    else
      var m1 := if c.Some? && c.value in m.files then Remove(m, c.value) else m;
      if o.Some? && o.value in m1.files then Remove(m1, o.value) else m1
  }

  /** The effects a run added to a log it extended. */
  function Added(before: Machine, after: Machine): seq<Effect>
    requires before.log <= after.log
  {
    after.log[|before.log|..]
  }

  // ---------------------------------------------------------------------------
  // The stages of compile_mika
  // ---------------------------------------------------------------------------

  /** Stage 1: run mika2c; fail when it fails or leaves no C file. */
  function TranslateStage(cfg: Config, env: Env, m: Machine): (r: Stage)
    ensures r.m.output == m.output && m.log <= r.m.log && m.files <= r.m.files
    ensures r.Done? ==> r.status == 1
  {
    var t := RunCommand(env, m, TranslateCommand(cfg.input, cfg.verbose));
    if t.status != 0 then Done(1, t.m)
    else if CPath(cfg.input) !in t.m.files then Done(1, t.m)
    else Next(t.m)
  }

  /** Stage 2: compile the C file to the object file. A failure removes the
      C file (unless -k), the -c mode ends here and removes it too. */
  function ObjectStage(cfg: Config, env: Env, m: Machine): (r: Stage)
    ensures r.m.output == m.output && m.log <= r.m.log
    ensures r.Next? ==> m.files <= r.m.files && OPath(cfg.input) in r.m.files && !cfg.compileOnly
    ensures r.Done? ==> r.status == 0 || r.status == 1
  {
    var c, o := CPath(cfg.input), OPath(cfg.input);
    var k := RunCommand(env, m, CompileCommand(c, o, cfg.debug));
    if k.status != 0 then Done(1, Cleanup(k.m, Some(c), None, cfg.keepFiles))
    else if o !in k.m.files then Done(1, Cleanup(k.m, Some(c), None, cfg.keepFiles))
    else if cfg.compileOnly then Done(0, if cfg.keepFiles then k.m else Remove(k.m, c))
    else Next(k.m)
  }

  /** Compile the runtime source `lib` to /tmp/mika_std.o, then remove the
      temporary source if there is one, on failure after cleanup_files. */
  function LibStage(cfg: Config, env: Env, m: Machine, lib: string, temp: Option<string>): (r: Stage)
    ensures r.m.output == m.output && m.log <= r.m.log
    ensures r.Done? ==> r.status == 1
  {
    var c, o := CPath(cfg.input), OPath(cfg.input);
    var l := RunCommand(env, m, LibCommand(lib));
    if l.status != 0 then
      var m1 := Cleanup(l.m, Some(c), Some(o), cfg.keepFiles);
      Done(1, if temp.Some? then Remove(m1, temp.value) else m1)
    else
      Next(if temp.Some? then Remove(l.m, temp.value) else l.m)
  }

  /** Stage 3: the installed runtime source if it exists, or else a freshly
      written temporary one; failing to write it fails the build. */
  function StdlibStage(cfg: Config, env: Env, m: Machine): (r: Stage)
    ensures r.m.output == m.output && m.log <= r.m.log
    ensures r.Done? ==> r.status == 1
  {
    if InstalledStdlib in m.files then LibStage(cfg, env, m, InstalledStdlib, None)
    else match env.tempStdlib
      case None =>
        Done(1, Cleanup(m, Some(CPath(cfg.input)), Some(OPath(cfg.input)), cfg.keepFiles))
      case Some(random) =>
        var t := TempStdlibPath(random);
        LibStage(cfg, env, m.(files := m.files + {t}, log := m.log + [CreateTemp(t)]), t, Some(t))
  }

  /** Stage 4: choose the executable name, link, and clean up: on failure
      cleanup_files then /tmp/mika_std.o, on success the other way round. */
  function LinkStage(cfg: Config, env: Env, m: Machine): (r: Outcome)
    ensures m.log <= r.m.log
    ensures r.status == 0 || r.status == 1
    ensures r.m.output == (if m.output.None? && env.allocOk then Some(DefaultExecutable(cfg.input)) else m.output)
  {
    var c, o := Some(CPath(cfg.input)), Some(OPath(cfg.input));
    if m.output.None? && !env.allocOk then
      Outcome(1, Remove(Cleanup(m, c, o, cfg.keepFiles), StdlibObject))
    else
      var m1 := if m.output.None? then m.(output := Some(DefaultExecutable(cfg.input))) else m;
      var k := RunCommand(env, m1, LinkCommand(o.value, m1.output.value, cfg.debug));
      if k.status != 0 then Outcome(1, Remove(Cleanup(k.m, c, o, cfg.keepFiles), StdlibObject))
      else Outcome(0, Cleanup(Remove(k.m, StdlibObject), c, o, cfg.keepFiles))
  }

  /** compile_mika: the four stages in order, the first that ends the run
      deciding its status. */
  function Compile(cfg: Config, env: Env, m: Machine): (r: Outcome)
    ensures m.log <= r.m.log
    ensures r.status == 0 || r.status == 1
  {
    match TranslateStage(cfg, env, m)
    case Done(s, m1) => Outcome(s, m1)
    case Next(m1) =>
      match ObjectStage(cfg, env, m1)
      case Done(s, m2) => Outcome(s, m2)
      case Next(m2) =>
        match StdlibStage(cfg, env, m2)
        case Done(s, m3) => Outcome(s, m3)
        case Next(m3) => LinkStage(cfg, env, m3)
  }

  /** main after option parsing: ctx.output_file is the -o argument; the
      input must exist and end in ".mk" before compile_mika runs. */
  function Launch(cfg: Config, env: Env, m: Machine): Outcome {
    var m0 := m.(output := cfg.output);
    if cfg.input !in m.files || !HasMkExtension(cfg.input) then Outcome(1, m0)
    else Compile(cfg, env, m0)
  }

  /** Where ctx.output_file points when main frees it: at `optarg`, inside
      argument `optarg` of argv, for -o; else at the name the link stage
      allocated, or NULL when the build never got that far or the malloc
      failed. */
  function ExitPointer(cfg: Config, r: Outcome, optarg: nat): Option<Pointer> {
    if cfg.output.Some? then Some(IntoArgv(optarg))
    else if r.m.output.Some? then Some(HeapBlock) else None
  }

  /** How main ends with the free guard as written: the guard runs after
      compile_mika, whatever it returned. */
  function MainExitAsWritten(cfg: Config, env: Env, m: Machine, optarg: nat, optind: nat): Exit {
    if cfg.input !in m.files || !HasMkExtension(cfg.input) then Returns(1)
    else
      var r := Compile(cfg, env, m.(output := cfg.output));
      var p := ExitPointer(cfg, r, optarg);
      EndOfMain(r.status, p, FreesAsWritten(p, optind))
  }

  /** How main ends when only an allocated name is freed. */
  function MainExit(cfg: Config, env: Env, m: Machine, optarg: nat): Exit {
    if cfg.input !in m.files || !HasMkExtension(cfg.input) then Returns(1)
    else
      var r := Compile(cfg, env, m.(output := cfg.output));
      var p := ExitPointer(cfg, r, optarg);
      EndOfMain(r.status, p, FreesIntended(p))
  }

  /** As written, every build of an existing ".mk" input with -o ends in an
      invalid free, whatever compile_mika returned: `optarg` is never
      argv[optind]. */
  lemma DriverOptionFreesArgv(cfg: Config, env: Env, m: Machine, optarg: nat, optind: nat)
    requires cfg.input in m.files && HasMkExtension(cfg.input)
    requires cfg.output.Some? && optarg != optind
    ensures MainExitAsWritten(cfg, env, m, optarg, optind) == InvalidFree
  {
  }

  /** With the intended guard main always returns, and with the status of
      Launch. */
  lemma MainExitIsLaunchStatus(cfg: Config, env: Env, m: Machine, optarg: nat)
    ensures MainExit(cfg, env, m, optarg) == Returns(Launch(cfg, env, m).status)
  {
  }

  // ---------------------------------------------------------------------------
  // Which artifacts survive
  // ---------------------------------------------------------------------------

  /** A missing input or one without the ".mk" extension fails the run before
      anything is executed, created or removed; a valid one is compiled. */
  lemma InvalidInputRunsNothing(cfg: Config, env: Env, m: Machine)
    ensures (cfg.input !in m.files || !HasMkExtension(cfg.input)) ==>
      Launch(cfg, env, m) == Outcome(1, m.(output := cfg.output))
    ensures (cfg.input in m.files && HasMkExtension(cfg.input)) ==>
      Launch(cfg, env, m) == Compile(cfg, env, m.(output := cfg.output))
  {
  }

  /** A failed translation, or one that leaves no C file, fails the build
      having run that one command and removed nothing. */
  lemma TranslateFailureRemovesNothing(cfg: Config, env: Env, m: Machine)
    requires var e := env.run(TranslateCommand(cfg.input, cfg.verbose), m.files);
             e.status != 0 || CPath(cfg.input) !in m.files + e.created
    ensures var r := Compile(cfg, env, m);
            r.status == 1 && r.m.log == m.log + [Command(TranslateCommand(cfg.input, cfg.verbose))] &&
            m.files <= r.m.files
  {
  }

  /** The machine when the first two commands have run. */
  function AfterCompile(cfg: Config, env: Env, m: Machine): Machine {
    var t := RunCommand(env, m, TranslateCommand(cfg.input, cfg.verbose)).m;
    RunCommand(env, t, CompileCommand(CPath(cfg.input), OPath(cfg.input), cfg.debug)).m
  }

  /** Either the translation succeeded and left a C file, and then the
      compiler has run, or the build has already failed. */
  predicate TranslationSucceeds(cfg: Config, env: Env, m: Machine) {
    var e := env.run(TranslateCommand(cfg.input, cfg.verbose), m.files);
    e.status == 0 && CPath(cfg.input) in m.files + e.created
  }

  /** A failed C compilation, or one that leaves no object file, fails the
      build; the only file removed is the C file, and only without -k. */
  lemma CompileFailureRemovesOnlyCFile(cfg: Config, env: Env, m: Machine)
    requires TranslationSucceeds(cfg, env, m)
    requires var k := AfterCompile(cfg, env, m);
             var t := RunCommand(env, m, TranslateCommand(cfg.input, cfg.verbose)).m;
             env.run(CompileCommand(CPath(cfg.input), OPath(cfg.input), cfg.debug), t.files).status != 0 ||
             OPath(cfg.input) !in k.files
    ensures var r := Compile(cfg, env, m);
            var k := AfterCompile(cfg, env, m);
            r.status == 1 &&
            r.m.files == (if cfg.keepFiles then k.files else k.files - {CPath(cfg.input)}) &&
            r.m.log == k.log + (if cfg.keepFiles then [] else [Delete(CPath(cfg.input))])
  {
  }

  /** With -c a successful compile ends the build with status 0: the runtime
      library is never looked at and the linker never runs, the C file is
      removed unless -k is given, and the object file remains. */
  lemma CompileOnlyStopsAfterObject(cfg: Config, env: Env, m: Machine)
    requires HasMkExtension(cfg.input) && cfg.compileOnly
    requires TranslationSucceeds(cfg, env, m)
    requires var t := RunCommand(env, m, TranslateCommand(cfg.input, cfg.verbose)).m;
             env.run(CompileCommand(CPath(cfg.input), OPath(cfg.input), cfg.debug), t.files).status == 0 &&
             OPath(cfg.input) in AfterCompile(cfg, env, m).files
    ensures var r := Compile(cfg, env, m);
            var k := AfterCompile(cfg, env, m);
            r.status == 0 &&
            r.m.log == m.log + [Command(TranslateCommand(cfg.input, cfg.verbose)),
                                Command(CompileCommand(CPath(cfg.input), OPath(cfg.input), cfg.debug))] +
                       (if cfg.keepFiles then [] else [Delete(CPath(cfg.input))]) &&
            OPath(cfg.input) in r.m.files &&
            (cfg.keepFiles <==> CPath(cfg.input) in r.m.files)
  {
    DerivedPathsAreDistinct(cfg.input);
  }

  /** In the stdlib stage, a temporary source that is written is removed
      again, on success as on failure and whatever -k says; and with the
      installed library present none is written. */
  lemma StdlibStageRemovesTemp(cfg: Config, env: Env, m: Machine)
    ensures var r := StdlibStage(cfg, env, m);
            forall t :: CreateTemp(t) in Added(m, r.m) ==> Delete(t) in Added(m, r.m)
    ensures InstalledStdlib in m.files ==>
            forall t :: CreateTemp(t) !in Added(m, StdlibStage(cfg, env, m).m)
  {
    var r := StdlibStage(cfg, env, m);
    if InstalledStdlib in m.files {
      assert r == LibStage(cfg, env, m, InstalledStdlib, None);
      LibStageEffects(cfg, env, m, InstalledStdlib, None);
    } else if env.tempStdlib.Some? {
      TempLibStageEffects(cfg, env, m, TempStdlibPath(env.tempStdlib.value));
    } else {
      var a := Added(m, r.m);
      assert r.m == Cleanup(m, Some(CPath(cfg.input)), Some(OPath(cfg.input)), cfg.keepFiles);
      assert forall i :: 0 <= i < |a| ==> a[i].Delete?;
    }
  }

  /** Writing the temporary source `tp` and compiling it: the only
      CreateTemp is that of `tp`, and `tp` is removed. */
  lemma TempLibStageEffects(cfg: Config, env: Env, m: Machine, tp: string)
    ensures var m' := m.(files := m.files + {tp}, log := m.log + [CreateTemp(tp)]);
            var a := Added(m, LibStage(cfg, env, m', tp, Some(tp)).m);
            (forall t :: CreateTemp(t) in a ==> t == tp) && Delete(tp) in a
  {
    var m' := m.(files := m.files + {tp}, log := m.log + [CreateTemp(tp)]);
    var r := LibStage(cfg, env, m', tp, Some(tp));
    LibStageEffects(cfg, env, m', tp, Some(tp));
    assert Added(m, r.m) == [CreateTemp(tp)] + Added(m', r.m);
  }

  /** Compiling the library writes no temporary source, and removes the
      given one. */
  lemma LibStageEffects(cfg: Config, env: Env, m: Machine, lib: string, temp: Option<string>)
    ensures var a := Added(m, LibStage(cfg, env, m, lib, temp).m);
            (forall t :: CreateTemp(t) !in a) && (temp.Some? ==> Delete(temp.value) in a)
  {
    var r := LibStage(cfg, env, m, lib, temp);
    var a := Added(m, r.m);
    var l := RunCommand(env, m, LibCommand(lib));
    var m1 := if l.status != 0 then Cleanup(l.m, Some(CPath(cfg.input)), Some(OPath(cfg.input)), cfg.keepFiles) else l.m;
    assert a[0] == Command(LibCommand(lib));
    forall t ensures CreateTemp(t) !in a {
      forall i | 0 <= i < |a| ensures a[i] != CreateTemp(t) {
        if 0 < i < |m1.log| - |m.log| {
          assert a[i] == m1.log[|m.log| + i];
        }
      }
    }
    if temp.Some? {
      assert a[|a| - 1] == Delete(temp.value);
    }
  }

  /** Compile writes at most one temporary library source, in the stdlib
      stage, and removes every one it writes. */
  lemma TempStdlibAlwaysRemoved(cfg: Config, env: Env, m: Machine, t: string)
    ensures var r := Compile(cfg, env, m);
            CreateTemp(t) in Added(m, r.m) ==> Delete(t) in Added(m, r.m)
  {
    ghost var r := Compile(cfg, env, m);
    ghost var s1 := TranslateStage(cfg, env, m);
    if s1.Next? {
      ghost var s2 := ObjectStage(cfg, env, s1.m);
      if s2.Next? {
        ghost var s3 := StdlibStage(cfg, env, s2.m);
        StdlibStageRemovesTemp(cfg, env, s2.m);
        NoTempBefore(cfg, env, m, s2.m, t);
        if s3.Next? {
          ghost var s4 := LinkStage(cfg, env, s3.m);
          NoTempInLink(cfg, env, s3.m, t);
          SplitAdded(m, s2.m, s3.m, s4.m, t);
        } else {
          SplitAdded(m, s2.m, s3.m, s3.m, t);
        }
      } else {
        NoTempInStages12(cfg, env, m, s1, s2, t);
      }
    } else {
      NoTempInStage1(cfg, env, m, t);
    }
  }

  lemma NoTempInStage1(cfg: Config, env: Env, m: Machine, t: string)
    ensures CreateTemp(t) !in Added(m, TranslateStage(cfg, env, m).m)
  {
    var a := Added(m, TranslateStage(cfg, env, m).m);
    assert a == [Command(TranslateCommand(cfg.input, cfg.verbose))];
  }

  lemma NoTempInStages12(cfg: Config, env: Env, m: Machine, s1: Stage, s2: Stage, t: string)
    requires s1 == TranslateStage(cfg, env, m) && s2 == ObjectStage(cfg, env, s1.m)
    ensures m.log <= s2.m.log && CreateTemp(t) !in Added(m, s2.m)
  {
    NoTempInStage1(cfg, env, m, t);
    var a1 := Added(m, s1.m);
    var a2 := Added(s1.m, s2.m);
    assert Added(m, s2.m) == a1 + a2;
    var k := RunCommand(env, s1.m, CompileCommand(CPath(cfg.input), OPath(cfg.input), cfg.debug)).m;
    assert a2[0] == Command(CompileCommand(CPath(cfg.input), OPath(cfg.input), cfg.debug));
    forall i | 0 <= i < |a2| ensures a2[i] != CreateTemp(t) {
      if i > 0 {
        assert a2[i] == s2.m.log[|k.log| + i - 1];
      }
    }
  }

  lemma NoTempBefore(cfg: Config, env: Env, m: Machine, m2: Machine, t: string)
    requires TranslateStage(cfg, env, m).Next? && m2 == ObjectStage(cfg, env, TranslateStage(cfg, env, m).m).m
    ensures m.log <= m2.log && CreateTemp(t) !in Added(m, m2)
  {
    NoTempInStages12(cfg, env, m, TranslateStage(cfg, env, m), ObjectStage(cfg, env, TranslateStage(cfg, env, m).m), t);
  }

  lemma NoTempInLink(cfg: Config, env: Env, m: Machine, t: string)
    ensures CreateTemp(t) !in Added(m, LinkStage(cfg, env, m).m)
  {
    var r := LinkStage(cfg, env, m);
    var a := Added(m, r.m);
    forall i | 0 <= i < |a| ensures !a[i].CreateTemp? {
      LinkEffect(cfg, env, m, i);
    }
  }

  /** Every effect of the link stage is a command or a removal. */
  lemma LinkEffect(cfg: Config, env: Env, m: Machine, i: nat)
    requires i < |Added(m, LinkStage(cfg, env, m).m)|
    ensures Added(m, LinkStage(cfg, env, m).m)[i].Command? || Added(m, LinkStage(cfg, env, m).m)[i].Delete?
  {
    var c, o := Some(CPath(cfg.input)), Some(OPath(cfg.input));
    var r := LinkStage(cfg, env, m);
    if m.output.None? && !env.allocOk {
      var m1 := Cleanup(m, c, o, cfg.keepFiles);
      if i < |m1.log| - |m.log| {
        assert r.m.log[|m.log| + i] == m1.log[|m.log| + i];
      }
    } else {
      var m1 := if m.output.None? then m.(output := Some(DefaultExecutable(cfg.input))) else m;
      var k := RunCommand(env, m1, LinkCommand(o.value, m1.output.value, cfg.debug));
      if i > 0 {
        if k.status != 0 {
          var m2 := Cleanup(k.m, c, o, cfg.keepFiles);
          if |m.log| + i < |m2.log| {
            assert r.m.log[|m.log| + i] == m2.log[|m.log| + i];
          }
        } else {
          var m2 := Remove(k.m, StdlibObject);
          if |m.log| + i >= |m2.log| {
            assert r.m.log[|m.log| + i] == r.m.log[|m2.log| + (|m.log| + i - |m2.log|)];
          }
        }
      }
    }
  }

  /** The effects of three consecutive steps, one of which holds no
      CreateTemp(t) before it and none after. */
  lemma SplitAdded(m: Machine, m2: Machine, m3: Machine, m4: Machine, t: string)
    requires m.log <= m2.log <= m3.log <= m4.log
    requires CreateTemp(t) !in Added(m, m2) && CreateTemp(t) !in Added(m3, m4)
    requires CreateTemp(t) in Added(m2, m3) ==> Delete(t) in Added(m2, m3)
    ensures CreateTemp(t) in Added(m, m4) ==> Delete(t) in Added(m, m4)
  {
    assert Added(m, m4) == Added(m, m2) + Added(m2, m3) + Added(m3, m4);
  }

  /** Once the runtime library has been compiled, the link stage leaves no
      /tmp/mika_std.o behind and records its removal, on every path and
      whatever -k says. */
  lemma LinkStageRemovesStdlibObject(cfg: Config, env: Env, m: Machine)
    ensures var r := LinkStage(cfg, env, m);
            StdlibObject !in r.m.files && Delete(StdlibObject) in Added(m, r.m)
  {
    var c, o := Some(CPath(cfg.input)), Some(OPath(cfg.input));
    var r := LinkStage(cfg, env, m);
    if m.output.None? && !env.allocOk {
      assert r.m.log[|r.m.log| - 1] == Delete(StdlibObject);
    } else {
      var m1 := if m.output.None? then m.(output := Some(DefaultExecutable(cfg.input))) else m;
      var k := RunCommand(env, m1, LinkCommand(o.value, m1.output.value, cfg.debug));
      if k.status != 0 {
        assert r.m.log[|r.m.log| - 1] == Delete(StdlibObject);
      } else {
        var m2 := Remove(k.m, StdlibObject);
        assert r.m.log[|m2.log| - 1] == Delete(StdlibObject);
      }
    }
  }

  /** A successful full build leaves neither /tmp/mika_std.o nor, without
      -k, the C and object files behind. */
  lemma SuccessfulBuildLeavesNoIntermediates(cfg: Config, env: Env, m: Machine)
    requires !cfg.compileOnly
    ensures var r := Compile(cfg, env, m);
            r.status == 0 ==>
              StdlibObject !in r.m.files &&
              (!cfg.keepFiles ==> CPath(cfg.input) !in r.m.files && OPath(cfg.input) !in r.m.files)
  {
    var s1 := TranslateStage(cfg, env, m);
    if s1.Next? {
      var s2 := ObjectStage(cfg, env, s1.m);
      if s2.Next? {
        var s3 := StdlibStage(cfg, env, s2.m);
        if s3.Next? {
          LinkStageRemovesStdlibObject(cfg, env, s3.m);
        }
      }
    }
  }

  /** Once stage 2 has succeeded, every later path without -k, whether it
      fails or succeeds, removes the C file and the object file and records
      both removals: stage 3 failing to write the temporary library or to
      compile the library, stage 4 failing to allocate the executable name
      or to link, and a successful link all call cleanup_files. */
  lemma LateStagesRemoveCAndO(cfg: Config, env: Env, m: Machine)
    requires !cfg.keepFiles
    requires TranslateStage(cfg, env, m).Next?
    requires ObjectStage(cfg, env, TranslateStage(cfg, env, m).m).Next?
    ensures var r := Compile(cfg, env, m);
            CPath(cfg.input) !in r.m.files && OPath(cfg.input) !in r.m.files &&
            Delete(CPath(cfg.input)) in Added(m, r.m) && Delete(OPath(cfg.input)) in Added(m, r.m)
  {
    var c, o := CPath(cfg.input), OPath(cfg.input);
    var s1 := TranslateStage(cfg, env, m);
    var s2 := ObjectStage(cfg, env, s1.m);
    assert c in s2.m.files && o in s2.m.files;
    var s3 := StdlibStage(cfg, env, s2.m);
    StdlibStageCleansUp(cfg, env, s2.m);
    var r := Compile(cfg, env, m);
    AddedSplit(m, s2.m, s3.m);
    if s3.Next? {
      LinkStageCleansUp(cfg, env, s3.m);
      AddedSplit(m, s3.m, r.m);
    }
  }

  /** The effects of two consecutive steps are those of the first followed
      by those of the second. */
  lemma AddedSplit(m1: Machine, m2: Machine, m3: Machine)
    requires m1.log <= m2.log <= m3.log
    ensures Added(m1, m3) == Added(m1, m2) + Added(m2, m3)
  {
  }

  /** cleanup_files without -k removes each named path that exists and
      records that removal. */
  lemma CleanupDeletesPresent(m: Machine, c: Option<string>, o: Option<string>, p: string)
    requires p in Named(c) + Named(o) && p in m.files
    ensures Delete(p) in Added(m, Cleanup(m, c, o, false))
    ensures p !in Cleanup(m, c, o, false).files
  {
    var m1 := if c.Some? && c.value in m.files then Remove(m, c.value) else m;
    var r := Cleanup(m, c, o, false);
    AddedSplit(m, m1, r);
    if c.Some? && c.value == p {
      assert Added(m, m1) == [Delete(p)];
    } else {
      assert r == Remove(m1, p);
      assert Added(m1, r) == [Delete(p)];
    }
  }

  /** Without -k, stage 3 removes the C and object files on both of its
      failures; when it succeeds the object file is still there, and the
      C file is too unless it was the temporary library source, which the
      stage has then removed. */
  lemma StdlibStageCleansUp(cfg: Config, env: Env, m: Machine)
    requires !cfg.keepFiles
    requires CPath(cfg.input) in m.files && OPath(cfg.input) in m.files
    ensures var s := StdlibStage(cfg, env, m);
            var c, o := CPath(cfg.input), OPath(cfg.input);
            (s.Done? ==> c !in s.m.files && o !in s.m.files &&
                         Delete(c) in Added(m, s.m) && Delete(o) in Added(m, s.m)) &&
            (s.Next? ==> o in s.m.files && (c in s.m.files || Delete(c) in Added(m, s.m)))
  {
    var c, o := Some(CPath(cfg.input)), Some(OPath(cfg.input));
    var s := StdlibStage(cfg, env, m);
    if InstalledStdlib in m.files {
      LibStageCleansUp(cfg, env, m, InstalledStdlib, None);
    } else if env.tempStdlib.None? {
      CleanupDeletesPresent(m, c, o, c.value);
      CleanupDeletesPresent(m, c, o, o.value);
    } else {
      var t := TempStdlibPath(env.tempStdlib.value);
      var m' := m.(files := m.files + {t}, log := m.log + [CreateTemp(t)]);
      LibStageCleansUp(cfg, env, m', t, Some(t));
      AddedSplit(m, m', s.m);
      var o' := o.value;
      assert t != o' by {
        assert t[|t| - 1] == 'c' && o'[|o'| - 1] == 'o';
      }
    }
  }

  /** The library compile without -k: on failure the C and object files are
      removed, on success only the temporary source is. */
  lemma LibStageCleansUp(cfg: Config, env: Env, m: Machine, lib: string, temp: Option<string>)
    requires !cfg.keepFiles
    requires CPath(cfg.input) in m.files && OPath(cfg.input) in m.files
    ensures var s := LibStage(cfg, env, m, lib, temp);
            var c, o := CPath(cfg.input), OPath(cfg.input);
            (s.Done? ==> c !in s.m.files && o !in s.m.files &&
                         Delete(c) in Added(m, s.m) && Delete(o) in Added(m, s.m)) &&
            (s.Next? ==> s.m.files == m.files + env.run(LibCommand(lib), m.files).created - Named(temp) &&
                         (temp.Some? ==> Delete(temp.value) in Added(m, s.m)))
  {
    var c, o := Some(CPath(cfg.input)), Some(OPath(cfg.input));
    var s := LibStage(cfg, env, m, lib, temp);
    var l := RunCommand(env, m, LibCommand(lib));
    if l.status != 0 {
      var m1 := Cleanup(l.m, c, o, false);
      CleanupDeletesPresent(l.m, c, o, c.value);
      CleanupDeletesPresent(l.m, c, o, o.value);
      AddedSplit(m, l.m, m1);
      AddedSplit(m, m1, s.m);
    } else if temp.Some? {
      assert Added(m, s.m) == [Command(LibCommand(lib)), Delete(temp.value)];
    }
  }

  /** Without -k, stage 4 leaves neither the C file nor the object file on
      any of its three exits, and records the removal of each that was
      there when it began. */
  lemma LinkStageCleansUp(cfg: Config, env: Env, m: Machine)
    requires !cfg.keepFiles
    ensures var r := LinkStage(cfg, env, m);
            var c, o := CPath(cfg.input), OPath(cfg.input);
            c !in r.m.files && o !in r.m.files &&
            (c in m.files ==> Delete(c) in Added(m, r.m)) &&
            (o in m.files ==> Delete(o) in Added(m, r.m))
  {
    var c, o := CPath(cfg.input), OPath(cfg.input);
    var r := LinkStage(cfg, env, m);
    if m.output.None? && !env.allocOk {
      CleanupThenRemove(m, c, o, StdlibObject);
    } else {
      var m1 := if m.output.None? then m.(output := Some(DefaultExecutable(cfg.input))) else m;
      var k := RunCommand(env, m1, LinkCommand(o, m1.output.value, cfg.debug));
      if k.status != 0 {
        CleanupThenRemove(k.m, c, o, StdlibObject);
      } else {
        RemoveThenCleanup(k.m, c, o, StdlibObject);
      }
      AddedSplit(m, k.m, r.m);
    }
  }

  /** cleanup_files without -k followed by one more removal leaves neither
      file, and records the removal of each that was there. */
  lemma CleanupThenRemove(k: Machine, c: string, o: string, x: string)
    ensures var r := Remove(Cleanup(k, Some(c), Some(o), false), x);
            c !in r.files && o !in r.files && k.log <= r.log &&
            (c in k.files ==> Delete(c) in Added(k, r)) && (o in k.files ==> Delete(o) in Added(k, r))
  {
    var m1 := Cleanup(k, Some(c), Some(o), false);
    var r := Remove(m1, x);
    AddedSplit(k, m1, r);
    if c in k.files { CleanupDeletesPresent(k, Some(c), Some(o), c); }
    if o in k.files { CleanupDeletesPresent(k, Some(c), Some(o), o); }
  }

  /** One removal followed by cleanup_files without -k leaves neither file,
      and records the removal of each that was there. */
  lemma RemoveThenCleanup(k: Machine, c: string, o: string, x: string)
    ensures var r := Cleanup(Remove(k, x), Some(c), Some(o), false);
            c !in r.files && o !in r.files && k.log <= r.log &&
            (c in k.files ==> Delete(c) in Added(k, r)) && (o in k.files ==> Delete(o) in Added(k, r))
  {
    var m1 := Remove(k, x);
    var r := Cleanup(m1, Some(c), Some(o), false);
    AddedSplit(k, m1, r);
    assert Added(k, m1) == [Delete(x)];
    if c in m1.files { CleanupDeletesPresent(m1, Some(c), Some(o), c); }
    if o in m1.files { CleanupDeletesPresent(m1, Some(c), Some(o), o); }
  }

  /** With -k a successful full build keeps the C and object files, provided
      neither is also one of the runtime library's own files: the object
      file must not be /tmp/mika_std.o, which the library compile
      overwrites, and the C file must not be the temporary library source,
      which is removed. */
  lemma KeepFilesKeepsIntermediates(cfg: Config, env: Env, m: Machine)
    requires HasMkExtension(cfg.input) && cfg.keepFiles && !cfg.compileOnly
    requires OPath(cfg.input) != StdlibObject
    requires env.tempStdlib.Some? ==> CPath(cfg.input) != TempStdlibPath(env.tempStdlib.value)
    ensures var r := Compile(cfg, env, m);
            r.status == 0 ==> CPath(cfg.input) in r.m.files && OPath(cfg.input) in r.m.files
  {
    var c, o := CPath(cfg.input), OPath(cfg.input);
    var s1 := TranslateStage(cfg, env, m);
    if s1.Next? {
      var s2 := ObjectStage(cfg, env, s1.m);
      if s2.Next? {
        assert c in s2.m.files && o in s2.m.files;
        var s3 := StdlibStage(cfg, env, s2.m);
        if env.tempStdlib.Some? {
          TempStdlibPathIsSource(env.tempStdlib.value);
          DerivedPathsAreDistinct(cfg.input);
          assert o != TempStdlibPath(env.tempStdlib.value) by {
            var tp := TempStdlibPath(env.tempStdlib.value);
            assert tp[|tp| - 1] == 'c' && o[|o| - 1] == 'o';
          }
        }
        if s3.Next? {
          assert c in s3.m.files && o in s3.m.files;
        }
      }
    }
  }

  /** The temporary library source and /tmp/mika_std.o: the files a build
      removes even with -k. */
  predicate Transient(env: Env, p: string) {
    p == StdlibObject || (env.tempStdlib.Some? && p == TempStdlibPath(env.tempStdlib.value))
  }

  /** Every removal among the effects `a` is of a transient file. */
  predicate RemovesOnlyTransients(env: Env, a: seq<Effect>) {
    forall i :: 0 <= i < |a| && a[i].Delete? ==> Transient(env, a[i].path)
  }

  /** Removals of transient files only, in two consecutive steps, are
      removals of transient files only in both together. */
  lemma RemovesOnlyTransientsChain(env: Env, m1: Machine, m2: Machine, m3: Machine)
    requires m1.log <= m2.log <= m3.log
    requires RemovesOnlyTransients(env, Added(m1, m2)) && RemovesOnlyTransients(env, Added(m2, m3))
    ensures RemovesOnlyTransients(env, Added(m1, m3))
  {
    var a: seq<Effect>, b: seq<Effect> := Added(m1, m2), Added(m2, m3);
    assert Added(m1, m3) == a + b;
    forall i | 0 <= i < |a + b| && (a + b)[i].Delete? ensures Transient(env, (a + b)[i].path) {
      if i >= |a| {
        assert (a + b)[i] == b[i - |a|];
      }
    }
  }

  /** With -k the build removes only transient files: never the C file and
      never the object file. */
  lemma KeepFilesRemovesOnlyTransients(cfg: Config, env: Env, m: Machine)
    requires cfg.keepFiles
    ensures RemovesOnlyTransients(env, Added(m, Compile(cfg, env, m).m))
  {
    var s1 := TranslateStage(cfg, env, m);
    KeptTranslateEffects(cfg, env, m);
    if s1.Next? {
      var s2 := ObjectStage(cfg, env, s1.m);
      KeptObjectEffects(cfg, env, s1.m);
      RemovesOnlyTransientsChain(env, m, s1.m, s2.m);
      if s2.Next? {
        var s3 := StdlibStage(cfg, env, s2.m);
        KeptStdlibEffects(cfg, env, s2.m);
        RemovesOnlyTransientsChain(env, m, s2.m, s3.m);
        if s3.Next? {
          var r := LinkStage(cfg, env, s3.m);
          KeptLinkEffects(cfg, env, s3.m);
          RemovesOnlyTransientsChain(env, m, s3.m, r.m);
        }
      }
    }
  }

  lemma KeptTranslateEffects(cfg: Config, env: Env, m: Machine)
    ensures RemovesOnlyTransients(env, Added(m, TranslateStage(cfg, env, m).m))
  {
    assert Added(m, TranslateStage(cfg, env, m).m) == [Command(TranslateCommand(cfg.input, cfg.verbose))];
  }

  lemma KeptObjectEffects(cfg: Config, env: Env, m: Machine)
    requires cfg.keepFiles
    ensures RemovesOnlyTransients(env, Added(m, ObjectStage(cfg, env, m).m))
  {
    assert Added(m, ObjectStage(cfg, env, m).m) ==
           [Command(CompileCommand(CPath(cfg.input), OPath(cfg.input), cfg.debug))];
  }

  lemma KeptStdlibEffects(cfg: Config, env: Env, m: Machine)
    requires cfg.keepFiles
    ensures RemovesOnlyTransients(env, Added(m, StdlibStage(cfg, env, m).m))
  {
  }

  lemma KeptLinkEffects(cfg: Config, env: Env, m: Machine)
    requires cfg.keepFiles
    ensures RemovesOnlyTransients(env, Added(m, LinkStage(cfg, env, m).m))
  {
  }

  // ---------------------------------------------------------------------------
  // The driver as a stateful object
  // ---------------------------------------------------------------------------

  function AsStage(done: bool, status: int, m: Machine): Stage {
    if done then Done(status, m) else Next(m)
  }

  /** The state compile_mika works on: the disk, the effects so far, and
      ctx->output_file. */
  class Orchestrator {
    var files: set<string>
    var log: seq<Effect>
    var outputFile: Option<string>

    constructor(disk: set<string>)
      ensures files == disk && log == [] && outputFile == None
    {
      files := disk;
      log := [];
      outputFile := None;
    }

    function Snapshot(): Machine
      reads this
    {
      Machine(files, log, outputFile)
    }

    /** execute_command. */
    method ExecuteCommand(env: Env, cmd: string) returns (status: int)
      modifies this
      ensures Outcome(status, Snapshot()) == RunCommand(env, old(Snapshot()), cmd)
    {
      var e := env.run(cmd, files);
      files := files + e.created;
      log := log + [Command(cmd)];
      status := e.status;
    }

    /** remove. */
    method RemoveFile(path: string)
      modifies this
      ensures Snapshot() == Remove(old(Snapshot()), path)
    {
      files := files - {path};
      log := log + [Delete(path)];
    }

    /** cleanup_files, with file_exists as membership. */
    method CleanupFiles(c: Option<string>, o: Option<string>, keep: bool)
      modifies this
      ensures Snapshot() == Cleanup(old(Snapshot()), c, o, keep)
    {
      if !keep {
        if c.Some? && c.value in files {
          RemoveFile(c.value);
        }
        if o.Some? && o.value in files {
          RemoveFile(o.value);
        }
      }
    }

    /** create_temp_stdlib: the temporary source is written, or None. */
    method CreateTempStdlib(env: Env) returns (temp: Option<string>)
      modifies this
      ensures temp == (if env.tempStdlib.Some? then Some(TempStdlibPath(env.tempStdlib.value)) else None)
      ensures temp.None? ==> Snapshot() == old(Snapshot())
      ensures temp.Some? ==>
        Snapshot() == old(Snapshot()).(files := old(files) + {temp.value}, log := old(log) + [CreateTemp(temp.value)])
    {
      if env.tempStdlib.None? {
        return None;
      }
      var t := TempStdlibPath(env.tempStdlib.value);
      files := files + {t};
      log := log + [CreateTemp(t)];
      temp := Some(t);
    }

    /** Stage 1 of compile_mika. */
    method Translate(cfg: Config, env: Env) returns (done: bool, status: int)
      modifies this
      ensures AsStage(done, status, Snapshot()) == TranslateStage(cfg, env, old(Snapshot()))
    {
      var result := ExecuteCommand(env, TranslateCommand(cfg.input, cfg.verbose));
      if result != 0 {
        return true, 1;
      }
      if CPath(cfg.input) !in files {
        return true, 1;
      }
      return false, 0;
    }

    /** Stage 2 of compile_mika, with the compile-only exit. */
    method CompileObject(cfg: Config, env: Env) returns (done: bool, status: int)
      modifies this
      ensures AsStage(done, status, Snapshot()) == ObjectStage(cfg, env, old(Snapshot()))
    {
      var c, o := CPath(cfg.input), OPath(cfg.input);
      var result := ExecuteCommand(env, CompileCommand(c, o, cfg.debug));
      if result != 0 {
        CleanupFiles(Some(c), None, cfg.keepFiles);
        return true, 1;
      }
      if o !in files {
        CleanupFiles(Some(c), None, cfg.keepFiles);
        return true, 1;
      }
      if cfg.compileOnly {
        if !cfg.keepFiles {
          RemoveFile(c);
        }
        return true, 0;
      }
      return false, 0;
    }

    /** Stage 3 of compile_mika: resolve and compile the runtime library. */
    method CompileStdlib(cfg: Config, env: Env) returns (done: bool, status: int)
      modifies this
      ensures AsStage(done, status, Snapshot()) == StdlibStage(cfg, env, old(Snapshot()))
    {
      var c, o := CPath(cfg.input), OPath(cfg.input);
      var lib: string;
      var temp: Option<string> := None;
      if InstalledStdlib in files {
        lib := InstalledStdlib;
      } else {
        temp := CreateTempStdlib(env);
        if temp.None? {
          CleanupFiles(Some(c), Some(o), cfg.keepFiles);
          return true, 1;
        }
        lib := temp.value;
      }
      ghost var before := Snapshot();
      var result := ExecuteCommand(env, LibCommand(lib));
      if result != 0 {
        CleanupFiles(Some(c), Some(o), cfg.keepFiles);
        if temp.Some? {
          RemoveFile(temp.value);
        }
        assert AsStage(true, 1, Snapshot()) == LibStage(cfg, env, before, lib, temp);
        return true, 1;
      }
      if temp.Some? {
        RemoveFile(temp.value);
      }
      assert AsStage(false, 0, Snapshot()) == LibStage(cfg, env, before, lib, temp);
      return false, 0;
    }

    /** Stage 4 of compile_mika: executable name, link, final cleanup. */
    method Link(cfg: Config, env: Env) returns (status: int)
      modifies this
      ensures Outcome(status, Snapshot()) == LinkStage(cfg, env, old(Snapshot()))
    {
      var c, o := CPath(cfg.input), OPath(cfg.input);
      if outputFile.None? {
        if !env.allocOk {
          CleanupFiles(Some(c), Some(o), cfg.keepFiles);
          RemoveFile(StdlibObject);
          return 1;
        }
        outputFile := Some(DefaultExecutable(cfg.input));
      }
      var result := ExecuteCommand(env, LinkCommand(o, outputFile.value, cfg.debug));
      if result != 0 {
        CleanupFiles(Some(c), Some(o), cfg.keepFiles);
        RemoveFile(StdlibObject);
        return 1;
      }
      RemoveFile(StdlibObject);
      CleanupFiles(Some(c), Some(o), cfg.keepFiles);
      return 0;
    }

    /** compile_mika. */
    method CompileMika(cfg: Config, env: Env) returns (status: int)
      modifies this
      ensures Outcome(status, Snapshot()) == Compile(cfg, env, old(Snapshot()))
    {
      var done;
      done, status := Translate(cfg, env);
      if done {
        return;
      }
      done, status := CompileObject(cfg, env);
      if done {
        return;
      }
      done, status := CompileStdlib(cfg, env);
      if done {
        return;
      }
      status := Link(cfg, env);
    }

    /** main after option parsing: input validation, then compile_mika. */
    method Run(cfg: Config, env: Env) returns (status: int)
      modifies this
      ensures Outcome(status, Snapshot()) == Launch(cfg, env, old(Snapshot()))
    {
      outputFile := cfg.output;
      if cfg.input !in files {
        return 1;
      }
      if !HasMkExtension(cfg.input) {
        return 1;
      }
      status := CompileMika(cfg, env);
    }
  }
}
