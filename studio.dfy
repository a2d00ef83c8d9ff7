/**
 * The local backend (`Studio`): every operation launches the batch
 * launcher of a local installation once, hands it files in temporary
 * directories, classifies the lines it prints, and decides from the exit
 * code it reports whether the launch failed.
 */
module Studio {
  import opened Wrappers
  import opened Text
  import opened Paths
  import opened Connector
  import opened StudioLog
  import opened StudioArgs
  import opened StudioFiles

  /** One record handed to the logger: the text (stripped, as `log` does), the level and the source label. */
  datatype LogRecord = LogRecord(text: string, level: int, source: string)

  /**
   * The installation directory before normalisation: the argument when
   * given, else `RAPIDMINER_HOME` when set and non-empty, else the
   * working directory.
   */
  function ChosenHome(studioHome: Option<string>, env: Option<string>, cwd: string): string {
    if studioHome.Some? then studioHome.value
    else if env.Some? && env.value != "" then env.value
    else cwd
  }

  /** The installation directory: the chosen one with a separator appended unless it already ends with one. */
  function HomeDirectory(studioHome: Option<string>, env: Option<string>, cwd: string, isWindows: bool): (r: string)
    ensures EndsWith(r, Sep(isWindows))
    ensures var chosen := ChosenHome(studioHome, env, cwd);
      && (EndsWith(chosen, Sep(isWindows)) ==> r == chosen)
      && (!EndsWith(chosen, Sep(isWindows)) ==> r == chosen + Sep(isWindows))
  {
    var chosen := ChosenHome(studioHome, env, cwd);
    if EndsWith(chosen, Sep(isWindows)) then chosen
    else
      var r := chosen + Sep(isWindows);
      assert r[|r| - 1..] == Sep(isWindows);
      r
  }

  /** The record logged for a line with the given scan: its text stripped, under source `studio`. */
  function RecordOf(scan: LineScan): LogRecord {
    LogRecord(Strip(scan.text), scan.level, "studio")
  }

  /** The records logged for lines with the given scans, in order. */
  function RecordsOf(scans: seq<LineScan>): seq<LogRecord>
    decreases |scans|
  {
    if scans == [] then [] else RecordsOf(scans[..|scans| - 1]) + [RecordOf(scans[|scans| - 1])]
  }

  lemma RecordsOfSnoc(scans: seq<LineScan>, s: LineScan)
    ensures RecordsOf(scans + [s]) == RecordsOf(scans) + [RecordOf(s)]
  {
    assert (scans + [s])[..|scans|] == scans;
  }

  /** The set of the given names. */
  function Names(s: seq<string>): (r: set<string>)
    ensures forall x :: x in r <==> x in s
  {
    set x | x in s
  }

  /** The output arguments of `read_resource`: one file resource per output directory. */
  function OutputDirs(dirs: seq<string>): (r: seq<Input>)
    ensures |r| == |dirs| && forall k :: 0 <= k < |dirs| ==> r[k] == Res(File(dirs[k]))
  {
    seq(|dirs|, k requires 0 <= k < |dirs| => Res(File(dirs[k])))
  }

  /** The base names `write_resource` writes under: `input0` in each directory. */
  function InputZeroBases(dirs: seq<string>): (r: seq<string>)
    ensures |r| == |dirs|
  {
    seq(|dirs|, k requires 0 <= k < |dirs| => Join(dirs[k], "input0"))
  }

  /** The base names `run_process` writes its `n` inputs under: `input0`, `input1`, ... in one directory. */
  function StagedBases(dir: string, n: nat): (r: seq<string>)
    ensures |r| == n
  {
    seq(n, k requires 0 <= k < n => StagedBase(dir, k))
  }

  /** The files the objects are written to, each under its base name with the suffix of its form. */
  function WrittenFiles(objects: seq<Payload>, bases: seq<string>): seq<Input>
    requires |bases| == |objects|
  {
    seq(|objects|, k requires 0 <= k < |objects| => Res(File(bases[k] + SuffixOf(WrittenAs(objects[k])))))
  }

  /** The files `run_process` hands over: none without inputs, else each input under its staged base name. */
  function StagedFiles(inputs: Option<seq<Payload>>, dir: string): seq<Input> {
    if inputs.Some? then WrittenFiles(inputs.value, StagedBases(dir, |inputs.value|)) else []
  }

  /** Whether every one of the objects can be written. */
  predicate AllWritable(objects: seq<Payload>)
    reads set k | 0 <= k < |objects| && objects[k].Frame? :: objects[k].df
  {
    forall k :: 0 <= k < |objects| ==> Writable(objects[k])
  }

  predicate AllValid(objects: seq<Payload>)
    reads set k | 0 <= k < |objects| && objects[k].Frame? :: objects[k].df
  {
    forall k :: 0 <= k < |objects| && objects[k].Frame? ==> objects[k].df.Valid()
  }

  /**
   * The reading loop of `__run_process_with_output_dir`: every file of
   * the listing that is not a metadata file is read, in order.
   */
  method ReadOutputs(outputs: seq<string>) returns (r: Result<seq<Reader>>)
    ensures r == ReadAll(WithoutMetadataFiles(outputs))
  {
    var result: seq<Reader> := [];
    for i := 0 to |outputs|
      invariant ReadAll(WithoutMetadataFiles(outputs[..i])) == Ok(result)
    {
      if !EndsWith(outputs[i], MD_SUFFIX) {
        ReadFileStep(outputs, i);
        var d := DeserializeFromFile(outputs[i]);
        if d.Err? {
          ReadFailStep(outputs, i);
          return Err(d.msg);
        }
        result := result + [d.value];
      } else {
        SkipMetadataStep(outputs, i);
      }
    }
    assert outputs[..|outputs|] == outputs;
    r := Ok(result);
  }

  /** A metadata file of the listing is skipped. */
  lemma SkipMetadataStep(outputs: seq<string>, i: int)
    requires 0 <= i < |outputs| && EndsWith(outputs[i], MD_SUFFIX)
    ensures WithoutMetadataFiles(outputs[..i + 1]) == WithoutMetadataFiles(outputs[..i])
  {
    WithoutMetadataFilesAppend(outputs[..i], [outputs[i]]);
    assert outputs[..i + 1] == outputs[..i] + [outputs[i]];
    assert WithoutMetadataFiles(outputs[..i]) + [] == WithoutMetadataFiles(outputs[..i]);
  }

  /** Any other file of the listing is read after the files before it. */
  lemma ReadFileStep(outputs: seq<string>, i: int)
    requires 0 <= i < |outputs| && !EndsWith(outputs[i], MD_SUFFIX)
    ensures var kept := WithoutMetadataFiles(outputs[..i + 1]);
      kept != [] && kept[..|kept| - 1] == WithoutMetadataFiles(outputs[..i]) && kept[|kept| - 1] == outputs[i]
  {
    WithoutMetadataFilesAppend(outputs[..i], [outputs[i]]);
    assert outputs[..i + 1] == outputs[..i] + [outputs[i]];
    var kept := WithoutMetadataFiles(outputs[..i + 1]);
    assert kept == WithoutMetadataFiles(outputs[..i]) + [outputs[i]];
  }

  /** A file whose extension has no reader ends the reading with its error, whatever follows it. */
  lemma ReadFailStep(outputs: seq<string>, i: int)
    requires 0 <= i < |outputs|
    requires ReadAll(WithoutMetadataFiles(outputs[..i + 1])).Err?
    ensures ReadAll(WithoutMetadataFiles(outputs)) == ReadAll(WithoutMetadataFiles(outputs[..i + 1]))
  {
    WithoutMetadataFilesAppend(outputs[..i + 1], outputs[i + 1..]);
    assert outputs[..i + 1] + outputs[i + 1..] == outputs;
    ReadAllErrPrefix(WithoutMetadataFiles(outputs[..i + 1]), WithoutMetadataFiles(outputs[i + 1..]));
  }

  /** The picking loop of `read_resource`: one file per output directory, in order. */
  method PickOutputs(listings: seq<seq<string>>) returns (r: Result<seq<string>>)
    ensures r == PickAll(listings)
  {
    var files: seq<string> := [];
    for k := 0 to |listings|
      invariant PickAll(listings[..k]) == Ok(files)
    {
      assert listings[..k + 1][..k] == listings[..k];
      var p := PickOutputFile(listings[k]);
      if p.Err? {
        PickAllErrPrefix(listings[..k + 1], listings[k + 1..]);
        assert listings[..k + 1] + listings[k + 1..] == listings;
        return Err(p.msg);
      }
      files := files + [p.value];
    }
    assert listings[..|listings|] == listings;
    r := Ok(files);
  }

  /**
   * The writing loop of `write_resource` and `run_process`: each object is
   * written under its base name; the first object that cannot be written
   * stops the loop.
   */
  method WriteInputs(objects: seq<Payload>, bases: seq<string>) returns (r: Result<seq<Input>>)
    requires AllValid(objects)
    requires |bases| == |objects|
    ensures r.Ok? <==> AllWritable(objects)
    ensures r.Ok? ==> r.value == WrittenFiles(objects, bases)
  {
    var files: seq<Input> := [];
    for k := 0 to |objects|
      invariant |files| == k
      invariant forall j :: 0 <= j < k ==> files[j] == Res(File(bases[j] + SuffixOf(WrittenAs(objects[j]))))
      invariant forall j :: 0 <= j < k ==> Writable(objects[j])
    {
      var f := SerializeToFile(objects[k], bases[k]);
      if f.Err? {
        return Err(f.msg);
      }
      files := files + [Res(File(f.value))];
    }
    r := Ok(files);
  }

  class Studio {
    /** Whether the platform is Windows (`platform.system()`). */
    const isWindows: bool
    /** The installation directory, ending in a separator. */
    const studioHome: string
    /** Whether launcher output goes to a caller's stream instead of the logger. */
    const rmStdout: bool
    const password: Option<string>
    /** The interpreter handed to the backend, when its Python binary is overridden. */
    const pythonBinary: Option<string>
    /** The Java class the launcher script starts. */
    const launcher: string

    /** The exit code last reported on each thread. */
    var lastExitCode: map<int, int>
    /** The first error line last reported on each thread. */
    var lastExceptionMsg: map<int, string>
    /** What was handed to the logger. */
    var log: seq<LogRecord>
    /** What was written to the caller's stream. */
    var forwarded: seq<string>
    /** The temporary directories that exist. */
    var tempDirs: set<string>
    /** The command lines launched, in order. */
    var launches: seq<seq<string>>

    /**
     * `Studio(studio_home, **kwargs)`: `env` is the value of
     * `RAPIDMINER_HOME`, `cwd` the working directory and `executable`
     * the running interpreter.
     */
    constructor (studioHome: Option<string>, env: Option<string>, cwd: string, isWindows: bool,
                 rmStdout: bool, password: Option<string>, overridePythonBinary: bool, executable: string)
      ensures this.studioHome == HomeDirectory(studioHome, env, cwd, isWindows)
      ensures this.isWindows == isWindows && this.rmStdout == rmStdout && this.password == password
      ensures this.pythonBinary == if overridePythonBinary then Some(executable) else None
      ensures lastExitCode == map[] && lastExceptionMsg == map[]
      ensures launcher == LAUNCHER_CLASS
      ensures log == [] && forwarded == [] && tempDirs == {} && launches == []
    {
      launcher := LAUNCHER_CLASS;
      this.isWindows := isWindows;
      this.studioHome := HomeDirectory(studioHome, env, cwd, isWindows);
      this.rmStdout := rmStdout;
      this.password := password;
      this.pythonBinary := if overridePythonBinary then Some(executable) else None;
      lastExitCode := map[];
      lastExceptionMsg := map[];
      log := [];
      forwarded := [];
      tempDirs := {};
      launches := [];
    }

    /** The slots of thread `tid`. */
    function Slot(tid: int): Slots
      reads this`lastExitCode, this`lastExceptionMsg
    {
      Slots(if tid in lastExitCode then Some(lastExitCode[tid]) else None,
            if tid in lastExceptionMsg then Some(lastExceptionMsg[tid]) else None)
    }

    /**
     * What one launch whose launcher printed `lines` does to the printer
     * state: thread `tid`'s slots end as the replay of this launch alone,
     * the lines are logged or forwarded, and the slots of every other
     * thread stay as they were.
     */
    twostate predicate LaunchEffects(tid: int, lines: seq<string>)
      reads this`lastExitCode, this`lastExceptionMsg, this`log, this`forwarded
    {
      && Slot(tid) == (if rmStdout then Slots(None, None) else SlotsOf(Scans(lines)))
      && (rmStdout ==> forwarded == old(forwarded) + lines && log == old(log))
      && (!rmStdout ==> log == old(log) + RecordsOf(Scans(lines)) && forwarded == old(forwarded))
      && lastExitCode - {tid} == old(lastExitCode) - {tid}
      && lastExceptionMsg - {tid} == old(lastExceptionMsg) - {tid}
    }

    /** Nothing was launched: no slot, no log record and no forwarded line changed. */
    twostate predicate PrinterUnchanged()
      reads this`lastExitCode, this`lastExceptionMsg, this`log, this`forwarded
    {
      && lastExitCode == old(lastExitCode) && lastExceptionMsg == old(lastExceptionMsg)
      && log == old(log) && forwarded == old(forwarded)
    }

    /** The command line for a request. */
    function Args(req: LaunchRequest, render: Resource -> string, tempName: string): seq<string> {
      LauncherArgs(ScriptPath(studioHome, isWindows), launcher, isWindows, password, pythonBinary, req, render, tempName)
    }

    /** The verdict on a launch whose launcher printed `lines`. */
    function LaunchOutcome(lines: seq<string>): Outcome {
      Decision(if rmStdout then Slots(None, None) else SlotsOf(Scans(lines)))
    }

    /** The result of running a process: the launch error, else the readers of the sorted non-metadata outputs. */
    function ProcessResult(lines: seq<string>, globbed: seq<string>): Result<seq<Reader>> {
      var outcome := LaunchOutcome(lines);
      if outcome.Fail? then Err(outcome.msg) else ReadAll(WithoutMetadataFiles(Sort(globbed)))
    }

    /**
     * `__extract_log_level`: the text and level of the line, recording
     * for thread `tid` only, and only what the line carries.
     */
    method ExtractLogLevel(msg: string, tid: int) returns (text: string, level: int)
      modifies this`lastExitCode, this`lastExceptionMsg
      ensures text == Scan(msg).text && level == Scan(msg).level
      ensures lastExitCode == if Scan(msg).exitCode.Some? then old(lastExitCode)[tid := Scan(msg).exitCode.value] else old(lastExitCode)
      ensures lastExceptionMsg == if Scan(msg).errorLine.Some? then old(lastExceptionMsg)[tid := Scan(msg).errorLine.value] else old(lastExceptionMsg)
      ensures Slot(tid) == Advance(old(Slot(tid)), Scan(msg))
      ensures lastExitCode - {tid} == old(lastExitCode) - {tid}
      ensures lastExceptionMsg - {tid} == old(lastExceptionMsg) - {tid}
    {
      var s := Scan(msg);
      if s.errorLine.Some? {
        lastExceptionMsg := lastExceptionMsg[tid := s.errorLine.value];
      }
      if s.exitCode.Some? {
        lastExitCode := lastExitCode[tid := s.exitCode.value];
      }
      text, level := s.text, s.level;
    }

    /** One line through `__extract_log_level` and on to the logger, its text stripped. */
    method LogLine(msg: string, tid: int)
      modifies this`lastExitCode, this`lastExceptionMsg, this`log
      ensures log == old(log) + [RecordOf(Scan(msg))]
      ensures Slot(tid) == Advance(old(Slot(tid)), Scan(msg))
      ensures lastExitCode - {tid} == old(lastExitCode) - {tid}
      ensures lastExceptionMsg - {tid} == old(lastExceptionMsg) - {tid}
    {
      var text, level := ExtractLogLevel(msg, tid);
      log := log + [LogRecord(Strip(text), level, "studio")];
    }

    /** The printer loop when output goes to the caller's stream: every line as it is. */
    method ForwardLines(lines: seq<string>)
      modifies this`forwarded
      ensures forwarded == old(forwarded) + lines
    {
      for i := 0 to |lines|
        invariant forwarded == old(forwarded) + lines[..i]
      {
        assert lines[..i + 1] == lines[..i] + [lines[i]];
        forwarded := forwarded + [lines[i]];
      }
      assert lines[..|lines|] == lines;
    }

    /** The printer loop when output goes to the logger: every line classified, recorded and logged. */
    method LogLines(lines: seq<string>, tid: int)
      modifies this`lastExitCode, this`lastExceptionMsg, this`log
      ensures log == old(log) + RecordsOf(Scans(lines))
      ensures Slot(tid) == Replay(old(Slot(tid)), Scans(lines))
      ensures lastExitCode - {tid} == old(lastExitCode) - {tid}
      ensures lastExceptionMsg - {tid} == old(lastExceptionMsg) - {tid}
    {
      ghost var init := Slot(tid);
      for i := 0 to |lines|
        invariant log == old(log) + RecordsOf(Scans(lines[..i]))
        invariant Slot(tid) == Replay(init, Scans(lines[..i]))
        invariant lastExitCode - {tid} == old(lastExitCode) - {tid}
        invariant lastExceptionMsg - {tid} == old(lastExceptionMsg) - {tid}
      {
        ghost var done := Scans(lines[..i]);
        ghost var s := Scan(lines[i]);
        assert lines[..i + 1][..i] == lines[..i];
        assert Scans(lines[..i + 1]) == done + [s];
        LogLine(lines[i], tid);
        RecordsOfSnoc(done, s);
        ReplaySnoc(init, done, s);
      }
      assert lines[..|lines|] == lines;
    }

    /**
     * `__print_to_console`: each line goes to the caller's stream as it
     * is, or is classified and logged with source `studio`.
     */
    method PrintToConsole(lines: seq<string>, tid: int)
      modifies this`lastExitCode, this`lastExceptionMsg, this`log, this`forwarded
      ensures rmStdout ==> forwarded == old(forwarded) + lines && log == old(log)
      ensures rmStdout ==> lastExitCode == old(lastExitCode) && lastExceptionMsg == old(lastExceptionMsg)
      ensures !rmStdout ==> forwarded == old(forwarded) && log == old(log) + RecordsOf(Scans(lines))
      ensures !rmStdout ==> Slot(tid) == Replay(old(Slot(tid)), Scans(lines))
      ensures lastExitCode - {tid} == old(lastExitCode) - {tid}
      ensures lastExceptionMsg - {tid} == old(lastExceptionMsg) - {tid}
    {
      if rmStdout {
        ForwardLines(lines);
      } else {
        LogLines(lines, tid);
      }
    }

    /** Appends one argument per value, in order. */
    method AppendEach(params: seq<string>, prefix: string, values: seq<string>) returns (r: seq<string>)
      ensures r == params + EachArg(isWindows, prefix, values)
    {
      r := params;
      for k := 0 to |values|
        invariant r == params + EachArg(isWindows, prefix, values[..k])
      {
        assert EachArg(isWindows, prefix, values[..k + 1]) == EachArg(isWindows, prefix, values[..k]) + [Quote(isWindows, prefix, values[k])];
        r := r + [Quote(isWindows, prefix, values[k])];
      }
      assert values[..|values|] == values;
    }

    /** Appends the argument of an optional setting. */
    method AppendOptional(params: seq<string>, prefix: string, v: Option<string>) returns (r: seq<string>)
      ensures r == params + OptionalArg(isWindows, prefix, v)
    {
      r := params;
      if v.Some? {
        r := r + [Quote(isWindows, prefix, v.value)];
      }
    }

    /** The arguments for the launcher class, the process, the inputs and the outputs. */
    method FrontParams(launcher: string, req: LaunchRequest, render: Resource -> string) returns (params: seq<string>)
      ensures params == FrontArgs(isWindows, launcher, req, render)
    {
      params := [Quote(isWindows, "-C", launcher)];
      params := AppendOptional(params, "-P", ProcessText(render, req.process));
      params := AppendEach(params, "-I", Rendered(render, req.inputs));
      params := AppendEach(params, "-O", Rendered(render, req.outputs));
    }

    /** The arguments for the output directory, operator, password, macros, temporary directory and Python binary. */
    method BackParams(req: LaunchRequest, render: Resource -> string, tempName: string) returns (params: seq<string>)
      ensures params == BackArgs(isWindows, password, pythonBinary, req, render, tempName)
    {
      params := AppendOptional([], "-D", req.outputDir);
      assert params == OptionalArg(isWindows, "-D", req.outputDir);
      params := AppendOptional(params, "-N", req.operator);
      params := AppendOptional(params, "-X", password);
      params := AppendEach(params, "-M", MacroTexts(req.macros));
      params := AppendOptional(params, "-T", TempDirFor(render, req.inputs, tempName));
      params := AppendOptional(params, "-B", pythonBinary);
    }

    /** The argument list `__run_rapidminer` builds. */
    method BuildParams(req: LaunchRequest, render: Resource -> string, tempName: string) returns (params: seq<string>)
      ensures params == Args(req, render, tempName)
    {
      var front := FrontParams(launcher, req, render);
      var back := BackParams(req, render, tempName);
      params := [ScriptPath(studioHome, isWindows)] + front + back;
    }

    /**
     * `__run_rapidminer`: clears the slots of thread `tid`, launches the
     * command line, lets the printer process the launcher's `lines`, and
     * fails exactly when the slots then hold a nonzero exit code. The
     * temporary directory of the launch, made only when some input needs
     * it (under the fresh name `tempName`), is removed again.
     */
    method RunRapidMiner(req: LaunchRequest, render: Resource -> string, tempName: string, tid: int, lines: seq<string>)
      returns (params: seq<string>, r: Outcome)
      requires tempName !in tempDirs
      modifies this`lastExitCode, this`lastExceptionMsg, this`log, this`forwarded, this`tempDirs, this`launches
      ensures params == Args(req, render, tempName)
      ensures launches == old(launches) + [params]
      ensures tempDirs == old(tempDirs)
      ensures r == LaunchOutcome(lines)
      ensures LaunchEffects(tid, lines)
    {
      params := BuildParams(req, render, tempName);
      var made := if TempDirFor(render, req.inputs, tempName).Some? then {tempName} else {};
      r := Launch(params, made, tid, lines);
    }

    /**
     * The launch itself: the temporary directories `made` are created,
     * the slots of thread `tid` are cleared, the command line is started,
     * the printer processes the launcher's `lines`, the slots then decide,
     * and the directories are removed again.
     */
    method Launch(params: seq<string>, made: set<string>, tid: int, lines: seq<string>) returns (r: Outcome)
      requires made !! tempDirs
      modifies this`lastExitCode, this`lastExceptionMsg, this`log, this`forwarded, this`tempDirs, this`launches
      ensures launches == old(launches) + [params]
      ensures tempDirs == old(tempDirs)
      ensures r == LaunchOutcome(lines)
      ensures Slot(tid) == if rmStdout then Slots(None, None) else SlotsOf(Scans(lines))
      ensures !rmStdout ==> log == old(log) + RecordsOf(Scans(lines)) && forwarded == old(forwarded)
      ensures rmStdout ==> forwarded == old(forwarded) + lines && log == old(log)
      ensures lastExitCode - {tid} == old(lastExitCode) - {tid}
      ensures lastExceptionMsg - {tid} == old(lastExceptionMsg) - {tid}
    {
      lastExitCode := lastExitCode - {tid};
      lastExceptionMsg := lastExceptionMsg - {tid};
      assert Slot(tid) == Slots(None, None);
      tempDirs := tempDirs + made;
      launches := launches + [params];
      PrintToConsole(lines, tid);
      r := Decision(Slot(tid));
      tempDirs := tempDirs - made;
    }

    /**
     * `__run_process_with_output_dir`: runs the process, then reads the
     * files the backend left in the output directory (`globbed`, as
     * listed) in sorted order, skipping the metadata files.
     */
    method RunProcessWithOutputDir(process: Input, inputs: seq<Input>, operator: Option<string>, outputDir: string,
                                   macros: seq<(string, string)>, globbed: seq<string>,
                                   render: Resource -> string, tempName: string, tid: int, lines: seq<string>)
      returns (r: Result<seq<Reader>>)
      requires tempName !in tempDirs
      modifies this`lastExitCode, this`lastExceptionMsg, this`log, this`forwarded, this`tempDirs, this`launches
      ensures launches == old(launches) + [Args(LaunchRequest(Some(process), inputs, [], Some(outputDir), operator, macros), render, tempName)]
      ensures tempDirs == old(tempDirs)
      ensures r == ProcessResult(lines, globbed)
      ensures LaunchEffects(tid, lines)
    {
      var req := LaunchRequest(Some(process), inputs, [], Some(outputDir), operator, macros);
      var _, run := RunRapidMiner(req, render, tempName, tid, lines);
      if run.Fail? {
        return Err(run.msg);
      }
      r := ReadOutputs(Sort(globbed));
    }

    /**
     * `read_resource`: reads each input into its own fresh output
     * directory (`dirNames`); from each the only CSV file is taken, or else
     * the first file of its listing (`listings`), and read back. All
     * directories are removed whatever happens.
     */
    method ReadResource(inputs: seq<Input>, dirNames: seq<string>, listings: seq<seq<string>>,
                        render: Resource -> string, tempName: string, tid: int, lines: seq<string>)
      returns (r: Result<seq<Reader>>)
      requires |dirNames| == |inputs| && |listings| == |inputs|
      requires forall k :: 0 <= k < |dirNames| ==> dirNames[k] !in tempDirs && dirNames[k] != tempName
      requires tempName !in tempDirs
      modifies this`lastExitCode, this`lastExceptionMsg, this`log, this`forwarded, this`tempDirs, this`launches
      ensures launches == old(launches) + [Args(LaunchRequest(None, inputs, OutputDirs(dirNames), None, None, []), render, tempName)]
      ensures tempDirs == old(tempDirs)
      ensures LaunchOutcome(lines).Fail? ==> r == Err(LaunchOutcome(lines).msg)
      ensures LaunchOutcome(lines).Pass? && PickAll(listings).Err? ==> r == Err(PickAll(listings).msg)
      ensures LaunchOutcome(lines).Pass? && PickAll(listings).Ok? ==> r == ReadAll(PickAll(listings).value)
      ensures LaunchEffects(tid, lines)
    {
      var made := Names(dirNames);
      tempDirs := tempDirs + made;
      var req := LaunchRequest(None, inputs, OutputDirs(dirNames), None, None, []);
      var _, run := RunRapidMiner(req, render, tempName, tid, lines);
      if run.Fail? {
        r := Err(run.msg);
      } else {
        var picked := PickOutputs(listings);
        if picked.Err? {
          r := Err(picked.msg);
        } else {
          r := ReadAll(picked.value);
        }
      }
      tempDirs := tempDirs - made;
      assert made !! old(tempDirs);
    }

    /**
     * `write_resource`: with as many objects as outputs, writes each
     * object as `input0` into its own fresh directory (`dirNames`) and
     * launches with those files as inputs; an object that cannot be written
     * stops before the launch. All directories are removed whatever
     * happens; with a count mismatch none is made at all.
     */
    method WriteResource(objects: seq<Payload>, outputs: seq<Input>, dirNames: seq<string>,
                         render: Resource -> string, tempName: string, tid: int, lines: seq<string>)
      returns (r: Outcome)
      requires AllValid(objects)
      requires |dirNames| == |objects|
      requires forall k :: 0 <= k < |dirNames| ==> dirNames[k] !in tempDirs && dirNames[k] != tempName
      requires tempName !in tempDirs
      modifies this`lastExitCode, this`lastExceptionMsg, this`log, this`forwarded, this`tempDirs, this`launches
      ensures tempDirs == old(tempDirs)
      ensures |objects| != |outputs| ==> r == Fail("Object and output must contain the same number of values.") && launches == old(launches)
      ensures |objects| == |outputs| && !AllWritable(objects) ==> r.Fail? && launches == old(launches)
      ensures |objects| == |outputs| && AllWritable(objects) ==>
        && launches == old(launches) + [Args(LaunchRequest(None, WrittenFiles(objects, InputZeroBases(dirNames)), outputs, None, None, []), render, tempName)]
        && r == LaunchOutcome(lines)
        && LaunchEffects(tid, lines)
      ensures |objects| != |outputs| || !AllWritable(objects) ==> PrinterUnchanged()
    {
      if |objects| != |outputs| {
        return Fail("Object and output must contain the same number of values.");
      }
      var made := Names(dirNames);
      tempDirs := tempDirs + made;
      var files := WriteInputs(objects, InputZeroBases(dirNames));
      if files.Err? {
        r := Fail(files.msg);
      } else {
        var _, run := RunRapidMiner(LaunchRequest(None, files.value, outputs, None, None, []), render, tempName, tid, lines);
        r := run;
      }
      tempDirs := tempDirs - made;
      assert made !! old(tempDirs);
    }

    /** The staging part of `run_process`: a fresh input directory and the inputs written into it, when there are inputs. */
    method StageInputs(inputs: Option<seq<Payload>>, inputDir: string) returns (staged: Result<seq<Input>>)
      requires inputs.Some? ==> AllValid(inputs.value)
      modifies this`tempDirs
      ensures tempDirs == old(tempDirs) + (if inputs.Some? then {inputDir} else {})
      ensures staged.Ok? <==> inputs.None? || AllWritable(inputs.value)
      ensures staged.Ok? ==> staged.value == StagedFiles(inputs, inputDir)
    {
      if inputs.None? {
        return Ok([]);
      }
      tempDirs := tempDirs + {inputDir};
      staged := WriteInputs(inputs.value, StagedBases(inputDir, |inputs.value|));
    }

    /**
     * `run_process`: writes the inputs, if any, as `input0`, `input1`, ...
     * into a fresh input directory, then runs the process with a fresh
     * output directory and reads its results. Both directories are
     * removed whatever happens.
     */
    method RunProcess(process: Input, inputs: Option<seq<Payload>>, operator: Option<string>, macros: seq<(string, string)>,
                      outputDir: string, inputDir: string, globbed: seq<string>,
                      render: Resource -> string, tempName: string, tid: int, lines: seq<string>)
      returns (r: Result<seq<Reader>>)
      requires inputs.Some? ==> AllValid(inputs.value)
      requires outputDir !in tempDirs && inputDir !in tempDirs && tempName !in tempDirs
      requires outputDir != inputDir && tempName != outputDir && tempName != inputDir
      modifies this`lastExitCode, this`lastExceptionMsg, this`log, this`forwarded, this`tempDirs, this`launches
      ensures tempDirs == old(tempDirs)
      ensures inputs.Some? && !AllWritable(inputs.value) ==> r.Err? && launches == old(launches)
      ensures inputs.None? || AllWritable(inputs.value) ==>
        && launches == old(launches) + [Args(LaunchRequest(Some(process), StagedFiles(inputs, inputDir), [], Some(outputDir), operator, macros), render, tempName)]
        && r == ProcessResult(lines, globbed)
        && LaunchEffects(tid, lines)
      ensures inputs.Some? && !AllWritable(inputs.value) ==> PrinterUnchanged()
    {
      var made := {outputDir} + (if inputs.Some? then {inputDir} else {});
      tempDirs := tempDirs + {outputDir};
      r := StageAndRun(process, inputs, operator, macros, outputDir, inputDir, globbed, render, tempName, tid, lines);
      tempDirs := tempDirs - made;
      assert made !! old(tempDirs);
    }

    /** The body of `run_process` once the output directory exists: staging, then the run unless staging fails. */
    method StageAndRun(process: Input, inputs: Option<seq<Payload>>, operator: Option<string>, macros: seq<(string, string)>,
                       outputDir: string, inputDir: string, globbed: seq<string>,
                       render: Resource -> string, tempName: string, tid: int, lines: seq<string>)
      returns (r: Result<seq<Reader>>)
      requires inputs.Some? ==> AllValid(inputs.value)
      requires inputDir !in tempDirs && tempName !in tempDirs && tempName != inputDir
      modifies this`lastExitCode, this`lastExceptionMsg, this`log, this`forwarded, this`tempDirs, this`launches
      ensures tempDirs == old(tempDirs) + (if inputs.Some? then {inputDir} else {})
      ensures inputs.Some? && !AllWritable(inputs.value) ==> r.Err? && launches == old(launches) && PrinterUnchanged()
      ensures inputs.None? || AllWritable(inputs.value) ==>
        && launches == old(launches) + [Args(LaunchRequest(Some(process), StagedFiles(inputs, inputDir), [], Some(outputDir), operator, macros), render, tempName)]
        && r == ProcessResult(lines, globbed)
        && LaunchEffects(tid, lines)
    {
      var staged := StageInputs(inputs, inputDir);
      if staged.Err? {
        r := Err(staged.msg);
      } else {
        r := RunProcessWithOutputDir(process, staged.value, operator, outputDir, macros, globbed, render, tempName, tid, lines);
      }
    }
  }
}
