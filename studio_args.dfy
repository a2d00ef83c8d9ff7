/**
 * The command line of one batch launch of the local backend: the script
 * under the installation directory, then one quoted `-<flag><value>`
 * argument per piece of the request, in a fixed order of flags.
 */
module StudioArgs {
  import opened Wrappers
  import opened Text

  /**
   * A resource of the `resources` module: a repository location or a
   * regular file. How a resource is written on the command line (its
   * `to_string`) is not part of this model; it is the `render` parameter.
   */
  datatype Resource = RepositoryLocation(name: string) | File(path: string)

  /** What callers pass for a process, an input or an output: a bare path or a resource. */
  datatype Input = Path(s: string) | Res(r: Resource)

  /** A bare path names a repository location. */
  function AsResource(i: Input): (r: Resource)
    ensures i.Res? ==> r == i.r
    ensures i.Path? ==> r == RepositoryLocation(i.s)
  {
    match i
    case Path(s) => RepositoryLocation(s)
    case Res(r) => r
  }

  /** The path separator of the platform. */
  function Sep(isWindows: bool): string {
    if isWindows then "\\" else "/"
  }

  /** `__quote_params`: the prefix and the value, in double quotes except on Windows. */
  function Quote(isWindows: bool, prefix: string, param: string): (r: string)
    ensures |r| == |prefix| + |param| + (if isWindows then 0 else 2)
  {
    if isWindows then prefix + param else "\"" + prefix + param + "\""
  }

  /** The value carried by a two-character-prefixed argument. */
  function Unquote(isWindows: bool, arg: string): string
    requires |arg| >= (if isWindows then 2 else 4)
  {
    if isWindows then arg[2..] else arg[3..|arg| - 1]
  }

  /** The flag letter of an argument (the character after `-`), or a space for one too short to have it. */
  function FlagOf(isWindows: bool, arg: string): char {
    var at := if isWindows then 1 else 2;
    if at < |arg| then arg[at] else ' '
  }

  /** Quoting is undone by `Unquote`, and the flag letter is the prefix's second character. */
  lemma QuoteRoundTrip(isWindows: bool, prefix: string, param: string)
    requires |prefix| == 2
    ensures Unquote(isWindows, Quote(isWindows, prefix, param)) == param
    ensures FlagOf(isWindows, Quote(isWindows, prefix, param)) == prefix[1]
  {
    var q := Quote(isWindows, prefix, param);
    if isWindows {
      assert q[2..] == param;
      assert q[1] == prefix[1];
    } else {
      assert q[3..|q| - 1] == param;
      assert q[2] == prefix[1];
    }
  }

  /** `__get_script_extension`. */
  function ScriptExtension(isWindows: bool): string {
    if isWindows then ".bat" else ".sh"
  }

  /** The batch script under the installation directory. */
  function ScriptPath(home: string, isWindows: bool): string {
    home + "scripts" + Sep(isWindows) + "rapidminer-batch" + ScriptExtension(isWindows)
  }

  const LAUNCHER_CLASS := "rmx_python_scripting:com.rapidminer.extension.pythonscripting.launcher.ExtendedCmdLauncher"
  const TEMP_DIR_SUFFIX := ".fo"

  /** `__needs_temp_dir`: resources are judged by their rendering, bare paths as they are. */
  function NeedsTempDir(render: Resource -> string, i: Input): bool {
    match i
    case Res(r) => EndsWith(render(r), TEMP_DIR_SUFFIX)
    case Path(s) => EndsWith(s, TEMP_DIR_SUFFIX)
  }

  /** Whether any input needs a temporary directory on the backend side. */
  function AnyNeedsTempDir(render: Resource -> string, inputs: seq<Input>): (b: bool)
    ensures b <==> exists k :: 0 <= k < |inputs| && NeedsTempDir(render, inputs[k])
  {
    if inputs == [] then false
    else NeedsTempDir(render, inputs[0]) || AnyNeedsTempDir(render, inputs[1..])
  }

  /**
   * What one launch is asked to do. Macros are the key and value texts
   * (`str(key)`, `str(value)`) in the order the dictionary yields them.
   */
  datatype LaunchRequest = LaunchRequest(
    process: Option<Input>,
    inputs: seq<Input>,
    outputs: seq<Input>,
    outputDir: Option<string>,
    operator: Option<string>,
    macros: seq<(string, string)>)

  /** The argument for an optional setting: one when it is set, none otherwise. */
  function OptionalArg(isWindows: bool, prefix: string, v: Option<string>): seq<string> {
    if v.Some? then [Quote(isWindows, prefix, v.value)] else []
  }

  /** One argument per value, in order. */
  function EachArg(isWindows: bool, prefix: string, values: seq<string>): (r: seq<string>)
    ensures |r| == |values| && forall k :: 0 <= k < |values| ==> r[k] == Quote(isWindows, prefix, values[k])
  {
    seq(|values|, k requires 0 <= k < |values| => Quote(isWindows, prefix, values[k]))
  }

  /** The renderings of the given inputs, each taken as a resource. */
  function Rendered(render: Resource -> string, inputs: seq<Input>): (r: seq<string>)
    ensures |r| == |inputs| && forall k :: 0 <= k < |inputs| ==> r[k] == render(AsResource(inputs[k]))
  {
    seq(|inputs|, k requires 0 <= k < |inputs| => render(AsResource(inputs[k])))
  }

  /** The `key=value` texts of the macros. */
  function MacroTexts(macros: seq<(string, string)>): (r: seq<string>)
    ensures |r| == |macros| && forall k :: 0 <= k < |macros| ==> r[k] == macros[k].0 + "=" + macros[k].1
  {
    seq(|macros|, k requires 0 <= k < |macros| => macros[k].0 + "=" + macros[k].1)
  }

  /** The temporary directory of a launch: the fresh name, when some input needs one. */
  function TempDirFor(render: Resource -> string, inputs: seq<Input>, tempName: string): Option<string> {
    if AnyNeedsTempDir(render, inputs) then Some(tempName) else None
  }

  /** The rendering of the process, when there is one. */
  function ProcessText(render: Resource -> string, process: Option<Input>): Option<string> {
    if process.Some? then Some(render(AsResource(process.value))) else None
  }

  /** The first flagged arguments: the launcher class, the process, the inputs and the outputs. */
  function FrontArgs(isWindows: bool, launcher: string, req: LaunchRequest, render: Resource -> string): seq<string> {
    [Quote(isWindows, "-C", launcher)]
    + OptionalArg(isWindows, "-P", ProcessText(render, req.process))
    + EachArg(isWindows, "-I", Rendered(render, req.inputs))
    + EachArg(isWindows, "-O", Rendered(render, req.outputs))
  }

  /** The remaining flagged arguments: output directory, operator, password, macros, temporary directory, Python binary. */
  function BackArgs(isWindows: bool, password: Option<string>, pythonBinary: Option<string>,
                    req: LaunchRequest, render: Resource -> string, tempName: string): seq<string> {
    OptionalArg(isWindows, "-D", req.outputDir)
    + OptionalArg(isWindows, "-N", req.operator)
    + OptionalArg(isWindows, "-X", password)
    + EachArg(isWindows, "-M", MacroTexts(req.macros))
    + OptionalArg(isWindows, "-T", TempDirFor(render, req.inputs, tempName))
    + OptionalArg(isWindows, "-B", pythonBinary)
  }

  /**
   * The full command line `__run_rapidminer` launches: the `script` (the
   * `ScriptPath` of the installation) and the `launcher` class (always
   * `LAUNCHER_CLASS`) come first. `pythonBinary` is the interpreter to
   * hand over, present only when the connector was asked to override the
   * backend's Python binary.
   */
  function LauncherArgs(script: string, launcher: string, isWindows: bool, password: Option<string>, pythonBinary: Option<string>,
                        req: LaunchRequest, render: Resource -> string, tempName: string): seq<string>
  {
    [script] + FrontArgs(isWindows, launcher, req, render) + BackArgs(isWindows, password, pythonBinary, req, render, tempName)
  }

  // ---------------------------------------------------------------------
  // The layout of the command line
  // ---------------------------------------------------------------------

  /** The flag letters of a sequence of arguments. */
  function Flags(isWindows: bool, args: seq<string>): (r: seq<char>)
    ensures |r| == |args| && forall k :: 0 <= k < |args| ==> r[k] == FlagOf(isWindows, args[k])
  {
    seq(|args|, k requires 0 <= k < |args| => FlagOf(isWindows, args[k]))
  }

  /** `n` copies of a flag letter. */
  function Rep(c: char, n: nat): (r: seq<char>)
    ensures |r| == n && forall k :: 0 <= k < n ==> r[k] == c
  {
    seq(n, _ => c)
  }

  function Count<T>(o: Option<T>): nat {
    if o.Some? then 1 else 0
  }

  lemma FlagsAppend(isWindows: bool, a: seq<string>, b: seq<string>)
    ensures Flags(isWindows, a + b) == Flags(isWindows, a) + Flags(isWindows, b)
  {
  }

  lemma FlagsEach(isWindows: bool, prefix: string, values: seq<string>)
    requires |prefix| == 2
    ensures Flags(isWindows, EachArg(isWindows, prefix, values)) == Rep(prefix[1], |values|)
  {
    forall k | 0 <= k < |values|
      ensures FlagOf(isWindows, EachArg(isWindows, prefix, values)[k]) == prefix[1]
    {
      QuoteRoundTrip(isWindows, prefix, values[k]);
    }
  }

  lemma FlagsOptional(isWindows: bool, prefix: string, v: Option<string>)
    requires |prefix| == 2
    ensures Flags(isWindows, OptionalArg(isWindows, prefix, v)) == Rep(prefix[1], Count(v))
  {
    if v.Some? {
      QuoteRoundTrip(isWindows, prefix, v.value);
    }
  }

  lemma {:induction false} FrontFlags(isWindows: bool, launcher: string, req: LaunchRequest, render: Resource -> string)
    ensures Flags(isWindows, FrontArgs(isWindows, launcher, req, render)) ==
      ['C'] + Rep('P', Count(req.process)) + Rep('I', |req.inputs|) + Rep('O', |req.outputs|)
  {
    var w := isWindows;
    var c := [Quote(w, "-C", launcher)];
    var p := OptionalArg(w, "-P", ProcessText(render, req.process));
    var i := EachArg(w, "-I", Rendered(render, req.inputs));
    var o := EachArg(w, "-O", Rendered(render, req.outputs));
    QuoteRoundTrip(w, "-C", launcher);
    FlagsOptional(w, "-P", ProcessText(render, req.process));
    FlagsEach(w, "-I", Rendered(render, req.inputs));
    FlagsEach(w, "-O", Rendered(render, req.outputs));
    FlagsAppend(w, c + p + i, o);
    FlagsAppend(w, c + p, i);
    FlagsAppend(w, c, p);
  }

  lemma {:induction false} BackFlags(isWindows: bool, password: Option<string>, pythonBinary: Option<string>,
                                     req: LaunchRequest, render: Resource -> string, tempName: string)
    ensures Flags(isWindows, BackArgs(isWindows, password, pythonBinary, req, render, tempName)) ==
      Rep('D', Count(req.outputDir)) + Rep('N', Count(req.operator)) + Rep('X', Count(password))
      + Rep('M', |req.macros|) + Rep('T', if AnyNeedsTempDir(render, req.inputs) then 1 else 0)
      + Rep('B', Count(pythonBinary))
  {
    var w := isWindows;
    var d := OptionalArg(w, "-D", req.outputDir);
    var n := OptionalArg(w, "-N", req.operator);
    var x := OptionalArg(w, "-X", password);
    var m := EachArg(w, "-M", MacroTexts(req.macros));
    var t := OptionalArg(w, "-T", TempDirFor(render, req.inputs, tempName));
    var b := OptionalArg(w, "-B", pythonBinary);
    FlagsOptional(w, "-D", req.outputDir);
    FlagsOptional(w, "-N", req.operator);
    FlagsOptional(w, "-X", password);
    FlagsEach(w, "-M", MacroTexts(req.macros));
    FlagsOptional(w, "-T", TempDirFor(render, req.inputs, tempName));
    FlagsOptional(w, "-B", pythonBinary);
    FlagsAppend(w, d + n + x + m + t, b);
    FlagsAppend(w, d + n + x + m, t);
    FlagsAppend(w, d + n + x, m);
    FlagsAppend(w, d + n, x);
    FlagsAppend(w, d, n);
  }

  /**
   * After the script, every argument carries a flag, and the flags come
   * in the order C, P, I, O, then D, N, X, M, T, B: one `-C`; a `-P`
   * exactly when there is a process; one `-I` per input and one `-O` per
   * output; `-D`, `-N`, `-X` exactly when set; one `-M` per macro; a `-T`
   * exactly when some input needs a temporary directory; a `-B` exactly
   * when a Python binary is handed over.
   */
  lemma ArgsFlags(script: string, launcher: string, isWindows: bool, password: Option<string>, pythonBinary: Option<string>,
                  req: LaunchRequest, render: Resource -> string, tempName: string)
    ensures var args := LauncherArgs(script, launcher, isWindows, password, pythonBinary, req, render, tempName);
      |args| >= 2 && args[0] == script &&
      Flags(isWindows, args[1..]) ==
        (['C'] + Rep('P', Count(req.process)) + Rep('I', |req.inputs|) + Rep('O', |req.outputs|))
        + (Rep('D', Count(req.outputDir)) + Rep('N', Count(req.operator)) + Rep('X', Count(password))
           + Rep('M', |req.macros|) + Rep('T', if AnyNeedsTempDir(render, req.inputs) then 1 else 0)
           + Rep('B', Count(pythonBinary)))
  {
    var front := FrontArgs(isWindows, launcher, req, render);
    var back := BackArgs(isWindows, password, pythonBinary, req, render, tempName);
    var args := LauncherArgs(script, launcher, isWindows, password, pythonBinary, req, render, tempName);
    assert args == [script] + (front + back);
    FrontFlags(isWindows, launcher, req, render);
    BackFlags(isWindows, password, pythonBinary, req, render, tempName);
    FlagsAppend(isWindows, front, back);
  }

  /** Quoting every value of a sequence is undone argument by argument. */
  lemma UnquoteEach(isWindows: bool, prefix: string, values: seq<string>)
    requires |prefix| == 2
    ensures var args := EachArg(isWindows, prefix, values);
      forall k :: 0 <= k < |values| ==>
        |args[k]| >= (if isWindows then 2 else 4) && Unquote(isWindows, args[k]) == values[k]
  {
    forall k | 0 <= k < |values|
      ensures Unquote(isWindows, EachArg(isWindows, prefix, values)[k]) == values[k]
    {
      QuoteRoundTrip(isWindows, prefix, values[k]);
    }
  }

  /** Within the flagged arguments, the inputs follow `-C` and the optional `-P`, and the outputs follow the inputs. */
  lemma FrontCarries(isWindows: bool, launcher: string, req: LaunchRequest, render: Resource -> string)
    ensures var front := FrontArgs(isWindows, launcher, req, render);
      var first := 1 + Count(req.process);
      && |front| == first + |req.inputs| + |req.outputs|
      && front[first..first + |req.inputs|] == EachArg(isWindows, "-I", Rendered(render, req.inputs))
      && front[first + |req.inputs|..] == EachArg(isWindows, "-O", Rendered(render, req.outputs))
  {
    var w := isWindows;
    var c := [Quote(w, "-C", launcher)] + OptionalArg(w, "-P", ProcessText(render, req.process));
    var i := EachArg(w, "-I", Rendered(render, req.inputs));
    var o := EachArg(w, "-O", Rendered(render, req.outputs));
    assert FrontArgs(w, launcher, req, render) == c + i + o;
    assert (c + i + o)[|c|..|c| + |i|] == i;
    assert (c + i + o)[|c| + |i|..] == o;
  }

  /** A stretch of the flagged arguments sits one position later in the command line, after the script. */
  lemma SliceAfterScript(script: string, front: seq<string>, back: seq<string>, at: nat, n: nat)
    requires at + n <= |front|
    ensures |[script] + front + back| >= at + 1 + n
    ensures ([script] + front + back)[at + 1..at + 1 + n] == front[at..at + n]
  {
    var args := [script] + front + back;
    forall j | at + 1 <= j < at + 1 + n
      ensures args[j] == front[j - 1]
    {
    }
    assert args[at + 1..at + 1 + n] == front[at..at + n];
  }

  /**
   * The inputs are handed over, in order and each quoted with `-I`, in
   * the arguments right after the script, the `-C` argument and the
   * optional `-P`.
   */
  lemma ArgsCarryInputs(script: string, launcher: string, isWindows: bool, password: Option<string>, pythonBinary: Option<string>,
                        req: LaunchRequest, render: Resource -> string, tempName: string)
    ensures var args := LauncherArgs(script, launcher, isWindows, password, pythonBinary, req, render, tempName);
      var first := 2 + Count(req.process);
      && |args| >= first + |req.inputs|
      && args[first..first + |req.inputs|] == EachArg(isWindows, "-I", Rendered(render, req.inputs))
  {
    var front := FrontArgs(isWindows, launcher, req, render);
    var back := BackArgs(isWindows, password, pythonBinary, req, render, tempName);
    FrontCarries(isWindows, launcher, req, render);
    SliceAfterScript(script, front, back, 1 + Count(req.process), |req.inputs|);
  }

  /** The outputs are handed over, in order and each quoted with `-O`, right after the inputs. */
  lemma ArgsCarryOutputs(script: string, launcher: string, isWindows: bool, password: Option<string>, pythonBinary: Option<string>,
                         req: LaunchRequest, render: Resource -> string, tempName: string)
    ensures var args := LauncherArgs(script, launcher, isWindows, password, pythonBinary, req, render, tempName);
      var first := 2 + Count(req.process) + |req.inputs|;
      && |args| >= first + |req.outputs|
      && args[first..first + |req.outputs|] == EachArg(isWindows, "-O", Rendered(render, req.outputs))
  {
    var front := FrontArgs(isWindows, launcher, req, render);
    var back := BackArgs(isWindows, password, pythonBinary, req, render, tempName);
    var at := 1 + Count(req.process) + |req.inputs|;
    FrontCarries(isWindows, launcher, req, render);
    assert front[at..at + |req.outputs|] == front[at..];
    SliceAfterScript(script, front, back, at, |req.outputs|);
  }
}
