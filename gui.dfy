/** The launcher window of the solver (gui.py): the argument list it builds
    for the single-agent or parallel run, and the checks and clean-up it
    applies to the form before launching. */
module Gui {
  import opened Wrappers
  import opened PyStr
  import opened PosixPath

  const CodeDir := "code"
  const ProblemsDir := "problems"
  const LogsDir := "run_logs"

  /** The two child scripts, `os.path.join(CODE_DIR, ...)` of their names
      (`AgentScriptPath` and `ParallelScriptPath`
      check the joins). */
  const AgentScript := "code/agent.py"
  const ParallelScript := "code/run_parallel.py"

  /** Initial contents of the numeric form fields. */
  const DefaultNumAgents := 10
  const DefaultTimeout := 0
  const DefaultMaxWorkers := 0

  /** Python truthiness of an optional `int`: `None` and `0` are false. */
  predicate IntTruthy(v: Option<int>) {
    v.Some? && v.value != 0
  }

  /** Python truthiness of an optional `str`: `None` and `""` are false. */
  predicate StrTruthy(v: Option<string>) {
    v.Some? && v.value != ""
  }

  /** `os.path.splitext(problem_filename)[0] + "_log"` */
  function LogName(problemFilename: string): (r: string)
    ensures EndsWith(r, "_log")
  {
    SplitExt(problemFilename).0 + "_log"
  }

  /** `os.path.join(PROBLEMS_DIR, problem_filename)` */
  function ProblemPath(problemFilename: string): (r: string)
    ensures EndsWith(r, problemFilename)
  {
    Join(ProblemsDir, problemFilename)
  }

  /** `os.path.join(LOGS_DIR, f"{log_name}.log")` */
  function LogPath(problemFilename: string): (r: string)
    ensures EndsWith(r, "_log.log")
  {
    var r := Join(LogsDir, LogName(problemFilename) + ".log");
    assert EndsWith(LogName(problemFilename) + ".log", "_log.log");
    r
  }

  /** `[flag, str(value)]` when `value` is truthy, nothing otherwise. */
  function IntArg(flag: string, value: Option<int>): seq<string> {
    if IntTruthy(value) then [flag, IntToStr(value.value)] else []
  }

  /** `[flag, value]` when `value` is truthy, nothing otherwise. */
  function StrArg(flag: string, value: Option<string>): seq<string> {
    if StrTruthy(value) then [flag, value.value] else []
  }

  /** The argument list `run_agent` hands to the child process; `exe` stands for
      `sys.executable`. Mode "single" runs agent.py with a log file; every other
      mode runs run_parallel.py on the log directory. Each optional parameter
      adds its flag and value only when it is truthy, in the order below. */
  function RunAgentCommand(exe: string, mode: string, problemFilename: string,
                           numAgents: Option<int>, timeout: Option<int>, maxWorkers: Option<int>,
                           otherPrompts: Option<string>): (cmd: seq<string>)
    ensures 5 <= |cmd| && cmd[0] == exe && cmd[2] == ProblemPath(problemFilename)
  {
    if mode == "single" then
      [exe, AgentScript, ProblemPath(problemFilename), "--log", LogPath(problemFilename)]
      + StrArg("--other_prompts", otherPrompts)
    else
      [exe, ParallelScript, ProblemPath(problemFilename), "-d", LogsDir]
      + IntArg("-n", numAgents)
      + IntArg("-t", timeout)
      + IntArg("-w", maxWorkers)
      + StrArg("-o", otherPrompts)
  }

  /** `filename += ".txt"` unless it already ends with ".txt". */
  function NormalizeFilename(filename: string): (r: string)
    ensures EndsWith(r, ".txt")
    ensures |filename| <= |r| && r[..|filename|] == filename
  {
    if EndsWith(filename, ".txt") then filename else filename + ".txt"
  }

  /** `prompts_var.get().strip() or None` */
  function PromptOrNone(raw: string): (r: Option<string>)
    ensures r.None? <==> AllSpace(raw)
    ensures r.Some? ==> r.value == Strip(raw) && r.value != "" && Trimmed(r.value)
  {
    StripEmptyIff(raw);
    var stripped := Strip(raw);
    if stripped == "" then None else Some(stripped)
  }

  /** What the window holds when Run is pressed. `problemText` is the text
      widget's content as `get("1.0", END)` returns it; the three numbers are
      the integer fields' values. */
  datatype Form = Form(mode: string, problemText: string, filename: string,
                       numAgents: int, timeout: int, maxWorkers: int, prompts: string)

  /** What pressing Run does: either the input warning, with nothing written
      or started, or the problem text written to `problemPath` followed by a
      background run of `cmd`. */
  datatype Action =
    | InputWarning
    | Launch(problemPath: string, problemText: string, cmd: seq<string>)

  /** A numeric field as `start_execution` passes it on: its value when the
      mode is "parallel", `None` otherwise. */
  function StartNumber(form: Form, value: int): Option<int> {
    if form.mode == "parallel" then Some(value) else None
  }

  /** `start_execution`, with `exe` standing for `sys.executable`. */
  function StartExecution(exe: string, form: Form): (a: Action)
    ensures a.Launch? ==> a.problemText != "" && Trimmed(a.problemText)
    ensures a.Launch? ==> |a.cmd| >= 5 && a.cmd[2] == a.problemPath
    ensures a.Launch? ==> EndsWith(a.problemPath, ".txt")
  {
    var problemText := Strip(form.problemText);
    var filename := Strip(form.filename);
    if problemText == "" || filename == "" then InputWarning
    else
      var txtName := NormalizeFilename(filename);
      var otherPrompts := PromptOrNone(form.prompts);
      Launch(ProblemPath(txtName), problemText,
             RunAgentCommand(exe, form.mode, txtName, StartNumber(form, form.numAgents),
                             StartNumber(form, form.timeout), StartNumber(form, form.maxWorkers),
                             otherPrompts))
  }
}
