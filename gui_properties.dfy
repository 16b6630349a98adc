/** What the launcher's argument list and input handling guarantee. The
    argument list is read back with `LookupFlag`, a reader of flag/value pairs,
    to show that the child process receives exactly the values that pass
    Python's truthiness test, and nothing else. */
module GuiProperties {
  import opened Wrappers
  import opened PyStr
  import opened PosixPath
  import opened Gui

  /** Reads `args` as flag/value pairs from index `i` on: the value that
      follows the first occurrence of `flag` in a flag position. */
  function LookupFlag(args: seq<string>, i: nat, flag: string): Option<string>
    decreases |args| - i
  {
    if i + 1 >= |args| then None
    else if args[i] == flag then Some(args[i + 1])
    else LookupFlag(args, i + 2, flag)
  }

  /** The number that follows `flag`, read back as a decimal integer. */
  function ReadInt(args: seq<string>, i: nat, flag: string): Option<int> {
    match LookupFlag(args, i, flag)
    case None => None
    case Some(s) => ParseInt(s)
  }

  /** The optional parameter as the truthiness test lets it through. */
  function PassedInt(v: Option<int>): Option<int> {
    if IntTruthy(v) then v else None
  }

  function PassedStr(v: Option<string>): Option<string> {
    if StrTruthy(v) then v else None
  }

  function Bit(b: bool): nat {
    if b then 1 else 0
  }

  /** Reading pairs across a concatenation: the pairs of `a` from `i` come
      first, then those of `b`. */
  lemma {:induction false} LookupConcat(a: seq<string>, b: seq<string>, i: nat, flag: string)
    requires i <= |a| && (|a| - i) % 2 == 0
    ensures LookupFlag(a + b, i, flag)
         == if LookupFlag(a, i, flag).Some? then LookupFlag(a, i, flag) else LookupFlag(b, 0, flag)
    decreases |a| - i
  {
    if i == |a| {
      LookupShift(a, b, 0, flag);
    } else {
      assert (a + b)[i] == a[i] && (a + b)[i + 1] == a[i + 1];
      LookupConcat(a, b, i + 2, flag);
    }
  }

  /** Putting `a` in front of `b` moves its pairs `|a|` places along. */
  lemma {:induction false} LookupShift(a: seq<string>, b: seq<string>, j: nat, flag: string)
    ensures LookupFlag(a + b, |a| + j, flag) == LookupFlag(b, j, flag)
    decreases |b| - j
  {
    if j + 1 < |b| {
      assert (a + b)[|a| + j] == b[j] && (a + b)[|a| + j + 1] == b[j + 1];
      LookupShift(a, b, j + 2, flag);
    }
  }

  lemma IntArgLookup(flag: string, v: Option<int>, key: string)
    ensures LookupFlag(IntArg(flag, v), 0, key)
         == if flag == key && IntTruthy(v) then Some(IntToStr(v.value)) else None
  {
  }

  lemma StrArgLookup(flag: string, v: Option<string>, key: string)
    ensures LookupFlag(StrArg(flag, v), 0, key) == if flag == key then PassedStr(v) else None
  {
  }

  /** The agent script path is the join `run_agent` computes. */
  lemma AgentScriptPath()
    ensures AgentScript == Join(CodeDir, "agent.py")
  {
    JoinRelative(CodeDir, "agent.py");
  }

  /** The parallel runner's path is the join `run_agent` computes. */
  lemma ParallelScriptPath()
    ensures ParallelScript == Join(CodeDir, "run_parallel.py")
  {
    JoinRelative(CodeDir, "run_parallel.py");
  }

  /** Where the pieces of a five-element head followed by four runs land. */
  lemma ConcatPositions(head: seq<string>, a: seq<string>, b: seq<string>, c: seq<string>, d: seq<string>)
    requires |head| == 5
    ensures var cmd := head + a + b + c + d;
      var i, j, k := 5 + |a|, 5 + |a| + |b|, 5 + |a| + |b| + |c|;
      && |cmd| == k + |d|
      && cmd[0] == head[0] && cmd[1] == head[1] && cmd[2] == head[2] && cmd[3] == head[3] && cmd[4] == head[4]
      && (|a| == 2 ==> cmd[5] == a[0] && cmd[6] == a[1])
      && (|b| == 2 ==> cmd[i] == b[0] && cmd[i + 1] == b[1])
      && (|c| == 2 ==> cmd[j] == c[0] && cmd[j + 1] == c[1])
      && (|d| == 2 ==> cmd[k] == d[0] && cmd[k + 1] == d[1])
  {
  }

  /** Parallel mode: the fixed five-element head, then the pairs for `-n`,
      `-t`, `-w` and `-o` in that order, each there iff its value is truthy,
      each flag followed directly by its value. */
  lemma ParallelLayout(exe: string, mode: string, f: string,
                       n: Option<int>, t: Option<int>, w: Option<int>, o: Option<string>)
    requires mode != "single"
    ensures var cmd := RunAgentCommand(exe, mode, f, n, t, w, o);
      var i := 5 + 2 * Bit(IntTruthy(n));
      var j := i + 2 * Bit(IntTruthy(t));
      var k := j + 2 * Bit(IntTruthy(w));
      && |cmd| == k + 2 * Bit(StrTruthy(o))
      && cmd[0] == exe && cmd[1] == ParallelScript && cmd[2] == ProblemPath(f)
      && cmd[3] == "-d" && cmd[4] == LogsDir
      && (IntTruthy(n) ==> cmd[5] == "-n" && cmd[6] == IntToStr(n.value))
      && (IntTruthy(t) ==> cmd[i] == "-t" && cmd[i + 1] == IntToStr(t.value))
      && (IntTruthy(w) ==> cmd[j] == "-w" && cmd[j + 1] == IntToStr(w.value))
      && (StrTruthy(o) ==> cmd[k] == "-o" && cmd[k + 1] == o.value)
  {
    var head := [exe, ParallelScript, ProblemPath(f), "-d", LogsDir];
    var a, b, c, d := IntArg("-n", n), IntArg("-t", t), IntArg("-w", w), StrArg("-o", o);
    assert RunAgentCommand(exe, mode, f, n, t, w, o) == head + a + b + c + d;
    ConcatPositions(head, a, b, c, d);
  }

  /** Reading pairs from index 3 of a five-element head followed by four runs
      of whole pairs: the head's pair first, then each run in order. */
  lemma LookupAfterHead(head: seq<string>, a: seq<string>, b: seq<string>, c: seq<string>, d: seq<string>, key: string)
    requires |head| == 5 && |a| % 2 == 0 && |b| % 2 == 0 && |c| % 2 == 0
    ensures LookupFlag(head + a + b + c + d, 3, key)
         == if head[3] == key then Some(head[4])
            else if LookupFlag(a, 0, key).Some? then LookupFlag(a, 0, key)
            else if LookupFlag(b, 0, key).Some? then LookupFlag(b, 0, key)
            else if LookupFlag(c, 0, key).Some? then LookupFlag(c, 0, key)
            else LookupFlag(d, 0, key)
  {
    LookupConcat(head + a + b + c, d, 3, key);
    LookupConcat(head + a + b, c, 3, key);
    LookupConcat(head + a, b, 3, key);
    LookupConcat(head, a, 3, key);
  }

  /** What a reader of pairs finds after the problem path in parallel mode:
      the log directory under `-d`, each number under its flag when truthy,
      the prompt under `-o` when truthy, and nothing under any other key. */
  lemma ParallelLookup(exe: string, mode: string, f: string,
                       n: Option<int>, t: Option<int>, w: Option<int>, o: Option<string>, key: string)
    requires mode != "single"
    ensures LookupFlag(RunAgentCommand(exe, mode, f, n, t, w, o), 3, key)
         == if key == "-d" then Some(LogsDir)
            else if key == "-n" && IntTruthy(n) then Some(IntToStr(n.value))
            else if key == "-t" && IntTruthy(t) then Some(IntToStr(t.value))
            else if key == "-w" && IntTruthy(w) then Some(IntToStr(w.value))
            else if key == "-o" then PassedStr(o)
            else None
  {
    var head := [exe, ParallelScript, ProblemPath(f), "-d", LogsDir];
    var a, b, c, d := IntArg("-n", n), IntArg("-t", t), IntArg("-w", w), StrArg("-o", o);
    assert RunAgentCommand(exe, mode, f, n, t, w, o) == head + a + b + c + d;
    LookupAfterHead(head, a, b, c, d, key);
    assert head[3] == "-d" && head[4] == LogsDir;
    IntArgLookup("-n", n, key);
    IntArgLookup("-t", t, key);
    IntArgLookup("-w", w, key);
    StrArgLookup("-o", o, key);
  }

  /** In parallel mode the child reads back the log directory, and each of
      `-n`, `-t`, `-w` and `-o` carries exactly the value given when that value
      is truthy and is absent otherwise; the single-mode flags never appear. */
  lemma ParallelRoundTrip(exe: string, mode: string, f: string,
                          n: Option<int>, t: Option<int>, w: Option<int>, o: Option<string>)
    requires mode != "single"
    ensures var cmd := RunAgentCommand(exe, mode, f, n, t, w, o);
      && LookupFlag(cmd, 3, "-d") == Some(LogsDir)
      && ReadInt(cmd, 3, "-n") == PassedInt(n)
      && ReadInt(cmd, 3, "-t") == PassedInt(t)
      && ReadInt(cmd, 3, "-w") == PassedInt(w)
      && LookupFlag(cmd, 3, "-o") == PassedStr(o)
      && LookupFlag(cmd, 3, "--log") == None
      && LookupFlag(cmd, 3, "--other_prompts") == None
  {
    var cmd := RunAgentCommand(exe, mode, f, n, t, w, o);
    ParallelLookup(exe, mode, f, n, t, w, o, "-d");
    ParallelLookup(exe, mode, f, n, t, w, o, "-n");
    if IntTruthy(n) { IntToStrRoundTrip(n.value); }
    ParallelLookup(exe, mode, f, n, t, w, o, "-t");
    if IntTruthy(t) { IntToStrRoundTrip(t.value); }
    ParallelLookup(exe, mode, f, n, t, w, o, "-w");
    if IntTruthy(w) { IntToStrRoundTrip(w.value); }
    ParallelLookup(exe, mode, f, n, t, w, o, "-o");
    ParallelLookup(exe, mode, f, n, t, w, o, "--log");
    ParallelLookup(exe, mode, f, n, t, w, o, "--other_prompts");
  }

  /** What a reader of pairs finds after the problem path in single mode. */
  lemma SingleLookup(exe: string, f: string,
                     n: Option<int>, t: Option<int>, w: Option<int>, o: Option<string>, key: string)
    ensures LookupFlag(RunAgentCommand(exe, "single", f, n, t, w, o), 3, key)
         == if key == "--log" then Some(LogPath(f)) else LookupFlag(StrArg("--other_prompts", o), 0, key)
  {
    var head := [exe, AgentScript, ProblemPath(f), "--log", LogPath(f)];
    var p := StrArg("--other_prompts", o);
    assert RunAgentCommand(exe, "single", f, n, t, w, o) == head + p;
    LookupConcat(head, p, 3, key);
    assert head[3] == "--log" && head[4] == LogPath(f);
  }

  /** In single mode the child reads back the log file and the prompt, if
      truthy; none of the parallel flags appear. */
  lemma SingleRoundTrip(exe: string, f: string,
                        n: Option<int>, t: Option<int>, w: Option<int>, o: Option<string>)
    ensures var cmd := RunAgentCommand(exe, "single", f, n, t, w, o);
      && LookupFlag(cmd, 3, "--log") == Some(LogPath(f))
      && LookupFlag(cmd, 3, "--other_prompts") == PassedStr(o)
      && LookupFlag(cmd, 3, "-d") == None
      && LookupFlag(cmd, 3, "-n") == None
      && LookupFlag(cmd, 3, "-t") == None
      && LookupFlag(cmd, 3, "-w") == None
      && LookupFlag(cmd, 3, "-o") == None
  {
    SingleLookup(exe, f, n, t, w, o, "--log");
    SingleLookup(exe, f, n, t, w, o, "--other_prompts");
    SingleLookup(exe, f, n, t, w, o, "-d");
    SingleLookup(exe, f, n, t, w, o, "-n");
    SingleLookup(exe, f, n, t, w, o, "-t");
    SingleLookup(exe, f, n, t, w, o, "-w");
    SingleLookup(exe, f, n, t, w, o, "-o");
  }

  /** A log name starts like the problem file name it comes from (or with
      `_log` when that name has an empty root), so it is relative when that
      name is. */
  lemma LogNameRelative(f: string)
    requires f == [] || f[0] != '/'
    ensures (LogName(f) + ".log")[0] != '/'
  {
    var root := SplitExt(f).0;
    assert root + SplitExt(f).1 == f;
    if root != [] {
      assert root[0] == f[0];
    }
    assert (root + "_log" + ".log")[0] == (if root == [] then '_' else root[0]);
  }

  /** Single mode without a truthy prompt runs agent.py on the problem file
      with its log file and nothing more; for a relative file name the two
      paths sit under the problems and log directories. */
  lemma SingleExact(exe: string, f: string,
                    n: Option<int>, t: Option<int>, w: Option<int>, o: Option<string>)
    requires !StrTruthy(o)
    ensures RunAgentCommand(exe, "single", f, n, t, w, o)
         == [exe, AgentScript, Join(ProblemsDir, f), "--log", LogPath(f)]
    ensures f == [] || f[0] != '/' ==>
      RunAgentCommand(exe, "single", f, n, t, w, o)
        == [exe, AgentScript, "problems/" + f, "--log", "run_logs/" + LogName(f) + ".log"]
  {
    if f == [] || f[0] != '/' {
      JoinRelative(ProblemsDir, f);
      assert ProblemsDir + "/" + f == "problems/" + f;
      LogNameRelative(f);
      JoinRelative(LogsDir, LogName(f) + ".log");
      assert LogsDir + "/" + (LogName(f) + ".log") == "run_logs/" + LogName(f) + ".log";
    }
  }

  /** A truthy prompt in single mode appends exactly `--other_prompts` and the
      prompt; everything before it stays as it was. */
  lemma SinglePromptAppends(exe: string, f: string,
                            n: Option<int>, t: Option<int>, w: Option<int>, o: Option<string>)
    requires StrTruthy(o)
    ensures RunAgentCommand(exe, "single", f, n, t, w, o)
         == RunAgentCommand(exe, "single", f, n, t, w, None) + ["--other_prompts", o.value]
  {
  }

  /** Single mode ignores the three numeric parameters entirely. */
  lemma SingleIgnoresNumbers(exe: string, f: string, o: Option<string>,
                             n1: Option<int>, t1: Option<int>, w1: Option<int>,
                             n2: Option<int>, t2: Option<int>, w2: Option<int>)
    ensures RunAgentCommand(exe, "single", f, n1, t1, w1, o) == RunAgentCommand(exe, "single", f, n2, t2, w2, o)
  {
  }

  /** A zero (or absent) number contributes nothing: the command is the one
      built with `None` in its place. */
  lemma FalsyNumbersDropped(exe: string, mode: string, f: string,
                            n: Option<int>, t: Option<int>, w: Option<int>, o: Option<string>)
    ensures !IntTruthy(n) ==> RunAgentCommand(exe, mode, f, n, t, w, o) == RunAgentCommand(exe, mode, f, None, t, w, o)
    ensures !IntTruthy(t) ==> RunAgentCommand(exe, mode, f, n, t, w, o) == RunAgentCommand(exe, mode, f, n, None, w, o)
    ensures !IntTruthy(w) ==> RunAgentCommand(exe, mode, f, n, t, w, o) == RunAgentCommand(exe, mode, f, n, t, None, o)
  {
  }

  /** Single mode: five arguments, plus two when the prompt is truthy. */
  lemma SingleLength(exe: string, f: string,
                     n: Option<int>, t: Option<int>, w: Option<int>, o: Option<string>)
    ensures |RunAgentCommand(exe, "single", f, n, t, w, o)| == 5 + 2 * Bit(StrTruthy(o))
  {
  }

  /** The worked case n = 5, t = 0, w = 0 with no prompt: only `-n 5` follows
      the log directory. */
  lemma ParallelFiveZeroZero(exe: string, f: string)
    ensures RunAgentCommand(exe, "parallel", f, Some(5), Some(0), Some(0), None)
         == [exe, ParallelScript, Join(ProblemsDir, f), "-d", "run_logs", "-n", "5"]
  {
    assert IntToStr(5) == "5";
  }

  /** `.txt` is appended exactly when the name does not already end with it. */
  lemma NormalizeAppendsTxtIff(name: string)
    ensures NormalizeFilename(name) == name <==> EndsWith(name, ".txt")
    ensures !EndsWith(name, ".txt") ==> NormalizeFilename(name) == name + ".txt"
  {
  }

  lemma NormalizeIdempotent(name: string)
    ensures NormalizeFilename(NormalizeFilename(name)) == NormalizeFilename(name)
  {
  }

  /** The name without a trailing `.txt`. */
  function TxtStem(name: string): string {
    if EndsWith(name, ".txt") then name[..|name| - 4] else name
  }

  /** The log name of a normalised file name is its stem plus `_log`, unless
      the stem's last component is nothing but dots (`.txt`, `a/..txt`), in
      which case `splitext` finds no extension and the whole name is kept. */
  lemma LogNameOfNormalized(name: string)
    ensures var stem := TxtStem(name);
      LogName(NormalizeFilename(name))
        == (if AllDots(Basename(stem)) then NormalizeFilename(name) else stem) + "_log"
  {
    var f := NormalizeFilename(name);
    assert f[..|f| - 4] == TxtStem(name);
    SplitExtTxt(f);
  }

  /** Run warns, writing and starting nothing, exactly when the problem text or
      the file name is blank. */
  lemma StartRejectsBlank(exe: string, form: Form)
    ensures StartExecution(exe, form) == InputWarning <==> AllSpace(form.problemText) || AllSpace(form.filename)
  {
    StripEmptyIff(form.problemText);
    StripEmptyIff(form.filename);
  }

  /** Whatever whitespace surrounds the problem text, exactly the text between
      it is written; a relative file name, stripped, is written under the
      problems directory with `.txt` added unless it is already there. */
  lemma StartWritesNormalizedFile(exe: string, form: Form, pre: string, core: string, post: string)
    requires form.problemText == pre + core + post
    requires AllSpace(pre) && AllSpace(post) && Trimmed(core) && core != []
    requires !AllSpace(form.filename)
    ensures StartExecution(exe, form).Launch?
    ensures StartExecution(exe, form).problemText == core
    ensures var n := Strip(form.filename);
      n != [] && (n[0] != '/' ==>
        StartExecution(exe, form).problemPath == "problems/" + n + (if EndsWith(n, ".txt") then "" else ".txt"))
  {
    StripAround(pre, core, post);
    StripEmptyIff(form.filename);
    var n := Strip(form.filename);
    if n[0] != '/' {
      ProblemPathOfNormalized(n);
    }
  }

  /** A relative name, `.txt`-normalised, lands directly under `problems/`. */
  lemma ProblemPathOfNormalized(n: string)
    requires n != [] && n[0] != '/'
    ensures ProblemPath(NormalizeFilename(n)) == "problems/" + n + (if EndsWith(n, ".txt") then "" else ".txt")
  {
    var f := NormalizeFilename(n);
    assert f[0] == n[0];
    JoinRelative(ProblemsDir, f);
    if EndsWith(n, ".txt") {
      assert ProblemsDir + "/" + n == "problems/" + n + "";
    } else {
      assert ProblemsDir + "/" + (n + ".txt") == "problems/" + n + ".txt";
    }
  }

  /** The command a launch runs is `run_agent` applied to the normalised file
      name, the numbers only in parallel mode, and the stripped prompt or `None`. */
  lemma StartCommand(exe: string, form: Form)
    requires !AllSpace(form.problemText) && !AllSpace(form.filename)
    ensures StartExecution(exe, form).Launch?
    ensures StartExecution(exe, form).cmd
         == RunAgentCommand(exe, form.mode, NormalizeFilename(Strip(form.filename)),
                            StartNumber(form, form.numAgents), StartNumber(form, form.timeout),
                            StartNumber(form, form.maxWorkers), PromptOrNone(form.prompts))
  {
    StartRejectsBlank(exe, form);
  }

  /** A blank prompt field sends no prompt flag; any other is sent stripped,
      under the flag of the mode's branch. */
  lemma StartPrompt(exe: string, form: Form)
    requires !AllSpace(form.problemText) && !AllSpace(form.filename)
    ensures StartExecution(exe, form).Launch?
    ensures var opts := StartExecution(exe, form).cmd;
      var flag := if form.mode == "single" then "--other_prompts" else "-o";
      LookupFlag(opts, 3, flag) == if AllSpace(form.prompts) then None else Some(Strip(form.prompts))
  {
    var f := NormalizeFilename(Strip(form.filename));
    var n, t, w := StartNumber(form, form.numAgents), StartNumber(form, form.timeout), StartNumber(form, form.maxWorkers);
    var o := PromptOrNone(form.prompts);
    StartCommand(exe, form);
    StripEmptyIff(form.prompts);
    if form.mode == "single" {
      SingleRoundTrip(exe, f, n, t, w, o);
    } else {
      ParallelRoundTrip(exe, form.mode, f, n, t, w, o);
    }
  }

  /** The numeric fields reach the child only when the mode is "parallel" and
      the field is non-zero; in any other mode they are never sent. */
  lemma StartNumbers(exe: string, form: Form)
    requires !AllSpace(form.problemText) && !AllSpace(form.filename)
    ensures StartExecution(exe, form).Launch?
    ensures var opts := StartExecution(exe, form).cmd;
      var parallel := form.mode == "parallel";
      && ReadInt(opts, 3, "-n") == (if parallel && form.numAgents != 0 then Some(form.numAgents) else None)
      && ReadInt(opts, 3, "-t") == (if parallel && form.timeout != 0 then Some(form.timeout) else None)
      && ReadInt(opts, 3, "-w") == (if parallel && form.maxWorkers != 0 then Some(form.maxWorkers) else None)
  {
    var f := NormalizeFilename(Strip(form.filename));
    var n, t, w := StartNumber(form, form.numAgents), StartNumber(form, form.timeout), StartNumber(form, form.maxWorkers);
    var o := PromptOrNone(form.prompts);
    StartCommand(exe, form);
    if form.mode == "single" {
      SingleRoundTrip(exe, f, n, t, w, o);
    } else {
      ParallelRoundTrip(exe, form.mode, f, n, t, w, o);
    }
  }

  /** The log file of a `.txt`-normalised name is named after its stem. */
  lemma LogPathOfNormalized(name: string)
    requires !AllDots(Basename(TxtStem(name)))
    ensures LogPath(NormalizeFilename(name)) == Join(LogsDir, TxtStem(name) + "_log" + ".log")
  {
    LogNameOfNormalized(name);
  }

  /** The `--log` value single mode sends for a `.txt`-normalised name. */
  lemma SingleLogOfNormalized(exe: string, name: string, o: Option<string>)
    requires !AllDots(Basename(TxtStem(name)))
    ensures LookupFlag(RunAgentCommand(exe, "single", NormalizeFilename(name), None, None, None, o), 3, "--log")
         == Some(Join(LogsDir, TxtStem(name) + "_log" + ".log"))
  {
    SingleRoundTrip(exe, NormalizeFilename(name), None, None, None, o);
    LogPathOfNormalized(name);
  }

  /** In single mode the log file is named after the problem file's stem
      (the stripped name without `.txt`) whenever that stem has a component
      that is not all dots. */
  lemma StartSingleLogFile(exe: string, form: Form)
    requires !AllSpace(form.problemText) && !AllSpace(form.filename) && form.mode == "single"
    requires !AllDots(Basename(TxtStem(Strip(form.filename))))
    ensures StartExecution(exe, form).Launch?
    ensures LookupFlag(StartExecution(exe, form).cmd, 3, "--log")
         == Some(Join(LogsDir, TxtStem(Strip(form.filename)) + "_log" + ".log"))
  {
    StartCommand(exe, form);
    SingleLogOfNormalized(exe, Strip(form.filename), PromptOrNone(form.prompts));
  }

  /** Ten agents with zero timeout and workers and no prompt: only `-n 10`
      follows the log directory. */
  lemma ParallelTenZeroZero(exe: string, f: string)
    ensures RunAgentCommand(exe, "parallel", f, Some(10), Some(0), Some(0), None)
         == [exe, ParallelScript, ProblemPath(f), "-d", "run_logs", "-n", "10"]
  {
    assert IntToStr(10) == "10";
  }

  /** With parallel mode chosen and the numeric fields as the window opens
      them (10 agents, timeout and workers 0) and a blank prompt, only `-n 10`
      follows the log directory, whatever the file name. */
  lemma StartDefaultsParallel(exe: string, text: string, filename: string, prompts: string)
    requires !AllSpace(text) && !AllSpace(filename) && AllSpace(prompts)
    ensures StartExecution(exe, Form("parallel", text, filename, DefaultNumAgents, DefaultTimeout, DefaultMaxWorkers, prompts)).cmd
         == [exe, ParallelScript, ProblemPath(NormalizeFilename(Strip(filename))), "-d", "run_logs", "-n", "10"]
  {
    var form := Form("parallel", text, filename, DefaultNumAgents, DefaultTimeout, DefaultMaxWorkers, prompts);
    StartRejectsBlank(exe, form);
    StripEmptyIff(prompts);
    StartCommand(exe, form);
    ParallelTenZeroZero(exe, NormalizeFilename(Strip(filename)));
  }
}
