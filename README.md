# Launcher of the problem solver: argument list and Run-button checks

The solver's desktop window (`gui.py`) collects a problem text, a file name,
a mode and a few numbers. Pressing Run calls `start_execution`, which checks
and normalises the form. It then writes the problem file and starts
`run_agent` in a background thread. `run_agent` builds the argument list of
the child process: `code/agent.py` in mode "single", `code/run_parallel.py`
in any other mode. This project models those two functions as pure Dafny
functions and proves what the argument list carries.

- `Wrappers` holds `Option`, which stands for Python's `None` next to a value.
- `PyStr` holds the string built-ins the launcher uses. `Strip` is
  `str.strip()`, with the whole `str.isspace` set, scanned the way CPython
  scans it. `EndsWith` is `str.endswith`. `IntToStr` is `str()` of an `int`,
  and `ParseInt` reads it back.
- `PosixPath` holds `os.path.join` for two parts, where an absolute second
  part replaces the first. It also holds `os.path.splitext`, including the rule
  that leading dots of the last component are not an extension, and
  `basename`.
- `Gui` holds the directory constants, the truthiness tests, `RunAgentCommand`
  (`run_agent`'s list) and `StartExecution` (`start_execution`). A launch is
  returned as a value: either the input warning, or the file to write, its
  text and the command to run.
- `GuiProperties` reads argument lists back with `LookupFlag`, a reader of
  flag/value pairs. With it, it proves that such a reader finds exactly the
  values that pass Python's truthiness test, in the fixed order, and nothing
  else. It also proves the properties of `start_execution`.

`sys.executable` is the parameter `exe` throughout.

The code is followed in these cases:
- Parallel mode passes the constant log directory `run_logs` after `-d`. It
  is not derived from a log file path.
- `run_agent` does no validation of its numbers; any value that is not zero
  is sent.
- Any mode other than "single" takes the parallel branch.
- There is no guard against a second run while one is active, and there is no
  classification of spawn failures.

## Model

| member | source | states |
|---|---|---|
| Gui.RunAgentCommand | gui.py:18-44 | the list starts with the interpreter, then a script, then the problem path `os.path.join("problems", name)`, and has at least five elements |
| Gui.LogName | gui.py:21 | the log name ends with `_log` (its exact value for `.txt` names is `LogNameOfNormalized`) |
| Gui.ProblemPath | gui.py:20 | the problem path ends with the given file name (its exact value for relative names is in `SingleExact`) |
| Gui.LogPath | gui.py:27 | the log path ends with `_log.log` |
| Gui.NormalizeFilename | gui.py:73-74 | the result ends with `.txt` and begins with the name as given |
| Gui.PromptOrNone | gui.py:85 | the prompt is `None` exactly when the field is all whitespace, and otherwise is the stripped field, non-empty and trimmed |
| Gui.StartExecution | gui.py:63-95 | a launch carries non-empty trimmed problem text; the file it writes ends in `.txt`; the command's third element is that same file |
| GuiProperties.AgentScriptPath | gui.py:25 | the single-agent script is `code/agent.py`, the join of the code directory and `agent.py` |
| GuiProperties.ParallelScriptPath | gui.py:33 | the parallel runner is `code/run_parallel.py`, the join of the code directory and `run_parallel.py` |
| GuiProperties.ParallelLayout | gui.py:32-44 | parallel mode: the five-element head with `-d run_logs`, then `-n`, `-t`, `-w`, `-o` in that order, each present iff its value is truthy and followed directly by that value; the length is 5 plus 2 per truthy value |
| GuiProperties.ParallelLookup | gui.py:32-44 | reading pairs after the problem path in parallel mode finds the log directory under `-d`, each truthy number as its decimal string under its flag, a truthy prompt under `-o`, and nothing under any other key |
| GuiProperties.ParallelRoundTrip | gui.py:31-44 | in parallel mode the flag/value reader `LookupFlag` finds `run_logs` under `-d`, each number exactly when truthy, the prompt exactly when truthy, and never `--log` or `--other_prompts` |
| GuiProperties.SingleLookup | gui.py:23-30 | reading pairs after the problem path in single mode finds the log file under `--log`, the truthy prompt under `--other_prompts`, and nothing else |
| GuiProperties.SingleRoundTrip | gui.py:23-30 | in single mode the flag/value reader `LookupFlag` finds the log file, and the prompt exactly when truthy, and none of `-d`, `-n`, `-t`, `-w`, `-o` |
| GuiProperties.SingleExact | gui.py:20-28 | single mode without a truthy prompt gives exactly interpreter, `code/agent.py`, problem path, `--log`, log path; for a relative name these are `problems/<name>` and `run_logs/<stem>_log.log` |
| GuiProperties.LogNameRelative | gui.py:21 | the log file name of a relative file name is itself relative |
| GuiProperties.SinglePromptAppends | gui.py:29-30 | a truthy prompt in single mode appends exactly `--other_prompts` and the prompt, leaving the rest as without it |
| GuiProperties.SingleIgnoresNumbers | gui.py:23-30 | in single mode the three numbers have no effect on the list |
| GuiProperties.FalsyNumbersDropped | gui.py:37-42 | a zero or absent number gives the same list as `None` in its place |
| GuiProperties.SingleLength | gui.py:24-30 | single mode gives five arguments, plus two for a truthy prompt |
| GuiProperties.ParallelFiveZeroZero | gui.py:32-42 | parallel with 5 agents, timeout 0, workers 0 and no prompt gives only `-n 5` after `-d run_logs` |
| GuiProperties.ParallelTenZeroZero | gui.py:32-42 | parallel with 10 agents, timeout 0, workers 0 and no prompt gives only `-n 10` after `-d run_logs` |
| GuiProperties.NormalizeAppendsTxtIff | gui.py:73-74 | `.txt` is appended exactly when the name does not already end with it |
| GuiProperties.NormalizeIdempotent | gui.py:73-74 | normalising twice is normalising once |
| GuiProperties.LogNameOfNormalized | gui.py:21 | the log name of a normalised file name is its stem without `.txt` plus `_log`, except when the stem's last component is only dots, where the whole name is kept |
| GuiProperties.LogPathOfNormalized | gui.py:21-27 | the log file of a normalised name is `run_logs` joined with its stem plus `_log.log`, when the stem's last component is not only dots |
| GuiProperties.SingleLogOfNormalized | gui.py:21-30 | single mode on a normalised name sends that log file under `--log` |
| GuiProperties.StartRejectsBlank | gui.py:66-71 | Run gives the input warning, writing and starting nothing, exactly when the problem text or the file name is all whitespace |
| GuiProperties.StartWritesNormalizedFile | gui.py:66-79 | when the text is a trimmed non-empty core between any whitespace and the name is not blank, Run launches, the text written is exactly that core, and for a stripped name `n` not starting with `/` the file is `problems/` + `n`, with `.txt` added unless `n` already ends with it |
| GuiProperties.ProblemPathOfNormalized | gui.py:73-77 | a relative name, `.txt`-normalised, is written directly under `problems/` |
| GuiProperties.StartPrompt | gui.py:85 | a blank prompt field sends no prompt flag; any other is sent stripped, under the flag of the mode's branch |
| GuiProperties.StartNumbers | gui.py:82-84 | a numeric field reaches the child exactly when the mode is "parallel" and the field is not zero, and then with its value |
| GuiProperties.StartSingleLogFile | gui.py:63-95 | in single mode the log file is `run_logs/<stem>_log.log` for the stripped name's stem, when the stem's last component is not only dots |
| GuiProperties.StartDefaultsParallel | gui.py:122-124 | with parallel mode chosen, the initial field values (10, 0, 0) and a blank prompt, only `-n 10` follows the log directory |
| PyStr.Strip | gui.py:66-67 | the result has no whitespace at either end, and is the slice of the input left once the whitespace at both ends is removed |
| PyStr.StripAround | gui.py:66-67 | stripping any whitespace around a trimmed string gives exactly that string |
| PyStr.StripEmptyIff | gui.py:69 | a stripped string is empty exactly when the input is all whitespace |
| PyStr.StripIdempotent | gui.py:85 | stripping twice is stripping once |
| PyStr.NatToDecimal | gui.py:38 | the digits of a natural number denote it and have no leading zero |
| PyStr.IntToStr | gui.py:38 | `str()` of an int is non-empty, ends in a digit and starts with `-` exactly for negative numbers |
| PyStr.IntToStrRoundTrip | gui.py:37-42 | the decimal string of every number reads back as that number |
| PyStr.IntToStrInjective | gui.py:38 | different numbers never give the same string |
| PosixPath.RFind | gui.py:21 | the index of the last occurrence of a character, or -1 when there is none |
| PosixPath.Join | gui.py:20 | the join ends with its second part; an absolute second part is the whole result; otherwise the first part comes first, with at most one separator added |
| PosixPath.JoinRelative | gui.py:20 | a relative name under a directory without a trailing separator is joined with exactly one separator |
| PosixPath.SplitExt | gui.py:21 | root and extension concatenate back to the name; the extension is empty or is one dot followed by neither a dot nor a separator; a non-empty extension starts at the last dot |
| PosixPath.SplitExtTxt | gui.py:21 | for a name ending in `.txt` the extension is exactly `.txt`, unless the last component holds only dots before it |

## Left out

- Starting the child process and relaying its standard output and standard error into the output box (gui.py:46-61). This is I/O with an external process; the model stops at the argument list.
- The daemon thread that runs `run_agent` (gui.py:91-95). It only provides concurrency; a launch is modelled as the command it would run.
- Writing the problem file and creating the two directories at start-up (gui.py:15-16, gui.py:78-79). These are filesystem effects; `Launch` records the path and text that would be written.
- Clearing the output box (gui.py:88), the warning dialog (gui.py:70), and all widget construction and layout (gui.py:97-147). These are user interface.
- Gui.StartExecution: the three numeric fields are read with `IntVar.get` only in mode "parallel" (gui.py:82-84), after the problem file has been written (gui.py:78-79). `IntVar.get` reads a number with a fractional part as its integer part (via the float value), and raises `TclError` for text that is no number at all, such as an empty field. Then the file is written and nothing starts: a third outcome next to the warning and the launch, which the model does not have. The model takes the three fields as integers already read.
- How `agent.py` and `run_parallel.py` parse their arguments is not part of this model. The lemmas state what the flag/value reader `LookupFlag` finds; a parser that treats a value starting with `-` (a prompt such as `-x`) as an option would read the list differently.
- An absolute stripped file name, or one containing `..`, leaves the problems directory, as `os.path.join` does (gui.py:77); the file is written at `os.path.join("problems", name)`, and only relative names are stated to land under `problems/`.
- PosixPath.Join: only the POSIX rules are modelled, not drive letters or backslashes.
- The value of `sys.executable`, which is the parameter `exe`.
- The text widget's trailing newline from `get("1.0", END)`. It is whitespace and is removed by the strip, so `Form.problemText` is taken as any string.
