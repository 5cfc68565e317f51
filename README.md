# oscontrol: the agent's buffer-and-dispatch state machine

`LLMAgent` (oscontrol.py) runs a command under a pseudo-terminal and drives it
with the help of a decision callback (an LLM). It keeps an `output_buffer`
string. Each pass of its loop reads from the child and appends what it read
to the buffer. When the buffer holds anything but whitespace, it asks the
callback for a dictionary and acts on its `"action"` entry:

- `prompt_user`: ask the human (with echo off when `input_type` is
  `"password"`), send the reply with its surrounding whitespace stripped, and
  clear the buffer;
- `send_input`: send `suggested_input` exactly as given and clear the buffer;
- `error`: print the message, and keep the buffer;
- anything else, `wait` included: do nothing.

A missing dictionary key raises `KeyError` before anything is written,
asked or printed, and the exception ends `run_command`.

The project has four modules:

- `Wrappers` (wrappers.dfy): `Option`, for dictionary keys that may be
  missing and replies that may not come.
- `PyStr` (py_str.dfy): Python's `str.isspace` and argument-less
  `str.strip()`. `Strip` is proved to cut only whitespace, to leave no
  whitespace at either end, to be empty exactly for whitespace-only input,
  to be the unique such slice, and to be idempotent.
- `OsControl` (oscontrol.dfy): the decision dictionary (`Decision`), the
  agent's observable state (`Session`), and three specification functions.
  `Handle` is `_handle_output`. `Feed` is one pass of the loop after a read.
  `Run` is `run_command` over a sequence of reads. The class `LlmAgent` has
  the source's fields. Its methods (`__init__`, `_analyze_output`,
  `_handle_output`, the loop body and `run_command`) are proved to move the
  object's state exactly as these functions say. Effects on the outside
  world go to ghost logs: `sent` for `child.sendline`, `asked` for
  `getpass`/`input`, `shown` for `print`, and `consulted` for the buffers
  the callback was given.
- `OsControlProps` (oscontrol_props.dfy): properties of whole runs, and
  example runs.

## Model

| member | source | states |
|---|---|---|
| `PyStr.Strip` | oscontrol.py:51 | `s.strip()` has no whitespace at either end, is no longer than `s`, and is empty exactly when `s` is all whitespace (so the test at line 73 is "the buffer holds a non-whitespace character") |
| `PyStr.StripSlice` | oscontrol.py:51 | `s == s[..i] + s.strip() + s[j..]` for some `i <= j`, with both cut-off parts all whitespace |
| `PyStr.StripIsCore` | oscontrol.py:51 | whenever `s` is whitespace + a middle with no whitespace at its ends + whitespace, `s.strip()` is that middle (a reference definition of strip) |
| `PyStr.StripIdempotent` | oscontrol.py:51 | stripping twice is stripping once |
| `OsControl.Classify` | oscontrol.py:42-60 | the `if`/`elif` chain picks the `prompt_user`, `send_input` or `error` branch exactly when the action equals that name; any other value falls through |
| `OsControl.Handle` | oscontrol.py:38-60 | the callback is consulted once on the whole buffer. At most one line is sent, and the buffer is cleared exactly when a line is sent. On `prompt_user` the human is asked once, with echo off iff `input_type == "password"`, and the stripped reply is sent. On `send_input` the suggested input is sent unchanged. On `error` the message is printed and nothing is sent. Any other action changes nothing. A missing `action`, `message` or `suggested_input` key raises `KeyError` with no effect on child or buffer, before any human prompt or print |
| `OsControl.Feed` | oscontrol.py:70-74 | the read text is appended. A whitespace-only buffer causes nothing else: no callback call, nothing sent, buffer kept. Otherwise the callback sees the old buffer followed by the new text. Output is dropped only when a line is written |
| `OsControl.Run` | oscontrol.py:62-81 | the logs only grow. There is at most one decision per read and at most one line per decision. The callback is never consulted on a whitespace-only buffer. The loop ends without an exception only at end of file |
| `OsControl.LlmAgent.constructor` | oscontrol.py:11-14 | a fresh agent has no child, an empty buffer, empty logs, and keeps the callback it is given |
| `OsControl.LlmAgent.AnalyzeOutput` | oscontrol.py:16-36 | returns the callback's decision on the given output and records the call |
| `OsControl.LlmAgent.HandleOutput` | oscontrol.py:38-60 | changes the object's state exactly as `Handle` says, and reports whether the human was asked |
| `OsControl.LlmAgent.ReadStep` | oscontrol.py:70-74 | the append-then-handle step changes the state exactly as `Feed` says; it tests `Strip(buffer) != []` as the source does |
| `OsControl.LlmAgent.RunCommand` | oscontrol.py:62-81 | attaches the child, then runs the loop over the reads; the final state and the way the loop ended are those of `Run` |
| `OsControlProps.QuietRun` | oscontrol.py:70-74 | while the child prints only whitespace, the callback is never consulted, nothing is sent, nobody is asked, no exception is raised, and the buffer holds all that was printed |
| `OsControlProps.NothingSentNothingLost` | oscontrol.py:70 | unless an exception ended the run, a run that sent no line ends with the old buffer followed by everything the child printed |
| `OsControlProps.BufferIsSuffixOfOutput` | oscontrol.py:52-56 | unless an exception ended the run, the final buffer is a suffix of the old buffer followed by all output: output is dropped only from the front, by a clear |
| `OsControlProps.ReadsAfterEofIgnored` | oscontrol.py:76-78 | the loop stops at end of file: reads after it change nothing |
| `OsControlProps.PromptScenario` | oscontrol.py:42-52 | a `prompt_user` decision asks the human once, masked iff `input_type == "password"`, sends exactly the stripped reply, and empties the buffer |
| `OsControlProps.PasswordExample` | oscontrol.py:45-51 | on a password prompt, the reply `" secret123\t"` reaches the child as `"secret123"` after a masked prompt |
| `OsControlProps.AutoAnswerScenario` | oscontrol.py:54-56 | a `send_input` decision sends the suggested input unchanged without asking anyone; end of file then completes the run |
| `OsControlProps.MissingSuggestionScenario` | oscontrol.py:54-56 | `send_input` without `suggested_input` raises `KeyError`, sends nothing, and keeps the buffer |
| `OsControlProps.WaitScenario` | oscontrol.py:42-60 | a `wait` decision (no branch) keeps the buffer; end of file then completes the run without another decision |
| `OsControlProps.ErrorScenario` | oscontrol.py:58-60 | an `error` decision prints its message and keeps the buffer, so the next decision sees the old output followed by the new |

## Left out

- Process handling by `pexpect.spawn` and `child.expect` (oscontrol.py:64, 69) comes from a library this model cannot see. What lands in `child.before` rather than `child.after` is not modelled. A read is `Output(text)`, the text appended from `child.before`, or `Eof`. The model takes one reading of `expect` for the two special patterns in its list. A timeout is `expect` returning, with `child.before` appended: an `Output` whose text may be empty, after which the callback is consulted again if the buffer still holds text. Under this reading the `except pexpect.TIMEOUT` branch (oscontrol.py:79-81) never runs. End of file is `expect` raising `pexpect.EOF`, which ends the loop (oscontrol.py:76-78). If `expect` instead returns index 1 at end of file, the real loop does not stop, and `Eof` does not model it. Spawning is modelled only as recording the command in `child`.
- Terminal I/O is not modelled: `getpass.getpass`, `input` and `print` (oscontrol.py:47, 49, 59, 77). The human's reply is a parameter; `None` stands for `input()` raising `EOFError` once the human's input is exhausted. Prompts and printed lines are recorded as ghost logs, without the trailing newline `print` adds.
- The prompt text that `_analyze_output` builds around the output (oscontrol.py:27-34) is not modelled. The callback is modelled as a function of the buffer itself. Two consultations on the same buffer therefore always get the same decision, whereas `self.llm` may answer differently each time; this matters when an empty `Output` makes the loop consult the callback again on an unchanged buffer.
- Whatever the callback itself does is not modelled: network calls, exceptions it raises, or returning something that is not a dictionary. Dictionary values are modelled as strings only. Python would also accept other types in an f-string or in `sendline`.
- The Gemini model name, `AgentResult`, `AgentDeps`, the `Agent` instance and the asynchronous `run_agent` / `__main__` (oscontrol.py:83-110) are configuration and asynchronous plumbing. None of them is called by `LLMAgent`.
- `KeyboardInterrupt` and other asynchronous interruptions of the loop are not modelled.
- The loop in `run_command` runs for ever when end of file never comes. `Run` and `RunCommand` are given a finite sequence of reads and stop with `Pending` when it runs out.
- The code has no stall counter, no retry threshold, no decision validation and no lifecycle states. A malformed decision's `KeyError` ends `run_command`. An `error` decision does not clear the buffer.
- Calling `_handle_output` with no child attached is not modelled. In Python that would raise `AttributeError`. `HandleOutput` requires a child, because the source calls `_handle_output` only from `run_command`, after `spawn`.
