# Opt-out step interpreter

A Dafny model of the opt-out runner `run_optout` in Privotron. The runner builds an
identity bundle from four required inputs: first name, last name, email and zip.
It then walks the steps of a workflow file in list order. It dispatches each step
on its `action` string through a first-match chain (`navigate`, `fill`, `click`,
`wait`, `prompt_user_to_select_record`, anything else) and closes the browser after
the last step.

The browser page, the clock and the console are modelled as one command sink. It
records every command it receives, in order: `Goto`, `Fill`, `Click`, `Sleep`,
`Prompt`, `LogUnknown` and `Close`. With that sink, the run is a deterministic
translation from a step list and an identity bundle to a command trace and an
outcome.

- `workflow.dfy`, module `Workflow`: parsed values, steps, commands and errors.
  It also holds the dispatch chain (`Classify`) and the effect of a single step
  (`StepCommand`). The lemma `StepDispatchTable` states the dispatch table: the
  keys each arm reads, the one command it issues, and the error when a key or
  identity field is missing.
- `interpreter.dfy`, module `Interpreter`: the whole run as functions
  (`RunSteps`, `Interpret`). The lemmas state that trace order follows step order,
  that execution stops at the first failing step, that the browser closes exactly
  once and only on the normal path, and that the trace only ever grows.
- `optout.dfy`, module `Optout`: the identity bundle, the `Driver` command sink
  (a class whose `trace` the commands append to) and `RunOptout`. `RunOptout` is
  the imperative loop. Its body, the source's if/elif chain, is `ExecuteStep`.
  `RunOptout` is proved to issue
  exactly the trace of `Interpret`, with the same outcome.

A step that fails raises an exception in the source. The model returns
`Failed(error)` instead and keeps the commands already issued, because those have
already taken effect. There are three errors:

- `NotAMapping(index)`: the step list element is not a mapping, so reading its
  `action` raises.
- `MissingKey(index, key)`: a step key the branch reads is missing.
- `UnknownField(index, field)`: a fill's field reference is not in the identity
  bundle. A non-string field reference can never be a key of the bundle, so it
  also gives `UnknownField`.

The fill branch reads `selector`, then `field`, then the bundle value (main.py:31
evaluates the call's arguments left to right). So a fill without `selector`
always reports `selector`, whatever else is wrong with it.

Other facts about main.py that the model keeps:

- The dispatch chain at main.py:28-41 has no branch for any other action name.
  Every other name falls into the unknown-action branch, which logs and continues.
- The bare lookup error propagates out of the loop.
- main.py:43 is not reached when a step raises, so the browser is never
  explicitly closed after a failure (`closed` stays false).

## Model

| member | source | states |
|---|---|---|
| `Workflow.Classify` | main.py:27-41 | Only a string equal to one of the five action names selects its arm; each arm is selected iff the action equals its name, so at most one arm matches and every other value is unknown |
| `Workflow.StepCommand` | main.py:27-41 | One step issues at most one command and never `Close`, and a failure carries this step's index. Its full dispatch table is `StepDispatchTable` |
| `Workflow.StepDispatchTable` | main.py:27-41 | A step succeeds iff it is a mapping, has `action`, has every key its branch reads, and (for fill) names a field that resolves in the identity bundle. On success it issues exactly one command of its branch's kind, carrying the step's own url/selector/seconds/description/action, or for fill the bundle value of the named field. A failure is one of: that the step is not a mapping (exactly when it is not), an absent key (`action` exactly when the step has none), or the unresolvable field of a fill. A fill without `selector` always reports `selector`, and a missing `field` or an unresolvable field is reported only when `selector` is present |
| `Workflow.OnlyFillReadsIdentity` | main.py:28-41 | Every step that is not a fill gives the same result under any identity bundle |
| `Workflow.UnknownActionIsLogged` | main.py:40-41 | A step whose action is unrecognised never fails and only logs its action |
| `Interpreter.RunSteps` | main.py:26-41 | The loop over the steps without the close: at most one command per step, one per step when it completes, a failure at the position of the first unissued step, and never `Close`. Its full characterisation is `RunStepsCharacterized` |
| `Interpreter.Interpret` | main.py:26-43 | The loop followed by `browser.close()`: `Close` is in the trace iff the run completed, and then it is the one command after one per step. A failed run is shorter than the step list and fails at the position where its trace ends. Its full characterisation is `InterpretCharacterized` |
| `Interpreter.RunStepsFollowsSteps` | main.py:26-41 | By induction on the steps: the trace issues each step's command at that step's position, and a failure carries the error of the step just after the trace |
| `Interpreter.RunStepsCharacterized` | main.py:26-41 | The trace is the commands of the longest dispatchable prefix of the steps, in step order. The run completes iff every step is dispatchable, with one command per step. Otherwise it fails with the error of the first non-dispatchable step |
| `Interpreter.FailureIsFinal` | main.py:26-41 | Once a prefix of the steps has failed, no later step runs: the whole run equals that prefix's run |
| `Interpreter.TraceExtendsPrefix` | main.py:26-41 | The trace for a prefix of the steps is a prefix of the trace for all of them (commands are only appended, never reordered) |
| `Interpreter.NextStep` | main.py:26-41 | After a completed prefix, one more step appends its command or fails with its error, leaving the trace unchanged |
| `Interpreter.InterpretCharacterized` | main.py:26-43 | A run completes iff every step is dispatchable. It then issues one command per step in order, none of them `Close`, followed by exactly one `Close`. A failed run stops before the first failing step, carries that step's error and contains no `Close` |
| `Interpreter.WithoutFillIdentityIsIrrelevant` | main.py:26-43 | A workflow with no fill step runs the same for every identity bundle |
| `Optout.IdentityBundle` | main.py:15-20 | The bundle has exactly the four keys `first_name`, `last_name`, `email`, `zip`, bound to the first, last, email and zip inputs |
| `Optout.FillFromIdentity` | main.py:15-31 | Any fill step (whatever other keys it has) with a selector and a string field fills that selector with the matching input when the field is one of the four bundle keys; any other field name fails with an unknown-field error |
| `Optout.Driver.constructor` | main.py:22-24 | A freshly launched browser has issued nothing and is open |
| `Optout.Driver.Goto` | main.py:29 | Appends one `Goto` with the url; only an open browser accepts it |
| `Optout.Driver.Fill` | main.py:31 | Appends one `Fill` with the selector and value; only an open browser accepts it |
| `Optout.Driver.Click` | main.py:33 | Appends one `Click` with the selector; only an open browser accepts it |
| `Optout.Driver.Sleep` | main.py:35 | Appends one `Sleep` with the duration as given |
| `Optout.Driver.Prompt` | main.py:37-39 | Appends one `Prompt` with the description (shown, then waited on) |
| `Optout.Driver.LogUnknown` | main.py:41 | Appends one `LogUnknown` with the action value |
| `Optout.Driver.Close` | main.py:43 | Appends `Close` and closes the browser, after which no command is accepted |
| `Optout.ExecuteStep` | main.py:27-41 | One pass of the loop body through the if/elif chain: the result is the step's dispatch-table entry, and the browser receives exactly the command issued, or nothing when the step fails |
| `Optout.RunOptout` | main.py:11-43 | The loop over the steps issues exactly the trace of `Interpret` on the identity bundle and ends with its outcome. The browser is closed iff no step failed, and no command is issued after the close |

## Left out

- Loading the workflow file and parsing it as YAML (main.py:12-13): file I/O and a foreign parser. The parsed step list is an input, and a missing or non-list `steps` entry is not modelled.
- Command-line option parsing and the entry point (main.py:1, 6-11, 45-46): a library wrapper. All four options are required, so the four inputs are plain strings with no precondition.
- Launching the browser and opening a page (main.py:22-24), and what `goto`, `fill` and `click` do to a real page: foreign library calls. They are replaced by the recorded command trace. Errors these calls raise (a bad url, a missing element, a non-string selector) are not modelled.
- `time.sleep` and the blocking `input()` (main.py:35, 39): real time and human input. They are recorded as `Sleep` and `Prompt` entries. A negative or non-numeric duration, which `time.sleep` rejects, is not modelled.
- The console text printed for prompts and unknown actions (main.py:37-38, 41): only the printed value is kept, not the message layout.
- Parsed values other than strings, numbers, booleans and null (lists, mappings, dates, binary values) are one opaque `Other` value. The interpreter only compares values with names or passes them on, so their contents play no part.
- The teardown done by the library when the `with sync_playwright()` block at main.py:22 exits on an exception: that happens inside the library. The model records only the explicit `browser.close()` at main.py:43.
