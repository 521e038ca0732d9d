/** One opt-out workflow step and the single command it dispatches to.

    A workflow file is parsed into a list of steps; each step is a mapping
    from key names to parsed values (an element of the list that is not a
    mapping stops the run when it is read).  The interpreter looks at the `action`
    key, picks the first matching arm of a fixed chain of action names, reads
    the keys that arm needs and issues exactly one command (a browser call, a
    sleep, a prompt or an "unknown action" log line), or stops on a missing
    key or an unresolvable identity field.
 */
module Workflow {

  /** A parsed workflow value.  The interpreter only compares values with
      action names and field names, or passes them on unchanged, so every
      other kind of parsed value (a list, a mapping, a date, ...) is one
      opaque `Other`. */
  datatype Value =
    | Str(text: string)
    | Number(x: real)
    | Bool(b: bool)
    | Null
    | Other

  /** One element of the workflow's step list: a mapping from key name to
      value, or any other parsed value, which cannot be looked into. */
  datatype Step = Mapping(fields: map<string, Value>) | NonMapping

  /** Identity data bundle: field name to the user's value. */
  type Identity = map<string, string>

  /** The arms of the dispatch chain, in the order they are tried. */
  datatype Action =
    | NavigateStep
    | FillStep
    | ClickStep
    | WaitStep
    | PromptStep
    | UnknownStep

  /** What the interpreter asks of the outside world: the browser page,
      the clock, the console, and finally the browser itself. */
  datatype Command =
    | Goto(url: Value)
    | Fill(selector: Value, value: string)
    | Click(selector: Value)
    | Sleep(seconds: Value)
    | Prompt(description: Value)
    | LogUnknown(action: Value)
    | Close

  /** Why a step stopped the workflow; `index` is the step's position. */
  datatype Error =
    | NotAMapping(index: nat)
    | MissingKey(index: nat, key: string)
    | UnknownField(index: nat, field: Value)

  /** The outcome of one step. */
  datatype StepResult = Emit(command: Command) | Fail(error: Error)

  /** First-match dispatch on the action value: only a string equal to one
      of the five action names selects its arm, anything else is unknown. */
  function Classify(action: Value): (a: Action)
    ensures a != UnknownStep ==> action.Str?
    ensures a == NavigateStep <==> action == Str("navigate")
    ensures a == FillStep <==> action == Str("fill")
    ensures a == ClickStep <==> action == Str("click")
    ensures a == WaitStep <==> action == Str("wait")
    ensures a == PromptStep <==> action == Str("prompt_user_to_select_record")
  {
    if action == Str("navigate") then NavigateStep
    else if action == Str("fill") then FillStep
    else if action == Str("click") then ClickStep
    else if action == Str("wait") then WaitStep
    else if action == Str("prompt_user_to_select_record") then PromptStep
    else UnknownStep
  }

  /** The step keys each arm reads, in the order it reads them. */
  function RequiredKeys(a: Action): (keys: seq<string>)
  {
    match a
    case NavigateStep => ["url"]
    case FillStep => ["selector", "field"]
    case ClickStep => ["selector"]
    case WaitStep => ["seconds"]
    case PromptStep => ["description"]
    case UnknownStep => []
  }

  /** A field reference resolves when it is a string naming an identity
      field; any other value can never be a key of the identity bundle. */
  predicate Resolves(field: Value, data: Identity)
  {
    field.Str? && field.text in data
  }

  /** Dispatch table: a step can be carried out when it names an action,
      has every key its arm reads, and, for a fill, its field resolves. */
  predicate Dispatchable(step: Step, data: Identity)
  {
    && step.Mapping?
    && "action" in step.fields
    && (forall k :: k in RequiredKeys(Classify(step.fields["action"])) ==> k in step.fields)
    && (Classify(step.fields["action"]) == FillStep ==>
          "field" in step.fields && Resolves(step.fields["field"], data))
  }

  /** The command kind each arm issues. */
  predicate Issues(a: Action, c: Command)
  {
    match a
    case NavigateStep => c.Goto?
    case FillStep => c.Fill?
    case ClickStep => c.Click?
    case WaitStep => c.Sleep?
    case PromptStep => c.Prompt?
    case UnknownStep => c.LogUnknown?
  }

  /** Carry out one step (the body of the loop over the workflow's steps).
      Its full dispatch table is stated by StepDispatchTable. */
  function StepCommand(step: Step, index: nat, data: Identity): (r: StepResult)
    ensures r.Emit? ==> r.command != Close
    ensures r.Fail? ==> r.error.index == index
  {
    if step.NonMapping? then Fail(NotAMapping(index))
    else if "action" !in step.fields then Fail(MissingKey(index, "action"))
    else
      var action := step.fields["action"];
      match Classify(action)
      case NavigateStep =>
        if "url" !in step.fields then Fail(MissingKey(index, "url"))
        else Emit(Goto(step.fields["url"]))
      case FillStep =>
        if "selector" !in step.fields then Fail(MissingKey(index, "selector"))
        else if "field" !in step.fields then Fail(MissingKey(index, "field"))
        else if !Resolves(step.fields["field"], data) then Fail(UnknownField(index, step.fields["field"]))
        else Emit(Fill(step.fields["selector"], data[step.fields["field"].text]))
      case ClickStep =>
        if "selector" !in step.fields then Fail(MissingKey(index, "selector"))
        else Emit(Click(step.fields["selector"]))
      case WaitStep =>
        if "seconds" !in step.fields then Fail(MissingKey(index, "seconds"))
        else Emit(Sleep(step.fields["seconds"]))
      case PromptStep =>
        if "description" !in step.fields then Fail(MissingKey(index, "description"))
        else Emit(Prompt(step.fields["description"]))
      case UnknownStep =>
        Emit(LogUnknown(action))
  }

  /** The dispatch table of a single step.  It succeeds exactly when the
      step is dispatchable, and then issues one command of its arm's kind
      built from the step's own values (for a fill, from the identity
      bundle).  Otherwise it reports the first problem main.py's lookups
      meet, in the order they are made: not a mapping, no `action`, a
      missing key of the arm (`selector` before `field` for a fill), or an
      unresolvable field. */
  lemma StepDispatchTable(step: Step, index: nat, data: Identity)
    ensures var r := StepCommand(step, index, data);
            r.Emit? <==> Dispatchable(step, data)
    ensures var r := StepCommand(step, index, data);
            r.Emit? ==>
              && Issues(Classify(step.fields["action"]), r.command)
              && (r.command.Goto? ==> r.command.url == step.fields["url"])
              && (r.command.Click? ==> r.command.selector == step.fields["selector"])
              && (r.command.Sleep? ==> r.command.seconds == step.fields["seconds"])
              && (r.command.Prompt? ==> r.command.description == step.fields["description"])
              && (r.command.LogUnknown? ==> r.command.action == step.fields["action"])
    ensures var r := StepCommand(step, index, data);
            r.Emit? && r.command.Fill? ==>
              && r.command.selector == step.fields["selector"]
              && step.fields["field"].Str?
              && step.fields["field"].text in data
              && r.command.value == data[step.fields["field"].text]
    ensures var r := StepCommand(step, index, data);
            r == Fail(NotAMapping(index)) <==> step.NonMapping?
    ensures var r := StepCommand(step, index, data);
            r.Fail? && r.error.MissingKey? ==>
              && step.Mapping?
              && r.error.key !in step.fields
              && (r.error.key == "action" <==> "action" !in step.fields)
              && ("action" in step.fields ==> r.error.key in RequiredKeys(Classify(step.fields["action"])))
    ensures var r := StepCommand(step, index, data);
            (step.Mapping? && "action" in step.fields && Classify(step.fields["action"]) == FillStep
             && "selector" !in step.fields) ==> r == Fail(MissingKey(index, "selector"))
    ensures var r := StepCommand(step, index, data);
            r == Fail(MissingKey(index, "field")) ==> step.Mapping? && "selector" in step.fields
    ensures var r := StepCommand(step, index, data);
            r.Fail? && r.error.UnknownField? ==>
              && step.Mapping? && "selector" in step.fields
              && "action" in step.fields && Classify(step.fields["action"]) == FillStep
              && "field" in step.fields && r.error.field == step.fields["field"]
              && !Resolves(step.fields["field"], data)
  {
  }

  /** Only a fill step reads the identity bundle: every other step gives
      the same result whatever the identity data. */
  lemma OnlyFillReadsIdentity(step: Step, index: nat, d1: Identity, d2: Identity)
    requires step.Mapping? && "action" in step.fields ==> Classify(step.fields["action"]) != FillStep
    ensures StepCommand(step, index, d1) == StepCommand(step, index, d2)
  {
  }

  /** An unrecognised action never stops the workflow: it is logged and
      nothing else happens. */
  lemma UnknownActionIsLogged(step: Step, index: nat, data: Identity)
    requires step.Mapping? && "action" in step.fields && Classify(step.fields["action"]) == UnknownStep
    ensures StepCommand(step, index, data) == Emit(LogUnknown(step.fields["action"]))
  {
  }
}
