/** The opt-out run: build the identity bundle from the four required
    inputs, open a browser, walk the workflow's steps through the dispatch
    chain, and close the browser after the last step.

    The browser, the clock and the console are one command sink, `Driver`,
    that records every command it is given, in order.
 */
module Optout {
  import opened Workflow
  import opened Interpreter

  /** The identity bundle built from the four required inputs. */
  function IdentityBundle(first: string, last: string, email: string, zip: string): (d: Identity)
    ensures d.Keys == {"first_name", "last_name", "email", "zip"}
    ensures |d| == 4
    ensures d["first_name"] == first && d["last_name"] == last
    ensures d["email"] == email && d["zip"] == zip
  {
    map["first_name" := first, "last_name" := last, "email" := email, "zip" := zip]
  }

  /** A fill step that has a selector and names a string field fills in
      the matching input exactly when the field is one of the four bundle
      keys, and fails with an unknown-field error for every other name.
      Other keys of the step play no part. */
  lemma FillFromIdentity(first: string, last: string, email: string, zip: string,
                         step: Step, field: string, index: nat)
    requires step.Mapping? && "action" in step.fields && step.fields["action"] == Str("fill")
    requires "selector" in step.fields && "field" in step.fields && step.fields["field"] == Str(field)
    ensures var data := IdentityBundle(first, last, email, zip);
            var r := StepCommand(step, index, data);
            var selector := step.fields["selector"];
            && (field == "first_name" ==> r == Emit(Fill(selector, first)))
            && (field == "last_name" ==> r == Emit(Fill(selector, last)))
            && (field == "email" ==> r == Emit(Fill(selector, email)))
            && (field == "zip" ==> r == Emit(Fill(selector, zip)))
            && (field !in {"first_name", "last_name", "email", "zip"} ==> r == Fail(UnknownField(index, Str(field))))
  {
  }

  /** The browser session together with the clock and the console, seen
      as the list of commands issued to them. */
  class Driver {
    var trace: seq<Command>
    var closed: bool

    /** Launch a browser and open a page. */
    constructor ()
      ensures trace == [] && !closed
    {
      trace := [];
      closed := false;
    }

    method Goto(url: Value)
      requires !closed
      modifies this
      ensures trace == old(trace) + [Command.Goto(url)] && !closed
    {
      trace := trace + [Command.Goto(url)];
    }

    method Fill(selector: Value, value: string)
      requires !closed
      modifies this
      ensures trace == old(trace) + [Command.Fill(selector, value)] && !closed
    {
      trace := trace + [Command.Fill(selector, value)];
    }

    method Click(selector: Value)
      requires !closed
      modifies this
      ensures trace == old(trace) + [Command.Click(selector)] && !closed
    {
      trace := trace + [Command.Click(selector)];
    }

    /** Suspend the run; the duration is passed through as given. */
    method Sleep(seconds: Value)
      requires !closed
      modifies this
      ensures trace == old(trace) + [Command.Sleep(seconds)] && !closed
    {
      trace := trace + [Command.Sleep(seconds)];
    }

    /** Show the description and wait for the user to confirm. */
    method Prompt(description: Value)
      requires !closed
      modifies this
      ensures trace == old(trace) + [Command.Prompt(description)] && !closed
    {
      trace := trace + [Command.Prompt(description)];
    }

    /** Report an action name the interpreter does not know. */
    method LogUnknown(action: Value)
      requires !closed
      modifies this
      ensures trace == old(trace) + [Command.LogUnknown(action)] && !closed
    {
      trace := trace + [Command.LogUnknown(action)];
    }

    /** Close the browser; nothing can be issued afterwards. */
    method Close()
      requires !closed
      modifies this
      ensures trace == old(trace) + [Command.Close] && closed
    {
      trace := trace + [Command.Close];
      closed := true;
    }
  }

  /** One pass of the loop body: dispatch the step on its action and issue
      its command, or report why it cannot be carried out.  The result is
      the step's entry in the dispatch table, and the browser receives
      exactly the command it issues. */
  method ExecuteStep(browser: Driver, step: Step, index: nat, data: Identity) returns (result: StepResult)
    requires !browser.closed
    modifies browser
    ensures result == StepCommand(step, index, data)
    ensures browser.trace == old(browser.trace) + (if result.Emit? then [result.command] else [])
    ensures !browser.closed
  {
    if step.NonMapping? {
      result := Fail(NotAMapping(index));
    } else if "action" !in step.fields {
      result := Fail(MissingKey(index, "action"));
    } else {
      var action := step.fields["action"];
      if action == Str("navigate") {
        if "url" !in step.fields {
          result := Fail(MissingKey(index, "url"));
        } else {
          browser.Goto(step.fields["url"]);
          result := Emit(Command.Goto(step.fields["url"]));
        }
      } else if action == Str("fill") {
        if "selector" !in step.fields {
          result := Fail(MissingKey(index, "selector"));
        } else if "field" !in step.fields {
          result := Fail(MissingKey(index, "field"));
        } else {
          var field := step.fields["field"];
          if field.Str? && field.text in data {
            browser.Fill(step.fields["selector"], data[field.text]);
            result := Emit(Command.Fill(step.fields["selector"], data[field.text]));
          } else {
            result := Fail(UnknownField(index, field));
          }
        }
      } else if action == Str("click") {
        if "selector" !in step.fields {
          result := Fail(MissingKey(index, "selector"));
        } else {
          browser.Click(step.fields["selector"]);
          result := Emit(Command.Click(step.fields["selector"]));
        }
      } else if action == Str("wait") {
        if "seconds" !in step.fields {
          result := Fail(MissingKey(index, "seconds"));
        } else {
          browser.Sleep(step.fields["seconds"]);
          result := Emit(Command.Sleep(step.fields["seconds"]));
        }
      } else if action == Str("prompt_user_to_select_record") {
        if "description" !in step.fields {
          result := Fail(MissingKey(index, "description"));
        } else {
          browser.Prompt(step.fields["description"]);
          result := Emit(Command.Prompt(step.fields["description"]));
        }
      } else {
        browser.LogUnknown(action);
        result := Emit(Command.LogUnknown(action));
      }
    }
  }

  /** The opt-out run.  The commands issued and the way the run ends are
      those of `Interpret`; the browser is closed exactly when no step
      failed. */
  method RunOptout(first: string, last: string, email: string, zip: string, steps: seq<Step>)
    returns (browser: Driver, outcome: Outcome)
    ensures fresh(browser)
    ensures browser.trace == Interpret(steps, IdentityBundle(first, last, email, zip)).trace
    ensures outcome == Interpret(steps, IdentityBundle(first, last, email, zip)).outcome
    ensures browser.closed <==> outcome.Completed?
  {
    var data := IdentityBundle(first, last, email, zip);
    browser := new Driver();
    var i := 0;
    while i < |steps|
      invariant 0 <= i <= |steps|
      invariant RunSteps(steps[..i], data) == Execution(browser.trace, Completed)
      invariant !browser.closed
    {
      var result := ExecuteStep(browser, steps[i], i, data);
      NextStep(steps, data, i);
      if result.Fail? {
        FailureIsFinal(steps, data, i + 1);
        outcome := Failed(result.error);
        return;
      }
      i := i + 1;
    }
    assert steps[..i] == steps;
    browser.Close();
    outcome := Completed;
  }
}
