/** The chat widget component (components/AIChatDemo.tsx) as an object whose
    fields are its state cells. Each handler is specified by the function of
    module ChatProtocol that it implements, and keeps the turn invariant. */
module ChatWidget {
  import opened Wrappers
  import JsString
  import GeminiService
  import P = ChatProtocol

  class AIChatDemo {
    /** The transcript, in display order. */
    var messages: seq<P.ChatMessage>
    /** The draft in the text box. */
    var input: string
    /** Set while a request is outstanding. */
    var isLoading: bool
    /** The prompts of the handleSend activations suspended at their `await`,
        oldest first. */
    var inFlight: seq<string>

    /** The widget's state as a value. */
    function State(): P.Widget
      reads this
    {
      P.Widget(messages, input, isLoading, inFlight)
    }

    ghost predicate Valid()
      reads this
    {
      P.Turns(State())
    }

    /** Mounting: the seed greeting, an empty draft, idle. */
    constructor ()
      ensures Valid()
      ensures State() == P.Initial
    {
      messages := [P.SEED];
      input := "";
      isLoading := false;
      inFlight := [];
    }

    /** The text box's change handler. */
    method OnChange(text: string)
      requires Valid()
      modifies this
      ensures Valid()
      ensures State() == P.Edit(old(State()), text)
    {
      input := text;
    }

    /** handleSend up to its `await`. Returns the prompt of the request it
        starts, or None when the guard returns early. */
    method HandleSend() returns (prompt: Option<string>)
      requires Valid()
      modifies this
      ensures Valid()
      ensures State() == P.Submit(old(State()))
      ensures prompt == if P.SubmitBlocked(old(State())) then None else Some(old(input))
    {
      ghost var before := State();
      if JsString.Trim(input) == [] || isLoading {
        return None;
      }
      var userText := input;
      input := "";
      messages := messages + [P.ChatMessage(P.User, userText)];
      isLoading := true;
      inFlight := inFlight + [userText];
      prompt := Some(userText);
      assert State() == P.Submit(before);
      P.SubmitKeepsTurns(before);
    }

    /** handleSend after its `await`: the completion client answers the
        oldest suspended prompt, and the answer becomes a model turn. */
    method Resume(env: GeminiService.Env, outcome: GeminiService.CallOutcome)
      requires Valid()
      requires inFlight != []
      modifies this
      ensures Valid()
      ensures State() == P.Step(old(State()), P.Resolve(env, outcome))
    {
      var userText := inFlight[0];
      var responseText := GeminiService.GenerateExpertResponse(env, outcome, userText).text;
      messages := messages + [P.ChatMessage(P.Model, responseText)];
      isLoading := false;
      inFlight := inFlight[1..];
    }

    /** handleKeyPress: Enter goes through handleSend and its guard. */
    method HandleKeyPress(key: string) returns (prompt: Option<string>)
      requires Valid()
      modifies this
      ensures Valid()
      ensures State() == P.KeyDown(old(State()), key)
      ensures prompt == if key == "Enter" && !P.SubmitBlocked(old(State())) then Some(old(input)) else None
    {
      if key == "Enter" {
        prompt := HandleSend();
      } else {
        prompt := None;
      }
    }

    /** The send button's `disabled` attribute: set exactly when the draft is
        blank or a request is in flight. */
    function SendDisabled(): (disabled: bool)
      reads this
      ensures disabled <==> JsString.IsBlank(input) || isLoading
    {
      JsString.TrimEmptyIffBlank(input);
      isLoading || JsString.Trim(input) == []
    }
  }
}
