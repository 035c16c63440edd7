/** The quick prompt box: a message, a loading flag that guards against a second submission
    while one is in flight, and a voice-input toggle. */
module QuickAIInput {
  import opened JsRuntime

  /** `!message.trim() || isLoading`: the submit button's `disabled` and the early return of
      `handleSubmit`. */
  predicate Blocked(message: string, isLoading: bool) {
    IsBlank(message) || isLoading
  }

  /** A message with a character other than whitespace can be sent unless one is in flight. */
  lemma BlockedIff(message: string, isLoading: bool)
    ensures Blocked(message, isLoading) <==> AllWhitespace(message) || isLoading
  {
    BlankIffAllWhitespace(message);
  }

  /** How the promise returned by `onSubmit` settles. */
  datatype Outcome = Resolved | Rejected(reason: string)

  class QuickInput {
    var message: string
    var isLoading: bool
    var isListening: bool

    constructor ()
      ensures message == "" && !isLoading && !isListening
    {
      message, isLoading, isListening := "", false, false;
    }

    predicate SubmitDisabled()
      reads this
    {
      Blocked(message, isLoading)
    }

    /** Typing in the input. */
    method EditMessage(text: string)
      modifies this
      ensures message == text && isLoading == old(isLoading) && isListening == old(isListening)
    {
      message := text;
    }

    /** `handleSubmit` up to the `await`: a disabled submission changes nothing and sends
        nothing; otherwise `isLoading` goes up and `onSubmit` receives the message as typed,
        untrimmed. */
    method Submit() returns (sent: Option<string>)
      modifies this
      ensures old(SubmitDisabled()) ==> sent == None && unchanged(this)
      ensures !old(SubmitDisabled()) ==> sent == Some(old(message)) && isLoading
      ensures message == old(message) && isListening == old(isListening)
    {
      if Blocked(message, isLoading) {
        sent := None;
        return;
      }
      isLoading := true;
      sent := Some(message);
    }

    /** After the `await`: the message is cleared only when `onSubmit` resolved; `finally`
        lowers `isLoading` either way. There is no `catch`, so a rejection of `onSubmit`
        escapes the handler: `uncaught` is the reason its promise rejects with. */
    method SubmitSettled(outcome: Outcome) returns (uncaught: Option<string>)
      requires isLoading
      modifies this
      ensures !isLoading && isListening == old(isListening)
      ensures message == if outcome.Resolved? then "" else old(message)
      ensures uncaught == if outcome.Rejected? then Some(outcome.reason) else None
    {
      match outcome {
        case Resolved =>
          message := "";
          uncaught := None;
        case Rejected(reason) =>
          uncaught := Some(reason);
      }
      isLoading := false;
    }

    /** The microphone button. */
    method ToggleVoiceInput()
      modifies this
      ensures isListening == !old(isListening)
      ensures message == old(message) && isLoading == old(isLoading)
    {
      isListening := !isListening;
    }
  }

  /** A whole accepted submission: while `onSubmit` is pending the box is loading and a second
      submission sends nothing; when it settles the box is idle again, empty if it resolved
      and still holding the message, with the rejection escaping the handler, if it was
      rejected. */
  method SubmitRoundTrip(text: string, outcome: Outcome)
    returns (first: Option<string>, second: Option<string>, after: string, loadingAfter: bool,
             uncaught: Option<string>)
    requires !AllWhitespace(text)
    ensures first == Some(text) && second == None
    ensures after == (if outcome.Resolved? then "" else text) && !loadingAfter
    ensures uncaught == if outcome.Rejected? then Some(outcome.reason) else None
  {
    var box := new QuickInput();
    box.EditMessage(text);
    BlockedIff(text, false);
    first := box.Submit();
    second := box.Submit();
    uncaught := box.SubmitSettled(outcome);
    after, loadingAfter := box.message, box.isLoading;
  }

  /** Toggling voice input twice leaves the box as it was. */
  method ToggleTwice(box: QuickInput)
    modifies box
    ensures box.isListening == old(box.isListening)
    ensures box.message == old(box.message) && box.isLoading == old(box.isLoading)
  {
    box.ToggleVoiceInput();
    box.ToggleVoiceInput();
  }
}
