/**
  Which of the bot's global actions an inbound text fires, given the dialog
  stack between turns.  The priority is an assumption about the dialog
  engine: the cancel action of `send` (while a `send` frame is on the stack),
  then the reset action, then the triggers of `demo`, `help` and `send`, then
  the pending prompt's validation, and only then delivery to the waiting
  step.  The patterns never overlap, so only the order of actions against
  delivery matters.
 */
module Routing {
  import opened Dialogs
  import opened Patterns

  datatype Routing =
    | CancelSend(at: nat)       // pop the frames from index `at` on
    | ResetAll
    | Trigger(dialog: DialogId) // begin the dialog on top of the stack
    | Retry(prompt: string)     // the reply fails the prompt's minLength
    | Deliver                   // hand the reply to the waiting step
    | StartDefault              // empty stack: begin `default`

  /** Index of the topmost frame of dialog `d`. */
  function LastFrameOf(stack: seq<Frame>, d: DialogId): (r: Option<nat>)
    ensures r.None? <==> forall i :: 0 <= i < |stack| ==> stack[i].dialog != d
    ensures r.Some? ==> r.value < |stack| && stack[r.value].dialog == d
    ensures r.Some? ==> forall j :: r.value < j < |stack| ==> stack[j].dialog != d
  {
    if stack == [] then None
    else if Top(stack).dialog == d then Some(|stack| - 1)
    else
      var r := LastFrameOf(Below(stack), d);
      assert forall i :: 0 <= i < |stack| - 1 ==> Below(stack)[i] == stack[i];
      r
  }

  /** The dialog a trigger pattern selects, if any. */
  function TriggerOf(text: string): (r: Option<DialogId>)
    ensures r == Some(Demo) <==> IsPingText(text)
    ensures r == Some(Help) <==> text == GoHelp
    ensures r == Some(Send) <==> text == GoSend
    ensures r.None? <==> !IsPingText(text) && text != GoHelp && text != GoSend
  {
    ActionPatternsDisjoint(text);
    if IsPingText(text) then Some(Demo)
    else if text == GoHelp then Some(Help)
    else if text == GoSend then Some(Send)
    else None
  }

  /** Some global action takes the text before the waiting step sees it. */
  predicate Intercepted(stack: seq<Frame>, text: string) {
    (IsCancelText(text) && LastFrameOf(stack, Send).Some?) || IsResetText(text) || TriggerOf(text).Some?
  }

  function Route(stack: seq<Frame>, text: string): (r: Routing)
    ensures r.CancelSend? ==> r.at < |stack| && stack[r.at].dialog == Send
    ensures r.Retry? || r.Deliver? ==> stack != []
  {
    var last := LastFrameOf(stack, Send);
    if IsCancelText(text) && last.Some? then CancelSend(last.value)
    else if IsResetText(text) then ResetAll
    else if TriggerOf(text).Some? then Trigger(TriggerOf(text).value)
    else if stack == [] then StartDefault
    else if |text| < MinLength(Top(stack)) then Retry(Top(stack).wait.retryPrompt)
    else Deliver
  }

  /** The routing in full: cancel only with a `send` frame on the stack and
      only down through the topmost one; reset and each trigger whatever the
      stack; a reply too short for the waiting prompt is asked again; only
      an uncaught reply reaches the waiting step. */
  lemma RouteCharacterised(stack: seq<Frame>, text: string)
    ensures var r := Route(stack, text);
      && (r.CancelSend? <==> IsCancelText(text) && LastFrameOf(stack, Send).Some?)
      && (r.CancelSend? ==> r.at == LastFrameOf(stack, Send).value)
      && (IsResetText(text) ==> r == ResetAll)
      && (IsPingText(text) ==> r == Trigger(Demo))
      && (text == GoHelp ==> r == Trigger(Help))
      && (text == GoSend ==> r == Trigger(Send))
      && (r.Trigger? ==> TriggerOf(text) == Some(r.dialog))
      && (r.StartDefault? <==> stack == [] && !Intercepted(stack, text))
      && (r.Retry? <==> stack != [] && !Intercepted(stack, text) && |text| < MinLength(Top(stack)))
      && (r.Retry? ==> r.prompt == Top(stack).wait.retryPrompt)
      && (r.Deliver? <==> stack != [] && !Intercepted(stack, text) && |text| >= MinLength(Top(stack)))
  {
    ActionPatternsDisjoint(text);
  }

  /** The `GO_CANCEL` button of the confirmation card is taken by the cancel
      action: the branch of step 3 of `send` that tests for it is never
      reached through the engine. */
  lemma CancelButtonIsIntercepted(stack: seq<Frame>)
    requires stack != [] && Top(stack).dialog == Send
    ensures Route(stack, GoCancel) == CancelSend(|stack| - 1)
  {
    FoldedLiterals();
    RouteCharacterised(stack, GoCancel);
  }

  /** The `GO_SEND` button of the menu is taken by the trigger of `send`,
      whatever the stack: step 2 of `default` never sees it. */
  lemma SendButtonIsIntercepted(stack: seq<Frame>)
    ensures Route(stack, GoSend) == Trigger(Send)
  {
    RouteCharacterised(stack, GoSend);
  }
}
