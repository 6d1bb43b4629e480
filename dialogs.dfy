/**
  The values the bot's dialogs work on: addresses, inbound and outbound
  messages, the per-user record `userData`, dialog frames and the action a
  step ends with, together with the bot's literal texts and the step logic
  that only decides (no state of its own).
 */
module Dialogs {

  datatype Option<T> = None | Some(value: T)

  type UserId = string

  /** A channel address: the bot's own id, the user, the conversation and
      whether that conversation is a group. */
  datatype Address = Address(botId: string, userId: UserId, userName: string, conversationId: string, isGroup: bool)

  /** An inbound message: where it came from and its raw text (a card
      button delivers its postBack payload as the text). */
  datatype Inbound = Inbound(address: Address, text: string)

  /** An outbound message body.  A hero card is reduced to its texts and the
      payloads of its buttons; `Blank` is a message whose text was undefined. */
  datatype Body =
    | Text(text: string)
    | Blank
    | Card(title: string, subtitle: string, text: string, buttons: seq<string>)

  datatype Msg = Msg(to: Address, body: Body)

  /** `session.userData`.  An absent field reads as false / None. */
  datatype UserData = UserData(userLoaded: bool, userLogged: bool, message: Option<string>)

  /** `session.userData = {}` */
  const EmptyUserData := UserData(false, false, None)

  datatype DialogId = Default | Code | Help | Send | Demo

  /** A frame that is running its step, or one that has ended a step and
      waits for the next reply; a prompt's validation options ride along. */
  datatype Wait = Running | Waiting(minLength: nat, retryPrompt: string)

  /** One activation of a dialog: `step` is the index of the step that runs
      next (the one that receives the reply while the frame waits). */
  datatype Frame = Frame(dialog: DialogId, step: nat, wait: Wait)

  /** What a step ends with: `session.replaceDialog(d)`,
      `session.endDialog(text?)`, `Prompts.text(session, body, options)`, or
      nothing at all. */
  datatype Action =
    | Replace(dialog: DialogId)
    | End(farewell: Option<string>)
    | Prompt(body: Body, minLength: nat, retryPrompt: string)
    | Stay

  // The bot's literals.
  const AccessCode := "4 8 15 16 23 42"
  const GoCode := "GO_CODE"
  const GoSend := "GO_SEND"
  const GoHelp := "GO_HELP"
  const GoSendConfirm := "GO_SEND_CONFIRM"
  const GoCancel := "GO_CANCEL"
  const GroupReply := "test"
  const GreetTitle := "Привет!"
  const GreetText := "Вам доступны следующие функции"
  const CodePrompt := "Введите код доступа"
  const CodeAccepted := "Код принят"
  const CodeRejected := "Неправильный код"
  const HelpText := "Справочное сообщение бла бла бла..."
  const BroadcastPrompt := "Введите текст сообщения для рассылки"
  const BroadcastRetry := "Введите непустое сообщение"
  const ConfirmTitle := "Подтвердите отправку"
  const ConfirmSubtitle := "Ваше сообщение:"
  const BroadcastStarted := "Рассылка начата..."
  const BroadcastDone := "Рассылка завершена..."
  const Cancelled := "Отменено"
  const Pong := "pong!"
  const ChannelWelcome := "Всем привет! Канал добавлен в рассылку."
  const ContactWelcome := "Привет! Напиши мне что-нибудь для начала."

  /** Number of waterfall steps of each dialog. */
  function StepCount(d: DialogId): nat {
    match d
    case Default => 2
    case Code => 2
    case Help => 1
    case Send => 3
    case Demo => 1
  }

  /** `default` is the only dialog that the others restart; it ranks lowest. */
  function Rank(d: DialogId): nat {
    if d == Default then 0 else 1
  }

  function Top(stack: seq<Frame>): Frame
    requires stack != []
  {
    stack[|stack| - 1]
  }

  function Below(stack: seq<Frame>): seq<Frame>
    requires stack != []
  {
    stack[..|stack| - 1]
  }

  /** A frame between turns: waiting, at a step past its first one and at most
      one past its last one. */
  predicate Settled(f: Frame) {
    f.wait.Waiting? && 1 <= f.step <= StepCount(f.dialog)
  }

  /** The dialog stack between turns: every frame waits. */
  predicate AtRest(stack: seq<Frame>) {
    forall i :: 0 <= i < |stack| ==> Settled(stack[i])
  }

  /** A step that prompts or stays leaves its frame at the next step, which
      must still be inside the dialog (or one past its last step). */
  predicate Fits(f: Frame, a: Action) {
    (a.Prompt? || a.Stay?) ==> f.step + 1 <= StepCount(f.dialog)
  }

  function MinLength(f: Frame): nat {
    if f.wait.Waiting? then f.wait.minLength else 0
  }

  /** The payloads of the greeting card's buttons. */
  function Menu(logged: bool): (buttons: seq<string>)
    ensures |buttons| == 2
    ensures GoSend in buttons <==> logged
    ensures GoCode in buttons <==> !logged
    ensures buttons[1] == GoHelp
  {
    assert GoSend != GoCode && GoSend != GoHelp && GoCode != GoHelp by {
      assert GoSend[3] != GoCode[3] && GoSend[3] != GoHelp[3] && GoCode[3] != GoHelp[3];
    }
    (if logged then [GoSend] else [GoCode]) + [GoHelp]
  }

  /** The greeting card of the `default` dialog. */
  function MenuCard(to: Address, logged: bool): (card: Body)
    ensures card.Card? && card.title == GreetTitle && card.subtitle == to.userName
    ensures GoSend in card.buttons <==> logged
    ensures GoCode in card.buttons <==> !logged
    ensures GoHelp in card.buttons
  {
    Card(GreetTitle, to.userName, GreetText, Menu(logged))
  }

  /** The confirmation card of the `send` dialog. */
  function ConfirmCard(response: string): (card: Body)
    ensures card.Card? && card.text == response
    ensures GoSendConfirm in card.buttons && GoCancel in card.buttons && |card.buttons| == 2
  {
    Card(ConfirmTitle, ConfirmSubtitle, response, [GoSendConfirm, GoCancel])
  }

  /** The body of one broadcast message: the stored text, which is undefined
      when no text was stored. */
  function BroadcastBody(stored: Option<string>): (body: Body)
    ensures body.Blank? <==> stored.None?
    ensures stored.Some? ==> body == Text(stored.value)
  {
    match stored
    case Some(t) => Text(t)
    case None => Blank
  }

  /** The user look-up of the `default` dialog's first step as evidently
      intended: on the first greeting the record is marked loaded, and the
      user is logged in when the authorisation store holds them. */
  function Lookup(ud: UserData, registered: bool): (r: UserData)
    ensures r.userLoaded && r.message == ud.message
    ensures ud.userLoaded ==> r == ud
    ensures !ud.userLoaded ==> (r.userLogged <==> ud.userLogged || registered)
  {
    if ud.userLoaded then ud
    else ud.(userLoaded := true, userLogged := ud.userLogged || registered)
  }

  /** The same look-up as the source writes it: the callback tests its first
      argument, which the document store fills with the error (and passes the
      found document second), so whether the user is registered plays no part
      and only a failed look-up logs the user in. */
  function LookupAsWritten(ud: UserData, err: Option<string>): (r: UserData)
    ensures r.userLoaded && r.message == ud.message
    ensures ud.userLoaded ==> r == ud
    ensures !ud.userLoaded ==> (r.userLogged <==> ud.userLogged || err.Some?)
  {
    if ud.userLoaded then ud
    else
      match err
      case Some(_) => ud.(userLoaded := true, userLogged := true)
      case None => ud.(userLoaded := true)
  }

  /** As written, a look-up that succeeds never logs anybody in: after the
      access code is accepted (which only clears `userLoaded`) the next menu
      offers the code again instead of the broadcast. */
  lemma AcceptedCodeStillLockedAsWritten(ud: UserData)
    requires !ud.userLogged
    ensures var after := LookupAsWritten(ud.(userLoaded := false), None);
            !after.userLogged && GoCode in Menu(after.userLogged) && GoSend !in Menu(after.userLogged)
  {
  }

  /** With the corrected look-up, a user whose code was accepted is offered
      the broadcast by the next menu, whatever the record held before: the
      accepted code puts the user into the authorisation store and clears
      only `userLoaded`, so the next greeting looks the user up and finds
      them. */
  lemma AcceptedCodeUnlocksSend(ud: UserData)
    ensures var after := Lookup(ud.(userLoaded := false), true);
            after.userLogged && GoSend in Menu(after.userLogged) && GoCode !in Menu(after.userLogged)
  {
  }

  /** Step 2 of `default`: route the menu reply. */
  function DefaultRoute(response: string): (a: Action)
    ensures a.Replace?
    ensures a.dialog == Code <==> response == GoCode
    ensures a.dialog == Send <==> response == GoSend
    ensures a.dialog == Code || a.dialog == Send || a.dialog == Default
  {
    if response == GoCode then Replace(Code)
    else if response == GoSend then Replace(Send)
    else Replace(Default)
  }

  /** Step 1 of `send`: only a logged-in user is asked for the text, with a
      prompt that insists on at least one character. */
  function SendAsk(ud: UserData): (a: Action)
    ensures a.Replace? <==> !ud.userLogged
    ensures a.Replace? ==> a.dialog == Default
    ensures !a.Replace? ==> a.Prompt? && a.minLength == 1 && a.body == Text(BroadcastPrompt) && a.retryPrompt == BroadcastRetry
  {
    if !ud.userLogged then Replace(Default)
    else Prompt(Text(BroadcastPrompt), 1, BroadcastRetry)
  }
}
