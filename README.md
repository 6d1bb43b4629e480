# Broadcaster bot: a Dafny model of its dialog state machine

The bot (`src/index.ts`) is a chat bot for broadcasts. A private user is greeted with a menu. From the menu the user can:

- enter an access code (`code`), which authorises them;
- read a help text (`help`);
- once authorised, type a message and confirm it (`send`). The bot then sends that message to every channel it has been added to.

Two more pieces complete the bot:

- `ping` answers `pong!` (`demo`), and `reset` starts over.
- Membership events keep the list of broadcast channels up to date.

This project models that logic as imperative Dafny. It has five modules:

- `Patterns` (`patterns.dfy`): the anchored literal patterns. The patterns with the `i` flag compare after a lower-case folding.
- `Dialogs` (`dialogs.dfy`): the values the steps work on and the bot's literal texts. It holds the stack predicates and the step decisions that only compute a value: the menu, the menu routing, the guard of `send`, and the user look-up.
- `Stores` (`stores.dfy`): the in-memory stores. It covers the messages one broadcast produces and the `remove` of the document store without `multi`, which removes the first matching record.
- `Routing` (`routing.dfy`): which global action an inbound text fires for a given dialog stack.
- `Broadcaster` (`broadcaster.dfy`): two classes.
  - `Session` holds `userData` and the dialog stack.
  - `Bot` holds `users`, `chats` and the `outbox` of sent messages. It has one method per dialog step, the engine primitives `BeginDialog`/`Apply`, the reset and cancel actions, the turn `HandleMessage`, the two membership handlers, and the broadcast loop.

The dialog engine is not part of the repository. Its behaviour is stated in the model as explicit assumptions:

- A trigger pushes its dialog onto the stack.
- The cancel action of `send` pops the stack from the topmost `send` frame on.
- Actions are consulted in this order: cancel, then reset, then the triggers, then the pending prompt's `minLength`, then delivery to the waiting step. An empty stack begins `default`.
- A waterfall step that takes no dialog action leaves its frame waiting at the next step.
- A frame that is past its last step ends silently on the next reply.
- After a frame ends, its parent frame keeps waiting.

The patterns never overlap (`ActionPatternsDisjoint`), so only the position of delivery in this order matters. `BeginDialog` and `Apply` are mutually recursive: a replace begins the new dialog, whose first step may replace again. This terminates because only `default` is restarted by other dialogs, and `default`'s first step never replaces.

## Model

| member | source | states |
|---|---|---|
| Patterns.FoldChar | src/index.ts:132 | folding changes only Latin and Cyrillic capitals; the result is a Latin lower-case letter exactly when the input is a Latin letter |
| Patterns.Fold | src/index.ts:132 | case folding keeps the length and folds each character in place |
| Patterns.FoldedLiterals | src/index.ts:215 | the texts the matchers compare against are the foldings of `reset`, `ping`, `GO_CANCEL` and `Отмена` |
| Patterns.CancelPayloadFolds | src/index.ts:215 | `GO_CANCEL` folds to `go_cancel` |
| Patterns.CancelWordFolds | src/index.ts:215 | `Отмена` folds to `отмена` |
| Patterns.MatchersIgnoreCase | src/index.ts:214-216 | each matcher holds exactly when the text equals its literal up to case (`/^reset$/i`, `/^ping$/i`, `/^GO_CANCEL$\|^Отмена$/i`) |
| Patterns.IsResetText | src/index.ts:132 | the matcher of `/^reset$/i`; `MatchersIgnoreCase` proves it is the case-insensitive match of `reset` |
| Patterns.IsPingText | src/index.ts:221 | the matcher of `/^ping$/i`; `MatchersIgnoreCase` proves it is the case-insensitive match of `ping` |
| Patterns.IsCancelText | src/index.ts:215 | the matcher of `/^GO_CANCEL$\|^Отмена$/i`; `MatchersIgnoreCase` proves it is the case-insensitive match of either literal |
| Patterns.ResetIgnoresCase | src/index.ts:132 | `RESET` fires the reset action |
| Patterns.PingIgnoresCase | src/index.ts:221 | `Ping` fires the trigger of `demo` |
| Patterns.CancelIgnoresCase | src/index.ts:215 | `Go_Cancel` fires the cancel action |
| Patterns.CancelWordIgnoresCase | src/index.ts:215 | `ОТМЕНА` fires the cancel action |
| Patterns.ActionPatternsDisjoint | src/index.ts:212-222 | no text matches two of reset, ping and cancel; `GO_HELP` and `GO_SEND` match none of them |
| Dialogs.Menu | src/index.ts:75-105 | the menu has two buttons; `GO_SEND` is offered exactly when the user is logged in, `GO_CODE` exactly when not, and `GO_HELP` always comes second |
| Dialogs.MenuCard | src/index.ts:98-105 | the greeting card is titled `Привет!`, carries the user's name, offers `GO_SEND` exactly when logged in, `GO_CODE` exactly when not, and always `GO_HELP` |
| Dialogs.ConfirmCard | src/index.ts:179-186 | the confirmation card shows the reply and offers exactly `GO_SEND_CONFIRM` and `GO_CANCEL` |
| Dialogs.BroadcastBody | src/index.ts:195-206 | a stored text is broadcast as that text; with no stored text the message text is undefined (`Blank`) |
| Dialogs.Lookup | src/index.ts:83-95 | the corrected look-up: afterwards `userLoaded` is set and `message` is kept; an already loaded record is unchanged; a fresh look-up logs the user in exactly when they are registered or already logged in |
| Dialogs.LookupAsWritten | src/index.ts:86-93 | the look-up as written: a fresh look-up logs the user in exactly when the store passes an error (or they were already logged in), whether or not the user is registered |
| Dialogs.AcceptedCodeStillLockedAsWritten | src/index.ts:144-150 | as written, after the code is accepted and the look-up succeeds, the next menu still offers `GO_CODE` and not `GO_SEND` |
| Dialogs.AcceptedCodeUnlocksSend | src/index.ts:144-150 | with the corrected look-up, after the code is accepted the next menu offers `GO_SEND` and not `GO_CODE` |
| Dialogs.DefaultRoute | src/index.ts:118-128 | step 2 of `default` always replaces: with `code` exactly for `GO_CODE`, with `send` exactly for `GO_SEND`, with `default` otherwise |
| Dialogs.SendAsk | src/index.ts:167-176 | step 1 of `send` replaces with `default` exactly when the user is not logged in; otherwise it prompts for the text, with `minLength` 1 and the retry prompt |
| Stores.BroadcastTo | src/index.ts:205-208 | one message per recipient record, in record order, each with the same body |
| Stores.BroadcastAppend | src/index.ts:205-208 | one more record adds exactly one message, at the end |
| Stores.BroadcastOncePerRecord | src/index.ts:205-208 | a broadcast reaches each address exactly as many times as it is recorded, and never reaches an unlisted address |
| Stores.IndexOf | src/index.ts:239 | the index of the first record equal to the address |
| Stores.RemoveFirst | src/index.ts:239 | removing without `multi` drops only the first matching record and keeps the order; the multiset loses one copy; no match changes nothing |
| Stores.InsertThenRemove | src/index.ts:228-240 | adding the bot to a channel that was not listed and then removing it restores the list |
| Routing.LastFrameOf | src/index.ts:214-216 | the index of the topmost frame of a dialog, or none when no frame of it is on the stack |
| Routing.TriggerOf | src/index.ts:158-222 | `demo` exactly for a case-insensitive `ping`, `help` exactly for `GO_HELP`, `send` exactly for `GO_SEND` (case-sensitive), and none otherwise |
| Routing.Route | src/index.ts:131-222 | a cancel always names a `send` frame on the stack; a retry or a delivery only happens with a non-empty stack |
| Routing.RouteCharacterised | src/index.ts:131-222 | cancel fires exactly when the text matches it and a `send` frame is on the stack, and pops from the topmost one; reset and every trigger fire whatever the stack; `default` starts exactly on an empty stack with no action; a reply shorter than the waiting prompt's `minLength` gets the retry prompt; only the remaining replies reach the step |
| Routing.CancelButtonIsIntercepted | src/index.ts:198-216 | with `send` waiting on top, the card's `GO_CANCEL` button fires the cancel action, so step 3's own `GO_CANCEL` branch is not reached |
| Routing.SendButtonIsIntercepted | src/index.ts:212-213 | the menu's `GO_SEND` button always fires the trigger of `send`, so step 2 of `default` does not see it |
| Broadcaster.Session.constructor | src/index.ts:63 | a fresh conversation has empty `userData` and an empty stack |
| Broadcaster.Bot.constructor | src/index.ts:44-54 | the bot starts with the stored users and chats and has sent nothing |
| Broadcaster.Bot.Say | src/index.ts:149 | `session.send` appends exactly one text message to the outbox |
| Broadcaster.Bot.DefaultGreet | src/index.ts:71-116 | a group gets `test`, the dialog ends, and `userData` is unchanged; anyone else is looked up (corrected) and prompted with the menu for the resulting `userLogged` |
| Broadcaster.Bot.CodeAsk | src/index.ts:140-142 | step 1 of `code` prompts for the access code with no validation |
| Broadcaster.Bot.CodeCheck | src/index.ts:144-155 | the exact code adds the sender to `users`, clears only `userLoaded` and says `Код принят`; any other reply leaves `users` and `userData` unchanged and says `Неправильный код`; both replace with `default` |
| Broadcaster.Bot.HelpStep | src/index.ts:158-161 | sends the help text and replaces with `default` |
| Broadcaster.Bot.DemoStep | src/index.ts:218-220 | the `demo` dialog ends with `pong!` |
| Broadcaster.Bot.SendConfirm | src/index.ts:178-192 | stores the reply as `message` and prompts with the confirmation card for that reply |
| Broadcaster.Bot.SendDispatch | src/index.ts:194-211 | always clears `message`; `GO_CANCEL` replaces with `default` and sends nothing; `GO_SEND_CONFIRM` says `Рассылка начата...`, broadcasts the stored text to every record and ends with `Рассылка завершена...`; any other reply takes no action and sends nothing |
| Broadcaster.Bot.Broadcast | src/index.ts:205-208 | the loop appends exactly `BroadcastTo(chats, body)` to the outbox |
| Broadcaster.Bot.BeginDialog | src/index.ts:135 | beginning a dialog leaves the stack at rest, replies only to the sender, and has exactly the effect `Begun` gives for that dialog (menu or `test` for `default`, the code prompt, help then menu, text prompt or menu for `send`, `pong!` for `demo`) |
| Broadcaster.Bot.Apply | src/index.ts:118-128 | replace begins the new dialog in the top frame's place; end pops and says the farewell; prompt sends the body and waits at the next step with the prompt's options; no action waits at the next step and sends nothing |
| Broadcaster.Bot.ReplyStep | src/index.ts:118-211 | the step the top frame waits in runs, with exactly the action and changes `Stepped` gives: the menu routing of `default` step 2; `code` step 2 accepting or refusing the code; `send` step 2 storing the text and prompting with the card; `send` step 3 clearing the text and then cancelling, broadcasting or doing nothing; a frame past its last step ends with nothing said |
| Broadcaster.Bot.Reset | src/index.ts:131-137 | the reset empties `userData` and the stack and begins `default`, whatever the stack held |
| Broadcaster.Bot.CancelSendAction | src/index.ts:214-216 | pops the stack from the given frame on and says `Отменено` |
| Broadcaster.Bot.DeliverReply | src/index.ts:118-211 | the frames below the top are kept, and the whole effect is `Delivered`: the menu reply begins the routed dialog; the accepted code adds the sender and restarts `default` with a fresh look-up that finds them; a refused code restarts `default`; the text for `send` is stored and the card sent, with `send` waiting at step 3; in step 3 `GO_CANCEL` restarts `default`, `GO_SEND_CONFIRM` pops `send` after the start note, the broadcast and the closing note, and any other reply leaves `send` waiting past its last step; a frame past its last step is popped silently |
| Broadcaster.Bot.HandleMessage | src/index.ts:65-222 | a turn keeps the stack at rest; `users` gains the sender exactly when the access code is delivered to `code` and is otherwise unchanged; only a confirmation delivered to `send` step 3 reaches other chats; each routing outcome has its exact effect (cancel pops and says `Отменено`, reset restarts, a trigger begins its dialog on top, a short reply gets the retry prompt and nothing else changes, a delivered reply has the effect `Delivered` gives) |
| Broadcaster.Bot.OnConversationUpdate | src/index.ts:224-241 | the bot being added appends the address to `chats`, greets the channel, and does not look at removals; otherwise the bot being removed drops the first record of the address; otherwise nothing changes |
| Broadcaster.Bot.OnContactRelationUpdate | src/index.ts:243-251 | an `add` gets the greeting; any other action sends nothing |

## Left out

- The dialog engine's internals are not part of this model. Routing priority, how triggers act on the stack, prompt retry and how a parent frame resumes are the assumptions listed above, not verified behaviour.
- The express server, `ChatConnector`, nconf configuration, pretty-error, source-map-support and `console.log` are not modelled. They are I/O plumbing.
- The document store's files are not modelled. `users` is an in-memory set and `chats` an in-memory sequence. Their stored contents are given to `Bot.constructor`.
- The look-up at src/index.ts:86-95 is asynchronous. It is modelled as completing before the menu is built; whether the user is registered is read from `users`.
- `bot.send` and `session.send` are fire-and-forget deliveries. Both are modelled as appends to `outbox`. Delivery failures and success counts are not modelled, because the code has none.
- Hero cards are reduced to their texts and the payloads of their buttons. Button titles and rendering are left out.
- Patterns.FoldChar: folds only Latin A-Z and the Cyrillic capitals U+0400-U+042F. The full Unicode case folding of a case-insensitive regular expression is wider.
- The prompt's `minLength` is compared with the length in characters. JavaScript counts UTF-16 code units.
- `getAllData()` is modelled as returning the records in list order. The store gives no ordering guarantee.
- The engine keeps `userData` per user and the dialog stack per conversation. The model holds both in one `Session`.
- Addresses are compared only on the five fields the model keeps: bot id, user id, user name, conversation id and the group flag. The query `{chat: update.address}` at src/index.ts:239 compares the whole stored address object with the removal event's address, which may carry further per-activity fields. So the model's `OnConversationUpdate` removes a record whenever those five fields agree, while the source may match nothing. `Stores.InsertThenRemove` holds only under the same abstraction.
- The error handler at src/index.ts:253-255 only logs, and is not modelled.

## Findings

| source | as written | input that shows it | evidently intended | confidence | as-written member | corrected member |
|---|---|---|---|---|---|---|
| src/index.ts:87-89 | the `findOne` callback's first parameter is tested, but the document store passes the error there and the document second, so `userLogged` is set only when the look-up fails | a user who entered `4 8 15 16 23 42`: their record is inserted, the look-up succeeds with error `null`, and the next menu offers `GO_CODE` again instead of `GO_SEND` | test the found document, so a registered user is logged in | high; not executed | Dialogs.LookupAsWritten, Dialogs.AcceptedCodeStillLockedAsWritten | Dialogs.Lookup, Dialogs.AcceptedCodeUnlocksSend, Broadcaster.Bot.DefaultGreet |
