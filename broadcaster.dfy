/**
  The bot itself: the per-conversation session the dialog engine keeps
  (`session.userData` and the dialog stack), the bot's stores of authorised
  users and broadcast recipients, and the messages it sends.  There is one
  method per step of the five dialogs, the engine primitives those steps end
  with, the reset action, the handlers of membership events, and the
  broadcast loop.

  The engine is not part of the repository; what it does with a step's
  action is written out in `BeginDialog`, `Apply` and `HandleMessage` as an
  assumption (see `Routing` for the order of the global actions).
 */
module Broadcaster {
  import opened Dialogs
  import opened Stores
  import opened Routing
  import opened Patterns

  /** `conversationUpdate`: the ids of the members added and removed (an
      absent list is empty). */
  datatype MembershipUpdate = MembershipUpdate(address: Address, membersAdded: seq<string>, membersRemoved: seq<string>)

  /** `contactRelationUpdate` */
  datatype ContactUpdate = ContactUpdate(address: Address, action: string)

  /** The engine's state for one conversation. */
  class Session {
    var userData: UserData
    var stack: seq<Frame>

    constructor ()
      ensures userData == EmptyUserData && stack == []
    {
      userData := EmptyUserData;
      stack := [];
    }
  }

  /** Everything sent after `out0` went back to `to`. */
  ghost predicate Replies(out0: seq<Msg>, out: seq<Msg>, to: Address) {
    out0 <= out && forall i :: |out0| <= i < |out| ==> out[i].to == to
  }

  /** The effect of beginning `default` on stack `st0`: a group gets `test`
      and the dialog ends at once; anybody else is looked up and shown the
      menu, and the new frame waits for the reply. */
  ghost predicate Greeted(st0: seq<Frame>, ud0: UserData, out0: seq<Msg>,
                          st: seq<Frame>, ud: UserData, out: seq<Msg>, to: Address, registered: bool)
  {
    if to.isGroup then
      st == st0 && ud == ud0 && out == out0 + [Msg(to, Text(GroupReply))]
    else
      st == st0 + [Frame(Default, 1, Waiting(0, ""))] && ud == Lookup(ud0, registered) &&
      out == out0 + [Msg(to, MenuCard(to, ud.userLogged))]
  }

  /** The effect of beginning dialog `d` on stack `st0`, up to the point where
      the engine waits for the next message. */
  ghost predicate Begun(d: DialogId, st0: seq<Frame>, ud0: UserData, out0: seq<Msg>,
                        st: seq<Frame>, ud: UserData, out: seq<Msg>, to: Address, registered: bool)
  {
    match d
    case Default => Greeted(st0, ud0, out0, st, ud, out, to, registered)
    case Code =>
      st == st0 + [Frame(Code, 1, Waiting(0, ""))] && ud == ud0 && out == out0 + [Msg(to, Text(CodePrompt))]
    case Help => Greeted(st0, ud0, out0 + [Msg(to, Text(HelpText))], st, ud, out, to, registered)
    case Send =>
      if ud0.userLogged then
        st == st0 + [Frame(Send, 1, Waiting(1, BroadcastRetry))] && ud == ud0 &&
        out == out0 + [Msg(to, Text(BroadcastPrompt))]
      else Greeted(st0, ud0, out0, st, ud, out, to, registered)
    case Demo => st == st0 && ud == ud0 && out == out0 + [Msg(to, Text(Pong))]
  }

  /** What the step the frame `f` waits in does with the reply `m`: the
      action it ends with and its own changes to `userData`, `users` and the
      outbox, before the engine carries out the action.  A frame past its
      last step has no step left and ends. */
  ghost predicate Stepped(f: Frame, m: Inbound, chats: seq<Address>,
                          ud0: UserData, out0: seq<Msg>, users0: set<UserId>,
                          ud: UserData, out: seq<Msg>, users: set<UserId>, a: Action)
  {
    var to := m.address;
    if f.dialog == Default && f.step == 1 then
      a == DefaultRoute(m.text) && users == users0 && ud == ud0 && out == out0
    else if f.dialog == Code && f.step == 1 then
      a == Replace(Default) &&
      if m.text == AccessCode then
        users == users0 + {to.userId} && ud == ud0.(userLoaded := false) && out == out0 + [Msg(to, Text(CodeAccepted))]
      else
        users == users0 && ud == ud0 && out == out0 + [Msg(to, Text(CodeRejected))]
    else if f.dialog == Send && f.step == 1 then
      a == Prompt(ConfirmCard(m.text), 0, "") && users == users0 && ud == ud0.(message := Some(m.text)) && out == out0
    else if f.dialog == Send && f.step == 2 then
      users == users0 && ud == ud0.(message := None) &&
      if m.text == GoCancel then a == Replace(Default) && out == out0
      else if m.text == GoSendConfirm then
        a == End(Some(BroadcastDone)) &&
        out == out0 + [Msg(to, Text(BroadcastStarted))] + BroadcastTo(chats, BroadcastBody(ud0.message))
      else a == Stay && out == out0
    else
      a == End(None) && users == users0 && ud == ud0 && out == out0
  }

  /** The effect of a reply that reaches the step the top frame of `st0`
      waits in, up to the point where the engine waits again. */
  ghost predicate Delivered(m: Inbound, chats: seq<Address>,
                            st0: seq<Frame>, ud0: UserData, out0: seq<Msg>, users0: set<UserId>,
                            st: seq<Frame>, ud: UserData, out: seq<Msg>, users: set<UserId>)
    requires st0 != []
  {
    var f := Top(st0);
    var to := m.address;
    var registered := to.userId in users;
    if f.dialog == Default && f.step == 1 then
      users == users0 && Begun(DefaultRoute(m.text).dialog, Below(st0), ud0, out0, st, ud, out, to, registered)
    else if f.dialog == Code && f.step == 1 then
      if m.text == AccessCode then
        users == users0 + {to.userId} &&
        Begun(Default, Below(st0), ud0.(userLoaded := false), out0 + [Msg(to, Text(CodeAccepted))], st, ud, out, to, registered)
      else
        users == users0 &&
        Begun(Default, Below(st0), ud0, out0 + [Msg(to, Text(CodeRejected))], st, ud, out, to, registered)
    else if f.dialog == Send && f.step == 1 then
      users == users0 && st == Below(st0) + [Frame(Send, 2, Waiting(0, ""))] &&
      ud == ud0.(message := Some(m.text)) && out == out0 + [Msg(to, ConfirmCard(m.text))]
    else if f.dialog == Send && f.step == 2 then
      users == users0 &&
      if m.text == GoCancel then
        Begun(Default, Below(st0), ud0.(message := None), out0, st, ud, out, to, registered)
      else if m.text == GoSendConfirm then
        st == Below(st0) && ud == ud0.(message := None) &&
        out == out0 + [Msg(to, Text(BroadcastStarted))] + BroadcastTo(chats, BroadcastBody(ud0.message)) +
               [Msg(to, Text(BroadcastDone))]
      else
        st == Below(st0) + [Frame(Send, 3, Waiting(0, ""))] && ud == ud0.(message := None) && out == out0
    else
      users == users0 && st == Below(st0) && ud == ud0 && out == out0
  }

  lemma RepliesTrans(out0: seq<Msg>, out1: seq<Msg>, out2: seq<Msg>, to: Address)
    requires Replies(out0, out1, to) && Replies(out1, out2, to)
    ensures Replies(out0, out2, to)
  {
    forall i | |out0| <= i < |out2| ensures out2[i].to == to {
      if i < |out1| { assert out2[i] == out1[i]; }
    }
  }

  lemma AtRestPrefix(stack: seq<Frame>, n: nat)
    requires AtRest(stack) && n <= |stack|
    ensures AtRest(stack[..n])
  {
    assert forall i :: 0 <= i < n ==> stack[..n][i] == stack[i];
  }

  class Bot {
    /** The authorisation store: ids of users that entered the access code. */
    var users: set<UserId>
    /** The broadcast recipients, one record per channel the bot was added to. */
    var chats: seq<Address>
    /** Everything the bot has sent, in the order it was sent. */
    var outbox: seq<Msg>

    /** The bot starts with whatever its two stores hold. */
    constructor (storedUsers: set<UserId>, storedChats: seq<Address>)
      ensures users == storedUsers && chats == storedChats && outbox == []
    {
      users := storedUsers;
      chats := storedChats;
      outbox := [];
    }

    method Say(to: Address, text: string)
      modifies this`outbox
      ensures outbox == old(outbox) + [Msg(to, Text(text))]
    {
      outbox := outbox + [Msg(to, Text(text))];
    }

    // ---- the steps ---------------------------------------------------------

    /** Step 1 of `default`: greet a private conversation with the menu
        (looking the user up the first time), answer a group with `test`. */
    method DefaultGreet(s: Session, m: Inbound) returns (a: Action)
      modifies this`outbox, s`userData
      ensures m.address.isGroup ==>
        s.userData == old(s.userData) && outbox == old(outbox) + [Msg(m.address, Text(GroupReply))] && a == End(None)
      ensures !m.address.isGroup ==>
        s.userData == Lookup(old(s.userData), m.address.userId in users) && outbox == old(outbox) &&
        a == Prompt(MenuCard(m.address, s.userData.userLogged), 0, "")
    {
      if !m.address.isGroup {
        if !s.userData.userLoaded {
          s.userData := s.userData.(userLoaded := true);
          var found := m.address.userId in users;
          if found {
            s.userData := s.userData.(userLogged := true);
          }
        }
        a := Prompt(MenuCard(m.address, s.userData.userLogged), 0, "");
      } else {
        Say(m.address, GroupReply);
        a := End(None);
      }
    }

    /** Step 1 of `code`: ask for the access code. */
    method CodeAsk() returns (a: Action)
      ensures a == Prompt(Text(CodePrompt), 0, "")
    {
      a := Prompt(Text(CodePrompt), 0, "");
    }

    /** Step 2 of `code`: the right code authorises the sender and forces a
        fresh look-up; any other reply is refused.  Both restart `default`. */
    method CodeCheck(s: Session, m: Inbound) returns (a: Action)
      modifies this`users, this`outbox, s`userData
      ensures a == Replace(Default)
      ensures m.text == AccessCode ==>
        users == old(users) + {m.address.userId} && s.userData == old(s.userData).(userLoaded := false) &&
        outbox == old(outbox) + [Msg(m.address, Text(CodeAccepted))]
      ensures m.text != AccessCode ==>
        users == old(users) && s.userData == old(s.userData) &&
        outbox == old(outbox) + [Msg(m.address, Text(CodeRejected))]
    {
      if m.text == AccessCode {
        s.userData := s.userData.(userLoaded := false);
        users := users + {m.address.userId};
        Say(m.address, CodeAccepted);
        a := Replace(Default);
      } else {
        Say(m.address, CodeRejected);
        a := Replace(Default);
      }
    }

    /** The `help` dialog: send the help text and restart `default`. */
    method HelpStep(m: Inbound) returns (a: Action)
      modifies this`outbox
      ensures outbox == old(outbox) + [Msg(m.address, Text(HelpText))] && a == Replace(Default)
    {
      Say(m.address, HelpText);
      a := Replace(Default);
    }

    /** The `demo` dialog: end it with `pong!`. */
    method DemoStep() returns (a: Action)
      ensures a == End(Some(Pong))
    {
      a := End(Some(Pong));
    }

    /** Step 2 of `send`: keep the text and ask for confirmation. */
    method SendConfirm(s: Session, m: Inbound) returns (a: Action)
      modifies s`userData
      ensures s.userData == old(s.userData).(message := Some(m.text))
      ensures a == Prompt(ConfirmCard(m.text), 0, "")
    {
      s.userData := s.userData.(message := Some(m.text));
      a := Prompt(ConfirmCard(m.text), 0, "");
    }

    /** Step 3 of `send`: forget the stored text; on cancel restart
        `default`, on confirmation broadcast the text and end the dialog,
        otherwise do nothing. */
    method SendDispatch(s: Session, m: Inbound) returns (a: Action)
      modifies this`outbox, s`userData
      ensures s.userData == old(s.userData).(message := None)
      ensures m.text == GoCancel ==> a == Replace(Default) && outbox == old(outbox)
      ensures m.text == GoSendConfirm ==>
        a == End(Some(BroadcastDone)) &&
        outbox == old(outbox) + [Msg(m.address, Text(BroadcastStarted))] +
                  BroadcastTo(chats, BroadcastBody(old(s.userData).message))
      ensures m.text != GoCancel && m.text != GoSendConfirm ==> a == Stay && outbox == old(outbox)
    {
      var messageText := s.userData.message;
      s.userData := s.userData.(message := None);
      if m.text == GoCancel {
        return Replace(Default);
      }
      if m.text == GoSendConfirm {
        Say(m.address, BroadcastStarted);
        Broadcast(BroadcastBody(messageText));
        return End(Some(BroadcastDone));
      }
      a := Stay;
    }

    /** The `forEach` over the recipient store: one message per record. */
    method Broadcast(body: Body)
      modifies this`outbox
      ensures outbox == old(outbox) + BroadcastTo(chats, body)
    {
      var i := 0;
      while i < |chats|
        invariant 0 <= i <= |chats|
        invariant outbox == old(outbox) + BroadcastTo(chats[..i], body)
      {
        BroadcastAppend(chats[..i], chats[i], body);
        assert chats[..i + 1] == chats[..i] + [chats[i]];
        outbox := outbox + [Msg(chats[i], body)];
        i := i + 1;
      }
      assert chats[..i] == chats;
    }

    // ---- the engine --------------------------------------------------------

    /** `session.beginDialog(d)`: push a fresh frame for `d`, run its first
        step and carry out what that step ends with. */
    method BeginDialog(s: Session, m: Inbound, d: DialogId)
      requires AtRest(s.stack)
      modifies this`outbox, s`userData, s`stack
      decreases 2 * Rank(d) + 1
      ensures AtRest(s.stack)
      ensures Replies(old(outbox), outbox, m.address)
      ensures Begun(d, old(s.stack), old(s.userData), old(outbox), s.stack, s.userData, outbox, m.address, m.address.userId in users)
    {
      s.stack := s.stack + [Frame(d, 0, Running)];
      assert Below(s.stack) == old(s.stack);
      var a: Action;
      match d {
        case Default => a := DefaultGreet(s, m);
        case Code => a := CodeAsk();
        case Help => a := HelpStep(m);
        case Send => a := SendAsk(s.userData);
        case Demo => a := DemoStep();
      }
      ghost var out1 := outbox;
      assert Replies(old(outbox), out1, m.address);
      Apply(s, m, a);
      RepliesTrans(old(outbox), out1, outbox, m.address);
    }

    /** What the engine does with the action the top frame's step ended
        with: replace the frame by a fresh one of another dialog, end it
        (saying the farewell, if any), or leave it waiting at the next step
        (after sending the prompt, if any). */
    method Apply(s: Session, m: Inbound, a: Action)
      requires s.stack != [] && AtRest(Below(s.stack)) && Fits(Top(s.stack), a)
      modifies this`outbox, s`userData, s`stack
      decreases if a.Replace? then 2 * Rank(a.dialog) + 2 else 0
      ensures AtRest(s.stack)
      ensures Replies(old(outbox), outbox, m.address)
      ensures a.Replace? ==>
        Begun(a.dialog, Below(old(s.stack)), old(s.userData), old(outbox), s.stack, s.userData, outbox, m.address, m.address.userId in users)
      ensures !a.Replace? ==> s.userData == old(s.userData)
      ensures a.End? ==>
        s.stack == Below(old(s.stack)) &&
        outbox == old(outbox) + (if a.farewell.Some? then [Msg(m.address, Text(a.farewell.value))] else [])
      ensures a.Prompt? ==>
        s.stack == Below(old(s.stack)) + [Frame(Top(old(s.stack)).dialog, Top(old(s.stack)).step + 1, Waiting(a.minLength, a.retryPrompt))] &&
        outbox == old(outbox) + [Msg(m.address, a.body)]
      ensures a.Stay? ==>
        s.stack == Below(old(s.stack)) + [Frame(Top(old(s.stack)).dialog, Top(old(s.stack)).step + 1, Waiting(0, ""))] &&
        outbox == old(outbox)
    {
      var f := Top(s.stack);
      match a {
        case Replace(d) =>
          s.stack := Below(s.stack);
          BeginDialog(s, m, d);
        case End(farewell) =>
          if farewell.Some? {
            Say(m.address, farewell.value);
          }
          s.stack := Below(s.stack);
        case Prompt(body, n, retry) =>
          outbox := outbox + [Msg(m.address, body)];
          s.stack := Below(s.stack) + [Frame(f.dialog, f.step + 1, Waiting(n, retry))];
        case Stay =>
          s.stack := Below(s.stack) + [Frame(f.dialog, f.step + 1, Waiting(0, ""))];
      }
    }

    /** Hand the reply to the step the top frame waits in.  A frame that has
        run all its steps ends on the next reply. */
    method ReplyStep(s: Session, m: Inbound) returns (a: Action)
      requires s.stack != [] && AtRest(s.stack)
      modifies this`users, this`outbox, s`userData
      ensures Fits(Top(s.stack), a)
      ensures Stepped(Top(s.stack), m, chats, old(s.userData), old(outbox), old(users), s.userData, outbox, users, a)
    {
      var f := Top(s.stack);
      if f.dialog == Default && f.step == 1 {
        a := DefaultRoute(m.text);
      } else if f.dialog == Code && f.step == 1 {
        a := CodeCheck(s, m);
      } else if f.dialog == Send && f.step == 1 {
        a := SendConfirm(s, m);
      } else if f.dialog == Send && f.step == 2 {
        a := SendDispatch(s, m);
      } else {
        a := End(None);
      }
    }

    /** The reset action: empty `userData`, clear the stack and begin
        `default`, whatever the stack held and whether it was waiting. */
    method Reset(s: Session, m: Inbound)
      modifies this`outbox, s`userData, s`stack
      ensures AtRest(s.stack)
      ensures Replies(old(outbox), outbox, m.address)
      ensures Begun(Default, [], EmptyUserData, old(outbox), s.stack, s.userData, outbox, m.address, m.address.userId in users)
    {
      s.userData := EmptyUserData;
      s.stack := [];
      BeginDialog(s, m, Default);
    }

    /** The cancel action of `send`: say so and pop the stack from the
        topmost `send` frame on. */
    method CancelSendAction(s: Session, m: Inbound, at: nat)
      requires AtRest(s.stack) && at < |s.stack|
      modifies this`outbox, s`stack
      ensures AtRest(s.stack)
      ensures s.stack == old(s.stack)[..at] && outbox == old(outbox) + [Msg(m.address, Text(Cancelled))]
    {
      AtRestPrefix(s.stack, at);
      s.stack := s.stack[..at];
      Say(m.address, Cancelled);
    }

    /** A reply that no global action takes goes to the waiting step, and the
        engine carries out what that step ends with. */
    method DeliverReply(s: Session, m: Inbound)
      requires s.stack != [] && AtRest(s.stack)
      modifies this`users, this`outbox, s`userData, s`stack
      ensures AtRest(s.stack)
      ensures Below(old(s.stack)) <= s.stack
      ensures old(outbox) <= outbox
      ensures var f := Top(old(s.stack));
        Replies(old(outbox), outbox, m.address) || (f.dialog == Send && f.step == 2 && m.text == GoSendConfirm)
      ensures Delivered(m, chats, old(s.stack), old(s.userData), old(outbox), old(users), s.stack, s.userData, outbox, users)
    {
      AtRestPrefix(s.stack, |s.stack| - 1);
      ghost var out0 := outbox;
      var a := ReplyStep(s, m);
      ghost var out1 := outbox;
      Apply(s, m, a);
      if Replies(out0, out1, m.address) {
        RepliesTrans(out0, out1, outbox, m.address);
      }
    }

    /** One inbound message of a conversation, from one resting stack to the
        next. */
    method HandleMessage(s: Session, m: Inbound)
      requires AtRest(s.stack)
      modifies this`users, this`outbox, s`userData, s`stack
      ensures AtRest(s.stack)
      ensures old(outbox) <= outbox
      // the access code, given to the `code` dialog, authorises the sender; nothing else changes `users`
      ensures users ==
        if Route(old(s.stack), m.text).Deliver? && Top(old(s.stack)).dialog == Code && Top(old(s.stack)).step == 1 &&
           m.text == AccessCode
        then old(users) + {m.address.userId} else old(users)
      // only a confirmation, given to step 3 of `send`, reaches other chats
      ensures Replies(old(outbox), outbox, m.address) ||
        (Route(old(s.stack), m.text).Deliver? && Top(old(s.stack)).dialog == Send && Top(old(s.stack)).step == 2 &&
         m.text == GoSendConfirm)
      ensures Route(old(s.stack), m.text).CancelSend? ==>
        s.stack == old(s.stack)[..Route(old(s.stack), m.text).at] && s.userData == old(s.userData) &&
        outbox == old(outbox) + [Msg(m.address, Text(Cancelled))]
      ensures Route(old(s.stack), m.text).ResetAll? ==>
        Begun(Default, [], EmptyUserData, old(outbox), s.stack, s.userData, outbox, m.address, m.address.userId in users)
      ensures Route(old(s.stack), m.text).Trigger? ==>
        Begun(Route(old(s.stack), m.text).dialog, old(s.stack), old(s.userData), old(outbox),
              s.stack, s.userData, outbox, m.address, m.address.userId in users)
      ensures Route(old(s.stack), m.text).Retry? ==>
        s.stack == old(s.stack) && s.userData == old(s.userData) &&
        outbox == old(outbox) + [Msg(m.address, Text(Top(old(s.stack)).wait.retryPrompt))]
      ensures Route(old(s.stack), m.text).StartDefault? ==>
        Begun(Default, [], old(s.userData), old(outbox), s.stack, s.userData, outbox, m.address, m.address.userId in users)
      ensures Route(old(s.stack), m.text).Deliver? ==>
        Delivered(m, chats, old(s.stack), old(s.userData), old(outbox), old(users), s.stack, s.userData, outbox, users)
    {
      var r := Route(s.stack, m.text);
      match r {
        case CancelSend(i) =>
          CancelSendAction(s, m, i);
        case ResetAll =>
          Reset(s, m);
        case Trigger(d) =>
          BeginDialog(s, m, d);
        case Retry(p) =>
          Say(m.address, p);
        case StartDefault =>
          BeginDialog(s, m, Default);
        case Deliver =>
          DeliverReply(s, m);
      }
    }

    // ---- membership events -------------------------------------------------

    /** `conversationUpdate`: the bot joining a channel records the channel
        and greets it (removal is then not looked at); the bot leaving it
        removes one record of it; anything else changes nothing. */
    method OnConversationUpdate(u: MembershipUpdate)
      modifies this`chats, this`outbox
      ensures u.address.botId in u.membersAdded ==>
        chats == old(chats) + [u.address] && outbox == old(outbox) + [Msg(u.address, Text(ChannelWelcome))]
      ensures u.address.botId !in u.membersAdded && u.address.botId in u.membersRemoved ==>
        chats == RemoveFirst(old(chats), u.address) && outbox == old(outbox)
      ensures u.address.botId !in u.membersAdded && u.address.botId !in u.membersRemoved ==>
        chats == old(chats) && outbox == old(outbox)
    {
      var self := u.address.botId;
      if self in u.membersAdded {
        chats := chats + [u.address];
        Say(u.address, ChannelWelcome);
        return;
      }
      if self in u.membersRemoved {
        chats := RemoveFirst(chats, u.address);
      }
    }

    /** `contactRelationUpdate`: a user adding the bot is greeted. */
    method OnContactRelationUpdate(u: ContactUpdate)
      modifies this`outbox
      ensures outbox == old(outbox) + (if u.action == "add" then [Msg(u.address, Text(ContactWelcome))] else [])
    {
      if u.action == "add" {
        Say(u.address, ContactWelcome);
      }
    }
  }
}
