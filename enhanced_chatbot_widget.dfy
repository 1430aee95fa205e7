/**
 * The travel-assistant chat panel: sending a message appends the user's
 * message and a typing indicator, posts the message, removes the indicator
 * and appends the assistant's answer, a fallback advice text, or an error
 * text. While the conversation is short, quick questions are offered.
 *
 * The reply is an input: a thrown request (or an unreadable body), a
 * status that is not ok, or an ok reply whose `response` may be falsy
 * (`""`).
 */
module EnhancedChatbotWidget {
  import opened Wrappers
  import opened Text
  import Places

  datatype Sender = UserSender | BotSender
  datatype Message = Message(id: string, sender: Sender, content: string, isTyping: bool)

  datatype AssistantReply = Threw | NotOk | Ok(response: string)

  const TYPING_ID: string := "typing"

  const GREETING: string :=
    "\U{1F31F} Hello! I'm your AI-powered travel assistant. I can help you with local insights, safety tips, weather updates, and personalized recommendations based on your current location. What would you like to know?"
  const FALLBACK_ADVICE: string :=
    "\U{26A0}\U{FE0F} Sorry, I'm having trouble fetching details. Here's some general travel advice: stay safe, check local maps, and trust your instincts."
  const TECHNICAL_ISSUES: string :=
    "\U{1F527} I'm experiencing technical issues. Please try again in a moment."

  const QUICK_QUESTIONS: seq<string> := [
    "\U{1F324}\U{FE0F} What's the weather like?",
    "\U{1F6E1}\U{FE0F} Is this area safe?",
    "\U{1F465} How crowded is it here?",
    "\U{1F3AF} Any nearby attractions?",
    "\U{1F550} Best time to visit?",
    "\U{1F37D}\U{FE0F} Good restaurants nearby?"
  ]

  /** `prev.filter(msg => msg.id !== "typing")`. */
  function WithoutTyping(messages: seq<Message>): (r: seq<Message>)
    ensures |r| <= |messages|
    ensures forall m :: m in r <==> m in messages && m.id != TYPING_ID
  {
    if messages == [] then []
    else (if messages[0].id != TYPING_ID then [messages[0]] else []) + WithoutTyping(messages[1..])
  }

  lemma {:induction false} WithoutTypingAppend(a: seq<Message>, b: seq<Message>)
    ensures WithoutTyping(a + b) == WithoutTyping(a) + WithoutTyping(b)
  {
    if a == [] {
      assert a + b == b;
    } else {
      assert (a + b)[0] == a[0];
      assert (a + b)[1..] == a[1..] + b;
      WithoutTypingAppend(a[1..], b);
    }
  }

  /** The answer shown: the reply's `response` when the reply is ok and it is truthy, else a fixed text. */
  function BotText(reply: AssistantReply): (text: string)
    ensures reply.Ok? && reply.response != "" ==> text == reply.response
    ensures reply.NotOk? || (reply.Ok? && reply.response == "") ==> text == FALLBACK_ADVICE
    ensures reply.Threw? ==> text == TECHNICAL_ISSUES
  {
    match reply
    case Ok(response) => if response != "" then response else FALLBACK_ADVICE
    case NotOk => FALLBACK_ADVICE
    case Threw => TECHNICAL_ISSUES
  }

  /** The number of messages that are not typing indicators. */
  function Shown(messages: seq<Message>): nat {
    if messages == [] then 0 else (if messages[0].isTyping then 0 else 1) + Shown(messages[1..])
  }

  lemma {:induction false} ShownAppend(a: seq<Message>, b: seq<Message>)
    ensures Shown(a + b) == Shown(a) + Shown(b)
  {
    if a == [] {
      assert a + b == b;
    } else {
      assert (a + b)[0] == a[0];
      assert (a + b)[1..] == a[1..] + b;
      ShownAppend(a[1..], b);
    }
  }

  /** The quick questions offered: six when expanded and four otherwise, while at most two messages are shown. */
  function QuickQuestions(messages: seq<Message>, expanded: bool): (qs: seq<string>)
    ensures Shown(messages) > 2 ==> qs == []
    ensures Shown(messages) <= 2 ==> |qs| == (if expanded then 6 else 4) && qs == QUICK_QUESTIONS[..|qs|]
  {
    if Shown(messages) <= 2 then Places.Take(QUICK_QUESTIONS, if expanded then 6 else 4) else []
  }

  class Assistant {
    var messages: seq<Message>
    var inputMessage: string
    var isLoading: bool
    var isExpanded: bool

    constructor()
      ensures messages == [Message("1", BotSender, GREETING, false)]
      ensures inputMessage == "" && !isLoading && !isExpanded
    {
      messages := [Message("1", BotSender, GREETING, false)];
      inputMessage := "";
      isLoading := false;
      isExpanded := false;
    }

    /**
     * `handleSendMessage`: nothing happens for a blank input or while a
     * reply is loading; otherwise the user message (id `now`, the clock
     * reading when the send starts) is appended and the input posted; every
     * typing indicator is removed and one bot message (id `later + 1`, from
     * the clock reading once the reply has settled) is appended; loading
     * ends.
     */
    method HandleSendMessage(now: nat, later: nat, reply: AssistantReply) returns (sent: Option<string>)
      modifies this`messages, this`inputMessage, this`isLoading
      ensures Trim(old(inputMessage)) == "" || old(isLoading) ==>
                sent == None && messages == old(messages) && inputMessage == old(inputMessage) && isLoading == old(isLoading)
      ensures Trim(old(inputMessage)) != "" && !old(isLoading) ==>
                sent == Some(old(inputMessage)) &&
                messages == WithoutTyping(old(messages)) +
                            [Message(NatToString(now), UserSender, old(inputMessage), false),
                             Message(NatToString(later + 1), BotSender, BotText(reply), false)] &&
                inputMessage == "" && !isLoading
    {
      if Trim(inputMessage) == "" || isLoading {
        return None;
      }
      var userMessage := Message(NatToString(now), UserSender, inputMessage, false);
      var typingMessage := Message(TYPING_ID, BotSender, "", true);
      ghost var prior := messages;
      messages := messages + [userMessage];
      inputMessage := "";
      isLoading := true;
      messages := messages + [typingMessage];
      sent := Some(userMessage.content);
      // the request settles or throws; either way the indicator goes first
      NumericIdIsNotTyping(now);
      IndicatorRemoved(prior, userMessage);
      messages := WithoutTyping(messages);
      messages := messages + [Message(NatToString(later + 1), BotSender, BotText(reply), false)];
      isLoading := false;
    }
  }

  /** An id made from a clock reading never equals `"typing"`. */
  lemma NumericIdIsNotTyping(n: nat)
    ensures NatToString(n) != TYPING_ID
  {
    assert !IsDigit(TYPING_ID[0]);
    NatToStringNotWord(n, TYPING_ID);
  }

  /** Removing the indicator after the user message leaves the earlier messages, filtered, and the user message. */
  lemma IndicatorRemoved(prior: seq<Message>, user: Message)
    requires user.id != TYPING_ID
    ensures WithoutTyping(prior + [user] + [Message(TYPING_ID, BotSender, "", true)]) == WithoutTyping(prior) + [user]
  {
    var typing := Message(TYPING_ID, BotSender, "", true);
    WithoutTypingAppend(prior + [user], [typing]);
    WithoutTypingAppend(prior, [user]);
    assert [user][1..] == [] && [typing][1..] == [];
  }

  /** After any finished send, no typing indicator is left in the list. */
  lemma NoTypingAfterSend(old_messages: seq<Message>, now: nat, later: nat, input: string, reply: AssistantReply)
    ensures var after := WithoutTyping(old_messages) +
                         [Message(NatToString(now), UserSender, input, false),
                          Message(NatToString(later + 1), BotSender, BotText(reply), false)];
            forall m :: m in after ==> m.id != TYPING_ID
  {
    NumericIdIsNotTyping(now);
    NumericIdIsNotTyping(later + 1);
  }

  /**
   * From the greeting alone, quick questions stay offered while the first
   * answer is pending (the typing indicator does not count) and disappear
   * once it has arrived.
   */
  lemma QuickQuestionsAroundFirstExchange(greeting: Message, user: Message, bot: Message, expanded: bool)
    requires !greeting.isTyping && !user.isTyping && !bot.isTyping
    ensures QuickQuestions([greeting, user, Message(TYPING_ID, BotSender, "", true)], expanded) != []
    ensures QuickQuestions([greeting, user, bot], expanded) == []
  {
    var typing := Message(TYPING_ID, BotSender, "", true);
    assert [typing][1..] == [] && [bot][1..] == [];
    assert Shown([typing]) == 0 && Shown([bot]) == 1;
    assert [user, typing][1..] == [typing] && [user, bot][1..] == [bot];
    assert Shown([user, typing]) == 1 && Shown([user, bot]) == 2;
    assert [greeting, user, typing][1..] == [user, typing] && [greeting, user, bot][1..] == [user, bot];
    assert Shown([greeting, user, typing]) == 2 && Shown([greeting, user, bot]) == 3;
  }
}
