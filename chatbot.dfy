/** The floating "DevShelf AI" chat: an append-only message log that opens
    with a greeting, a text input, and a typing flag while a canned reply is
    pending. The clock and the random reply choice are parameters. */
module Chatbot {
  import opened Js

  datatype Sender = User | Bot

  /** A chat message; `id` is the decimal text of a millisecond clock
      reading (the timestamp is left out). */
  datatype Message = Message(id: string, text: string, sender: Sender)

  const GreetingText: string :=
    "Hi! I'm DevShelf AI. I can help explain any project on this showcase. What would you like to know?"
  const Greeting: Message := Message("1", GreetingText, Bot)

  const MockResponses: seq<string> := [
    "This project uses Next.js 14 with TypeScript for a modern, type-safe development experience.",
    "The tech stack includes Tailwind CSS for styling, Framer Motion for animations, and tsParticles for the interactive background.",
    "This repository has gained popularity due to its clean architecture and comprehensive documentation.",
    "The project follows modern React patterns with hooks, context, and component composition.",
    "You can contribute by forking the repo and submitting a pull request with your improvements."
  ]

  datatype ChatState = ChatState(isOpen: bool, messages: seq<Message>, inputText: string, isTyping: bool)

  const InitialChat: ChatState := ChatState(false, [Greeting], "", false)

  /** The send button is disabled while the input is blank. */
  predicate SendDisabled(s: ChatState) {
    Trim(s.inputText) == ""
  }

  /** `handleSendMessage` at clock reading `now`. */
  function Send(s: ChatState, now: nat): ChatState {
    if Trim(s.inputText) == "" then s
    else s.(messages := s.messages + [Message(NatToString(now), s.inputText, User)], inputText := "", isTyping := true)
  }

  /** The timer callback: response number `choice`, at clock reading `now`. */
  function Reply(s: ChatState, choice: nat, now: nat): ChatState
    requires choice < |MockResponses|
  {
    s.(messages := s.messages + [Message(NatToString(now + 1), MockResponses[choice], Bot)], isTyping := false)
  }

  /** `handleKeyPress`: Enter without Shift sends. */
  predicate SendsOnKey(key: string, shiftKey: bool) {
    key == "Enter" && !shiftKey
  }

  /** The chat log always begins with the greeting. */
  predicate StartsWithGreeting(s: ChatState) {
    |s.messages| >= 1 && s.messages[0] == Greeting
  }

  /** A blank input sends nothing, and that is exactly when the button is
      disabled; otherwise the input, untrimmed, is appended as one user
      message, the input is cleared and the bot starts typing. */
  lemma SendEffect(s: ChatState, now: nat)
    ensures SendDisabled(s) <==> AllSpace(s.inputText)
    ensures SendDisabled(s) ==> Send(s, now) == s
    ensures !SendDisabled(s) ==>
      var t := Send(s, now);
      && |t.messages| == |s.messages| + 1
      && t.messages[..|s.messages|] == s.messages
      && t.messages[|s.messages|].text == s.inputText && t.messages[|s.messages|].sender == User
      && t.inputText == "" && t.isTyping && t.isOpen == s.isOpen
  {
    if !SendDisabled(s) {
      var t := Send(s, now);
      assert t.messages[..|s.messages|] == s.messages;
    }
  }

  /** The reply appends one bot message holding one of the five canned
      answers, and typing stops; earlier messages stay. */
  lemma ReplyEffect(s: ChatState, choice: nat, now: nat)
    requires choice < |MockResponses|
    ensures var t := Reply(s, choice, now);
      && |t.messages| == |s.messages| + 1
      && t.messages[..|s.messages|] == s.messages
      && t.messages[|s.messages|].sender == Bot && t.messages[|s.messages|].text in MockResponses
      && !t.isTyping && t.inputText == s.inputText
  {
    var t := Reply(s, choice, now);
    assert t.messages[..|s.messages|] == s.messages;
  }

  /** No operation removes or rewrites a message, so the greeting stays
      first. */
  lemma GreetingStaysFirst(s: ChatState, choice: nat, now: nat)
    requires StartsWithGreeting(s) && choice < |MockResponses|
    ensures StartsWithGreeting(Send(s, now)) && StartsWithGreeting(Reply(s, choice, now))
    ensures s.messages <= Send(s, now).messages && s.messages <= Reply(s, choice, now).messages
  {
  }

  /** One exchange: the question, then the answer, each at the end. */
  lemma QuestionThenAnswer(s: ChatState, t0: nat, choice: nat, t1: nat)
    requires !SendDisabled(s) && choice < |MockResponses|
    ensures var t := Reply(Send(s, t0), choice, t1);
      && t.messages == s.messages + [Message(NatToString(t0), s.inputText, User),
                                     Message(NatToString(t1 + 1), MockResponses[choice], Bot)]
      && t.inputText == "" && !t.isTyping
  {
  }

  class Chat {
    var isOpen: bool
    var messages: seq<Message>
    var inputText: string
    var isTyping: bool

    function State(): ChatState
      reads this
    {
      ChatState(isOpen, messages, inputText, isTyping)
    }

    /** The component as first rendered: closed, the greeting alone. */
    constructor ()
      ensures State() == InitialChat && StartsWithGreeting(State())
    {
      isOpen := false;
      messages := [Greeting];
      inputText := "";
      isTyping := false;
    }

    method SetInputText(text: string)
      modifies this
      ensures State() == old(State()).(inputText := text)
    {
      inputText := text;
    }

    method Open()
      modifies this
      ensures State() == old(State()).(isOpen := true)
    {
      isOpen := true;
    }

    method Close()
      modifies this
      ensures State() == old(State()).(isOpen := false)
    {
      isOpen := false;
    }

    method HandleSendMessage(now: nat)
      modifies this
      ensures State() == Send(old(State()), now)
    {
      if Trim(inputText) == "" {
        return;
      }
      var userMessage := Message(NatToString(now), inputText, User);
      messages := messages + [userMessage];
      inputText := "";
      isTyping := true;
    }

    /** The delayed reply. */
    method ReceiveReply(choice: nat, now: nat)
      requires choice < |MockResponses|
      modifies this
      ensures State() == Reply(old(State()), choice, now)
    {
      var botMessage := Message(NatToString(now + 1), MockResponses[choice], Bot);
      messages := messages + [botMessage];
      isTyping := false;
    }

    method HandleKeyPress(key: string, shiftKey: bool, now: nat)
      modifies this
      ensures SendsOnKey(key, shiftKey) ==> State() == Send(old(State()), now)
      ensures !SendsOnKey(key, shiftKey) ==> State() == old(State())
    {
      if key == "Enter" && !shiftKey {
        HandleSendMessage(now);
      }
    }
  }
}
