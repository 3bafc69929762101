/** The floating chat assistant: a launcher that opens a chat window, a
    message log that starts with a greeting, an input box whose text is
    sent on click or Enter unless it is blank, and a canned bot reply that
    arrives after a delay. */
module Bot3D {

  datatype Message = Message(text: string, isBot: bool)

  /** The widget's visible state. */
  datatype ChatState = ChatState(isOpen: bool, messages: seq<Message>, inputValue: string, isTyping: bool)

  const Greeting: Message := Message("Hi! I'm Zephyr, your AI assistant. How can I help you today?", true)

  const BotResponses: seq<string> := [
    "That's a great question! Our platform uses advanced AI to streamline your workflow.",
    "I'd be happy to help! ZephyrTech offers 24/7 support and enterprise-grade security.",
    "Absolutely! You can start with our free trial - no credit card required.",
    "Our customers typically see a 3x productivity boost within the first month!",
    "Great choice! Let me connect you with our team for a personalized demo."
  ]

  const Initial: ChatState := ChatState(false, [Greeting], "", false)

  // ---------------------------------------------------------------------
  // String.prototype.trim
  // ---------------------------------------------------------------------

  /** The characters trim removes: ECMAScript white space (tab, vertical
      tab, form feed, the byte order mark and the space separators) and line
      terminators. */
  predicate IsWhitespace(c: char) {
    c == '\t' || c == '\n' || c == '\U{000B}' || c == '\U{000C}' || c == '\r' || c == ' '
    || c == '\U{00A0}' || c == '\U{1680}' || ('\U{2000}' <= c <= '\U{200A}')
    || c == '\U{2028}' || c == '\U{2029}' || c == '\U{202F}' || c == '\U{205F}'
    || c == '\U{3000}' || c == '\U{FEFF}'
  }

  /** `s` without its leading white space. */
  function TrimStart(s: string): (r: string)
    ensures |r| <= |s| && r == s[|s| - |r|..]
    ensures forall i :: 0 <= i < |s| - |r| ==> IsWhitespace(s[i])
    ensures |r| == 0 || !IsWhitespace(r[0])
  {
    if |s| > 0 && IsWhitespace(s[0]) then TrimStart(s[1..]) else s
  }

  /** `s` without its trailing white space. */
  function TrimEnd(s: string): (r: string)
    ensures |r| <= |s| && r == s[..|r|]
    ensures forall i :: |r| <= i < |s| ==> IsWhitespace(s[i])
    ensures |r| == 0 || !IsWhitespace(r[|r| - 1])
  {
    if |s| > 0 && IsWhitespace(s[|s| - 1]) then TrimEnd(s[..|s| - 1]) else s
  }

  /** String.prototype.trim: white space is cut from both ends, and what is
      left neither starts nor ends with white space. */
  function Trim(s: string): (r: string)
    ensures |r| <= |s|
    ensures |r| == 0 || (!IsWhitespace(r[0]) && !IsWhitespace(r[|r| - 1]))
  {
    var t := TrimStart(s);
    var r := TrimEnd(t);
    assert |r| > 0 ==> r[0] == t[0];
    r
  }

  /** The guard of handleSend: the trimmed input is the empty string. */
  predicate IsBlank(s: string) {
    Trim(s) == ""
  }

  /** An input is blank exactly when every character of it is white space. */
  lemma BlankIffAllWhitespace(s: string)
    ensures IsBlank(s) <==> forall i :: 0 <= i < |s| ==> IsWhitespace(s[i])
  {
    // Both sides say that nothing is left once the leading white space is gone.
    var t := TrimStart(s);
    assert |t| > 0 ==> t[0] == s[|s| - |t|] && !IsWhitespace(t[0]);
    assert |t| > 0 ==> TrimEnd(t) != [];
  }

  // ---------------------------------------------------------------------
  // The message log
  // ---------------------------------------------------------------------

  function UserCount(log: seq<Message>): nat {
    if |log| == 0 then 0 else UserCount(log[..|log| - 1]) + (if log[|log| - 1].isBot then 0 else 1)
  }

  function BotCount(log: seq<Message>): nat {
    if |log| == 0 then 0 else BotCount(log[..|log| - 1]) + (if log[|log| - 1].isBot then 1 else 0)
  }

  /** The log opens with the greeting, and every user message beyond those
      already answered waits for one of the `pending` scheduled replies. */
  ghost predicate LogInvariant(log: seq<Message>, pending: nat) {
    |log| >= 1 && log[0] == Greeting && UserCount(log) + 1 == BotCount(log) + pending
  }

  lemma CountsAppend(log: seq<Message>, m: Message)
    ensures UserCount(log + [m]) == UserCount(log) + (if m.isBot then 0 else 1)
    ensures BotCount(log + [m]) == BotCount(log) + (if m.isBot then 1 else 0)
  {
    assert (log + [m])[..|log|] == log;
  }

  /** handleSend: a blank input changes nothing; otherwise the input, as
      typed, joins the log as a user message, the box empties and the typing
      indicator comes on. */
  function Send(s: ChatState): (t: ChatState)
    ensures IsBlank(s.inputValue) ==> t == s
    ensures !IsBlank(s.inputValue) ==>
      t.messages == s.messages + [Message(s.inputValue, false)]
      && t.inputValue == "" && t.isTyping && t.isOpen == s.isOpen
  {
    if IsBlank(s.inputValue) then s
    else s.(messages := s.messages + [Message(s.inputValue, false)], inputValue := "", isTyping := true)
  }

  /** The delayed reply: response number `choice` joins the log as a bot
      message and the typing indicator goes off. */
  function Reply(s: ChatState, choice: nat): (t: ChatState)
    requires choice < |BotResponses|
    ensures t.messages == s.messages + [Message(BotResponses[choice], true)]
    ensures t.messages[|t.messages| - 1].text in BotResponses
    ensures !t.isTyping && t.inputValue == s.inputValue && t.isOpen == s.isOpen
  {
    s.(messages := s.messages + [Message(BotResponses[choice], true)], isTyping := false)
  }

  /** The log only grows: sending and replying keep every earlier message
      in place and add at most one. */
  lemma LogOnlyGrows(s: ChatState, choice: nat)
    requires choice < |BotResponses|
    ensures s.messages <= Send(s).messages && |Send(s).messages| <= |s.messages| + 1
    ensures s.messages <= Reply(s, choice).messages && |Reply(s, choice).messages| == |s.messages| + 1
  {
  }

  /** A non-blank send schedules one more reply; a blank one schedules none. */
  lemma SendKeepsInvariant(s: ChatState, pending: nat)
    requires LogInvariant(s.messages, pending)
    ensures LogInvariant(Send(s).messages, if IsBlank(s.inputValue) then pending else pending + 1)
  {
    if !IsBlank(s.inputValue) {
      CountsAppend(s.messages, Message(s.inputValue, false));
    }
  }

  /** A reply answers one of the scheduled ones. */
  lemma ReplyKeepsInvariant(s: ChatState, pending: nat, choice: nat)
    requires LogInvariant(s.messages, pending) && pending > 0 && choice < |BotResponses|
    ensures LogInvariant(Reply(s, choice).messages, pending - 1)
  {
    CountsAppend(s.messages, Message(BotResponses[choice], true));
  }

  class Widget {
    var isOpen: bool
    var messages: seq<Message>
    var inputValue: string
    var isTyping: bool
    /** The replies handleSend has scheduled whose timeout has not yet run. */
    ghost var pendingReplies: nat

    function State(): ChatState
      reads this
    {
      ChatState(isOpen, messages, inputValue, isTyping)
    }

    ghost predicate Valid()
      reads this
    {
      LogInvariant(messages, pendingReplies)
    }

    constructor ()
      ensures Valid() && State() == Initial && pendingReplies == 0
    {
      isOpen := false;
      messages := [Greeting];
      inputValue := "";
      isTyping := false;
      pendingReplies := 0;
    }

    /** The launcher button. */
    method Open()
      modifies this`isOpen
      ensures isOpen
    {
      isOpen := true;
    }

    /** The close button in the window's header. */
    method Close()
      modifies this`isOpen
      ensures !isOpen
    {
      isOpen := false;
    }

    /** The input box's change handler. */
    method SetInputValue(value: string)
      modifies this`inputValue
      ensures inputValue == value
    {
      inputValue := value;
    }

    /** The send button. */
    method HandleSend()
      requires Valid()
      modifies this
      ensures Valid()
      ensures State() == Send(old(State()))
      ensures pendingReplies == if IsBlank(old(inputValue)) then old(pendingReplies) else old(pendingReplies) + 1
    {
      SendKeepsInvariant(State(), pendingReplies);
      if IsBlank(inputValue) {
        return;
      }
      var next := Send(State());
      messages, inputValue, isTyping := next.messages, next.inputValue, next.isTyping;
      pendingReplies := pendingReplies + 1;
    }

    /** A key press in the input box: Enter does what the send button does. */
    method HandleKeyPress(key: string)
      requires Valid()
      modifies this
      ensures Valid()
      ensures State() == if key == "Enter" then Send(old(State())) else old(State())
      ensures pendingReplies ==
        if key == "Enter" && !IsBlank(old(inputValue)) then old(pendingReplies) + 1 else old(pendingReplies)
    {
      if key == "Enter" {
        HandleSend();
      }
    }

    /** The 1.5 s timeout scheduled by a send; `choice` stands for the
        random pick among the canned responses. */
    method DeliverReply(choice: nat)
      requires Valid() && pendingReplies > 0 && choice < |BotResponses|
      modifies this
      ensures Valid()
      ensures State() == Reply(old(State()), choice)
      ensures pendingReplies == old(pendingReplies) - 1
    {
      ReplyKeepsInvariant(State(), pendingReplies, choice);
      var next := Reply(State(), choice);
      messages, isTyping := next.messages, next.isTyping;
      pendingReplies := pendingReplies - 1;
    }
  }
}
