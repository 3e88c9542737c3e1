/** The chat demo: a user message is accepted only when it has text and no
    reply is being typed; the reply is one of six canned answers, shown
    first as a typing indicator and then written out one character per
    timer tick into the last message.

    The two timers are explicit steps: `TimeoutFired` is the one-second
    timeout that removes the indicator, `Tick` one run of the 30 ms
    interval. The random draw is the index `pick`, which `ResponseIndex`
    computes from `Math.random()`, and `Date.now()` ids the parameter `now`. */
module Chat {
  import opened Common
  import opened Text

  datatype Sender = User | Ai

  /** A chat message; `typing` marks the typing indicator. */
  datatype Message = Message(id: string, sender: Sender, content: string, typing: bool)

  /** The canned replies, `demoResponses`. */
  const DemoResponses: seq<string> := [
    "I'm an AI assistant specialized in data science and machine learning. I can help you understand complex algorithms, analyze data patterns, and provide insights on AI implementations.",
    "That's a great question about neural networks! Deep learning models use multiple layers to learn hierarchical representations of data, making them incredibly powerful for tasks like image recognition and natural language processing.",
    "Machine learning is transforming industries by enabling computers to learn from data without explicit programming. From recommendation systems to autonomous vehicles, ML is everywhere!",
    "Data preprocessing is crucial for ML success. It involves cleaning, transforming, and preparing raw data for analysis. Good data quality leads to better model performance.",
    "Computer vision combines AI with image processing to enable machines to 'see' and interpret visual information. It's used in medical imaging, autonomous driving, and facial recognition.",
    "Natural Language Processing (NLP) helps computers understand and generate human language. Modern transformers like GPT have revolutionized how we interact with AI systems."
  ]

  const QuickQuestions: seq<string> := [
    "What is machine learning?",
    "How do neural networks work?",
    "Explain computer vision",
    "What is data preprocessing?",
    "Tell me about NLP",
    "AI in healthcare applications"
  ]

  const Greeting := Message("1", Ai, "👋 Hello! I'm an AI assistant showcasing advanced conversational capabilities. Ask me anything about data science, machine learning, or AI!", false)

  /** `Math.floor(Math.random() * demoResponses.length)`. */
  function ResponseIndex(u: real): (i: int)
    requires 0.0 <= u < 1.0
    ensures 0 <= i < |DemoResponses|
  {
    (u * |DemoResponses| as real).Floor
  }

  /** The guard of `handleSendMessage`: a message is sent only when no
      reply is typing and it holds a character that is not white space. */
  predicate CanSend(message: string, isTyping: bool): (b: bool)
    ensures b <==> !isTyping && exists i :: 0 <= i < |message| && !IsSpace(message[i])
  {
    TrimEmptyIff(message);
    Trim(message) != "" && !isTyping
  }

  /** The send button's `disabled` test. */
  predicate SendDisabled(inputValue: string, isTyping: bool) {
    Trim(inputValue) == "" || isTyping
  }

  /** The send button is disabled exactly when sending the input would be
      rejected, that is when the input is blank or a reply is typing. */
  lemma SendDisabledIff(inputValue: string, isTyping: bool)
    ensures SendDisabled(inputValue, isTyping) <==> !CanSend(inputValue, isTyping)
    ensures SendDisabled(inputValue, isTyping) <==>
      isTyping || forall i :: 0 <= i < |inputValue| ==> IsSpace(inputValue[i])
  {
    TrimEmptyIff(inputValue);
  }

  /** The quick-question buttons: the first three, hidden while typing. */
  function VisibleQuickQuestions(isTyping: bool): (r: seq<string>)
    ensures isTyping ==> r == []
    ensures !isTyping ==> |r| == 3 && r == QuickQuestions[..3]
  {
    if isTyping then [] else QuickQuestions[..3]
  }

  /** `prev.filter(msg => !msg.typing)`. */
  function WithoutTyping(ms: seq<Message>): (r: seq<Message>)
    ensures forall i :: 0 <= i < |r| ==> !r[i].typing && r[i] in ms
    ensures forall i :: 0 <= i < |ms| && !ms[i].typing ==> ms[i] in r
  {
    Filter(ms, (m: Message) => !m.typing)
  }

  /** Removing the indicators from a list whose only indicator is its last
      message drops just that message. */
  lemma WithoutTrailingIndicator(ms: seq<Message>)
    requires |ms| > 0 && ms[|ms| - 1].typing
    requires forall i :: 0 <= i < |ms| - 1 ==> !ms[i].typing
    ensures WithoutTyping(ms) == ms[..|ms| - 1]
  {
    var p := (m: Message) => !m.typing;
    assert ms == ms[..|ms| - 1] + [ms[|ms| - 1]];
    FilterConcat(ms[..|ms| - 1], [ms[|ms| - 1]], p);
    FilterKeepsAll(ms[..|ms| - 1], p);
  }

  datatype Phase = Idle | Waiting | Streaming

  /** The chat widget's state. */
  class ChatDemo {
    /** The replies the demo draws from. */
    const responses: seq<string>
    var messages: seq<Message>
    var inputValue: string
    var isTyping: bool
    var phase: Phase
    /** The reply chosen for the message being answered. */
    var reply: string
    /** The interval's `charIndex` and `currentText`. */
    var charIndex: nat
    var currentText: string
    /** The messages before the reply, fixed when the indicator goes. */
    ghost var base: seq<Message>

    /** `isTyping` is on from the send until the reply is written out. While
        waiting, the indicator is the last message and follows the user's
        message; otherwise there is no indicator. While streaming, the text
        written so far is the reply's first `charIndex` characters and is the
        content of an AI message after `base`, which ends with the user's
        message (no such message before the first character). */
    ghost predicate Valid()
      reads this
    {
      && (isTyping <==> phase != Idle)
      && (phase.Waiting? ==>
            |messages| >= 2 && messages[|messages| - 1].typing &&
            messages[|messages| - 2].sender == User &&
            forall i :: 0 <= i < |messages| - 1 ==> !messages[i].typing)
      && (!phase.Waiting? ==> forall i :: 0 <= i < |messages| ==> !messages[i].typing)
      && (phase.Streaming? ==>
            charIndex <= |reply| && currentText == reply[..charIndex] &&
            |base| > 0 && base[|base| - 1].sender == User &&
            (charIndex == 0 ==> messages == base) &&
            (charIndex > 0 ==>
               |messages| == |base| + 1 && messages[..|base|] == base &&
               messages[|base|].sender == Ai && messages[|base|].content == currentText))
    }

    constructor ()
      ensures Valid()
      ensures responses == DemoResponses
      ensures messages == [Greeting] && inputValue == "" && !isTyping && phase.Idle?
    {
      responses := DemoResponses;
      messages := [Greeting];
      inputValue := "";
      isTyping := false;
      phase := Idle;
      reply := "";
      charIndex := 0;
      currentText := "";
      base := [];
    }

    /** The input's `onChange`. */
    method SetInput(text: string)
      requires Valid()
      modifies this
      ensures Valid()
      ensures inputValue == text && messages == old(messages) && isTyping == old(isTyping)
    {
      inputValue := text;
    }

    /** `handleSendMessage`: a blank message or a send while typing changes
        nothing. Otherwise the trimmed message and then the typing indicator
        are appended, the input is cleared, and reply number `pick`
        (`ResponseIndex` of the random draw) starts. */
    method SendMessage(message: string, pick: nat, now: string)
      requires Valid() && pick < |responses|
      modifies this
      ensures Valid()
      ensures !CanSend(message, old(isTyping)) ==>
        messages == old(messages) && inputValue == old(inputValue) && isTyping == old(isTyping) && phase == old(phase)
      ensures CanSend(message, old(isTyping)) ==>
        messages == old(messages) + [Message(now, User, Trim(message), false), Message(now, Ai, "", true)] &&
        inputValue == "" && isTyping && phase.Waiting? && reply == responses[pick]
    {
      var text := Trim(message);
      if text == "" || isTyping {
        return;
      }
      var sent := messages + [Message(now, User, text, false)];
      inputValue := "";
      reply := responses[pick];
      isTyping := true;
      var shown := sent + [Message(now, Ai, "", true)];
      assert forall i :: 0 <= i < |shown| - 1 ==> shown[i] == sent[i];
      messages := shown;
      phase := Waiting;
    }

    /** The one-second timeout: every indicator is removed and the
        character interval starts from an empty text. */
    method TimeoutFired()
      requires Valid()
      modifies this
      ensures Valid()
      ensures old(phase).Waiting? ==>
        messages == WithoutTyping(old(messages)) && messages == old(messages)[..|old(messages)| - 1] &&
        phase.Streaming? && charIndex == 0 && currentText == "" && reply == old(reply)
      ensures !old(phase).Waiting? ==> messages == old(messages) && phase == old(phase)
      ensures isTyping == old(isTyping)
    {
      if !phase.Waiting? {
        return;
      }
      WithoutTrailingIndicator(messages);
      messages := WithoutTyping(messages);
      base := messages;
      charIndex := 0;
      currentText := "";
      phase := Streaming;
    }

    /** One run of the interval. While characters remain, the next one is
        added to the text, which replaces the content of the last message
        when that is a finished AI message and is pushed as a new AI message
        otherwise; once the reply is complete the interval stops and typing
        ends. Outside streaming nothing happens. */
    method Tick(now: string)
      requires Valid()
      modifies this
      ensures Valid() && base == old(base) && reply == old(reply)
      ensures old(phase).Streaming? && old(charIndex) < |reply| ==>
        phase.Streaming? && charIndex == old(charIndex) + 1 &&
        messages[..|messages| - 1] == base && messages[|messages| - 1].content == reply[..charIndex]
      ensures old(phase).Streaming? && old(charIndex) == |reply| ==>
        phase.Idle? && !isTyping && messages == old(messages)
      ensures !old(phase).Streaming? ==> messages == old(messages) && phase == old(phase)
    {
      if !phase.Streaming? {
        return;
      }
      if charIndex < |reply| {
        currentText := currentText + [reply[charIndex]];
        charIndex := charIndex + 1;
        assert currentText == reply[..charIndex];
        var last := messages[|messages| - 1];
        if last.sender == Ai && !last.typing {
          messages := messages[|messages| - 1 := last.(content := currentText)];
        } else {
          messages := messages + [Message(now, Ai, currentText, false)];
        }
      } else {
        phase := Idle;
        isTyping := false;
      }
    }
  }

  /** Once the reply is written out, the conversation is the messages
      before the reply followed by one AI message holding the whole reply. */
  lemma ReplyComplete(c: ChatDemo)
    requires c.Valid() && c.phase.Streaming? && c.charIndex == |c.reply| && |c.reply| > 0
    ensures c.messages == c.base + [c.messages[|c.base|]]
    ensures c.messages[|c.base|].sender == Ai && c.messages[|c.base|].content == c.reply
  {
    assert c.messages == c.messages[..|c.base|] + [c.messages[|c.base|]];
  }
}
