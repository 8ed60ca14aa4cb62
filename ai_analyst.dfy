/** The chat of src/components/AI/AIAnalyst.tsx: the send guard, the
    append-only transcript, the delayed AI reply, and the keyword responder. */
module AIAnalyst {
  import opened Wrappers
  import opened Strings

  datatype Sender = UserMessage | AiMessage

  /** A transcript entry: who wrote it and its text. */
  datatype ChatMessage = ChatMessage(sender: Sender, content: string)

  // ---------------------------------------------------------------------
  // generateAIResponse
  // ---------------------------------------------------------------------

  /** The keys of `responses`, in their declaration order. */
  const ResponseKeys: seq<string> := ["engagement", "conversion", "retention", "default"]

  const EngagementText: string := "Based on your user engagement data, I've identified several key patterns and opportunities for improvement."
  const ConversionText: string := "Your conversion analysis reveals interesting trends and potential optimization areas."
  const RetentionText: string := "User retention metrics show both positive trends and areas that need attention."
  const DefaultText: string := "I've analyzed the relevant data and found some interesting insights for you."

  /** `responses[key]`. */
  function ResponseFor(key: string): string {
    if key == "engagement" then EngagementText
    else if key == "conversion" then ConversionText
    else if key == "retention" then RetentionText
    else DefaultText
  }

  /** The position of the first key, from position i on, that occurs in text. */
  function FirstKeyFrom(text: string, i: nat): (r: Option<nat>)
    requires i <= |ResponseKeys|
    ensures r.Some? ==> i <= r.value < |ResponseKeys| && Contains(text, ResponseKeys[r.value])
    ensures r.Some? ==> forall j :: i <= j < r.value ==> !Contains(text, ResponseKeys[j])
    ensures r.None? ==> forall j :: i <= j < |ResponseKeys| ==> !Contains(text, ResponseKeys[j])
    decreases |ResponseKeys| - i
  {
    if i == |ResponseKeys| then None
    else if Contains(text, ResponseKeys[i]) then Some(i)
    else FirstKeyFrom(text, i + 1)
  }

  /** `generateAIResponse(input)`: the reply for the first key, in key order,
      that occurs in the lower-cased input; the default reply when none does. */
  function GenerateAIResponse(input: string): (r: string)
    ensures var k := FirstKeyFrom(Lower(input), 0);
      && (k.Some? ==> r == ResponseFor(ResponseKeys[k.value]))
      && (k.None? ==> r == DefaultText)
  {
    match FirstKeyFrom(Lower(input), 0)
    case Some(k) => ResponseFor(ResponseKeys[k])
    case None => DefaultText
  }

  /** Which reply an input gets is decided by key order, not by where the
      keywords appear in the text. */
  lemma ResponsePrecedence(input: string)
    ensures Contains(Lower(input), "engagement") ==> GenerateAIResponse(input) == EngagementText
    ensures !Contains(Lower(input), "engagement") && Contains(Lower(input), "conversion")
            ==> GenerateAIResponse(input) == ConversionText
    ensures (!Contains(Lower(input), "engagement") && !Contains(Lower(input), "conversion")
             && Contains(Lower(input), "retention")) ==> GenerateAIResponse(input) == RetentionText
    ensures (!Contains(Lower(input), "engagement") && !Contains(Lower(input), "conversion")
             && !Contains(Lower(input), "retention")) ==> GenerateAIResponse(input) == DefaultText
  {
    var t := Lower(input);
    assert ResponseKeys[0] == "engagement" && ResponseKeys[1] == "conversion";
    assert ResponseKeys[2] == "retention" && ResponseKeys[3] == "default";
    if !Contains(t, "engagement") && !Contains(t, "conversion") && !Contains(t, "retention") {
      var k := FirstKeyFrom(t, 0);
      assert k.Some? ==> k.value == 3;
    }
  }

  /** "default" is itself a key: an input whose only keyword is "default"
      matches that key, and so gets the default reply through the lookup. */
  lemma DefaultKeywordIsAKey(input: string)
    requires Contains(Lower(input), "default")
    requires !Contains(Lower(input), "engagement") && !Contains(Lower(input), "conversion")
    requires !Contains(Lower(input), "retention")
    ensures FirstKeyFrom(Lower(input), 0) == Some(3)
    ensures GenerateAIResponse(input) == DefaultText
  {
    assert ResponseKeys[0] == "engagement" && ResponseKeys[1] == "conversion";
    assert ResponseKeys[2] == "retention" && ResponseKeys[3] == "default";
  }

  /** A message that mentions conversion before engagement still gets the engagement reply. */
  lemma KeyOrderBeatsPosition(a: string, b: string, c: string)
    ensures GenerateAIResponse(a + "conversion" + b + "engagement" + c) == EngagementText
  {
    var s := a + "conversion" + b + "engagement" + c;
    LowerAppend(a + "conversion" + b, "engagement", c);
    assert Lower("engagement") == "engagement";
    ContainsInfix(Lower(a + "conversion" + b), "engagement", Lower(c));
    ResponsePrecedence(s);
  }

  /** Lower-casing distributes over a three-part concatenation. */
  lemma LowerAppend(a: string, b: string, c: string)
    ensures Lower(a + b + c) == Lower(a) + Lower(b) + Lower(c)
  {
    var s := a + b + c;
    assert forall i :: 0 <= i < |s| ==> Lower(s)[i] == (Lower(a) + Lower(b) + Lower(c))[i];
  }

  // ---------------------------------------------------------------------
  // The send guard and the transcript
  // ---------------------------------------------------------------------

  /** The send button's `disabled`: the same test as the guard of `handleSendMessage`. */
  function SendDisabled(input: string): (r: bool)
    ensures r <==> forall i :: 0 <= i < |input| ==> IsJsSpace(input[i])
  {
    TrimEmptyIff(input);
    Trim(input) == ""
  }

  /** The chat's React state, with the texts passed to `onSendMessage` and the
      texts whose reply timers are still running, oldest first. */
  class ChatPanel {
    var messages: seq<ChatMessage>
    var inputMessage: string
    var isTyping: bool
    var sentTexts: seq<string>
    var pendingReplies: seq<string>

    constructor (greeting: seq<ChatMessage>)
      ensures messages == greeting && inputMessage == "" && !isTyping
      ensures sentTexts == [] && pendingReplies == []
    {
      messages := greeting;
      inputMessage := "";
      isTyping := false;
      sentTexts := [];
      pendingReplies := [];
    }

    /** Typing in the input field. */
    method OnInputChange(text: string)
      modifies this
      ensures inputMessage == text
      ensures messages == old(messages) && isTyping == old(isTyping)
      ensures sentTexts == old(sentTexts) && pendingReplies == old(pendingReplies)
    {
      inputMessage := text;
    }

    /** `handleSendMessage`: a blank input is ignored; otherwise the input, as
        typed, is appended as the user's message, the field is cleared, the
        typing indicator shown, `onSendMessage` called, and a reply scheduled. */
    method HandleSendMessage()
      modifies this
      ensures SendDisabled(old(inputMessage)) ==>
        && messages == old(messages) && inputMessage == old(inputMessage) && isTyping == old(isTyping)
        && sentTexts == old(sentTexts) && pendingReplies == old(pendingReplies)
      ensures !SendDisabled(old(inputMessage)) ==>
        && messages == old(messages) + [ChatMessage(UserMessage, old(inputMessage))]
        && inputMessage == "" && isTyping
        && sentTexts == old(sentTexts) + [old(inputMessage)]
        && pendingReplies == old(pendingReplies) + [old(inputMessage)]
    {
      if Trim(inputMessage) == "" {
        return;
      }
      var sent := inputMessage;
      messages := messages + [ChatMessage(UserMessage, sent)];
      inputMessage := "";
      isTyping := true;
      sentTexts := sentTexts + [sent];
      pendingReplies := pendingReplies + [sent];
    }

    /** The reply timer fires: the reply to the text that was sent is appended
        and the typing indicator cleared. */
    method DeliverReply()
      requires pendingReplies != []
      modifies this
      ensures messages == old(messages) + [ChatMessage(AiMessage, GenerateAIResponse(old(pendingReplies)[0]))]
      ensures !isTyping && inputMessage == old(inputMessage)
      ensures sentTexts == old(sentTexts) && pendingReplies == old(pendingReplies)[1..]
    {
      var text := pendingReplies[0];
      messages := messages + [ChatMessage(AiMessage, GenerateAIResponse(text))];
      pendingReplies := pendingReplies[1..];
      isTyping := false;
    }
  }
}
