/**
 Chat-completion messages (common/modelgateway/server.go): conversion to input items, the assistant message
 made of a reply, and the check that a client's history repeats what it was told.
 */
module Chat {
  import opened Conversations
  import opened Results
  import opened Text

  datatype ChatPart = NotAnObject | PartObject(kind: string, text: Option<string>, imageURL: Option<string>)

  datatype ChatContent = Null | Str(text: string) | Parts(parts: seq<ChatPart>) | OtherContent

  /** `arguments` is None when the call has no function object or its arguments are not a string; `extra` holds whatever
      other fields the call and its function object have. */
  datatype ChatCall = ChatCall(id: string, name: string, arguments: Option<string>, extra: string)

  /** The other fields of a call as they are told to a client. */
  const FUNCTION_CALL := "type: function"

  datatype ChatCalls = NoCalls | MalformedCalls | Calls(calls: seq<ChatCall>)

  /** A message of a chat request; `extra` holds whatever other fields it has. */
  datatype ChatMessage = ChatMessage(role: string, content: ChatContent, toolCallID: string, calls: ChatCalls, extra: string)

  /** A JSON value. */
  datatype Json = Json(value: string)

  datatype ChatError =
    | ModelRequired | OtherModel | MessagesRequired | ToolChoiceUnsupported | BadTools
    | RemovedMessages | NotEncodable(index: nat) | ChangedMessage(index: nat)
    | BadChatContent | ToolMessageWithoutCallID | NewAssistantMessage | UnsupportedChatRole(role: string)

  /** Parsing of JSON texts, as far as it is used: the value, if the text is valid. */
  type Parse = string -> Option<Json>

  // ---------- New messages become input items ----------

  function PartInput(part: ChatPart): Option<Part> {
    match part
    case NotAnObject => None
    case PartObject(kind, text, imageURL) =>
      if kind in ["text", "input_text"] then Some(InputText(if text.Some? then text.value else ""))
      else if kind == "image_url" && imageURL.Some? && !IsBlank(imageURL.value) then Some(InputImage(imageURL.value))
      else None
  }

  function PartInputs(parts: seq<ChatPart>): Option<seq<Part>> {
    if parts == [] then Some([]) else
      var front, last := PartInputs(parts[..|parts| - 1]), PartInput(parts[|parts| - 1]);
      if front.Some? && last.Some? then Some(front.value + [last.value]) else None
  }

  /** The text of a tool message. */
  function PartTexts(parts: seq<ChatPart>): Option<string> {
    if parts == [] then Some("") else
      var front, last := PartTexts(parts[..|parts| - 1]), parts[|parts| - 1];
      if front.Some? && last.PartObject? && last.text.Some? then Some(front.value + last.text.value) else None
  }

  function TextContent(content: ChatContent): Option<string> {
    match content
    case Str(text) => Some(text)
    case Parts(parts) => PartTexts(parts)
    case _ => None
  }

  function MessageContent(content: ChatContent): Option<Content> {
    match content
    case Str(text) => Some(PlainText(text))
    case Parts(parts) => var inputs := PartInputs(parts); if inputs.Some? then Some(ContentItems(inputs.value)) else None
    case _ => None
  }

  function ChatItem(m: ChatMessage): Result<Item, ChatError> {
    var role := Normalize(m.role);
    if role in ["system", "developer", "user"] then
      var content := MessageContent(m.content);
      if content.Some? then Success(Message(role, content.value)) else Failure(BadChatContent)
    else if role == "tool" then
      if IsBlank(m.toolCallID) then Failure(ToolMessageWithoutCallID)
      else if TextContent(m.content).None? then Failure(BadChatContent)
      else Success(ToolOutput(m.toolCallID, TextContent(m.content).value))
    else if role == "assistant" then Failure(NewAssistantMessage)
    else Failure(UnsupportedChatRole(role))
  }

  function ChatItems(messages: seq<ChatMessage>): Result<seq<Item>, ChatError> {
    if messages == [] then Success([]) else
      var front := ChatItems(messages[..|messages| - 1]);
      if front.Failure? then front else
        var last := ChatItem(messages[|messages| - 1]);
        if last.Failure? then Failure(last.error) else Success(front.value + [last.value])
  }

  lemma {:induction false} ChatItemsFailEarly(messages: seq<ChatMessage>, k: nat)
    requires k <= |messages| && ChatItems(messages[..k]).Failure?
    ensures ChatItems(messages) == ChatItems(messages[..k])
  {
    if k < |messages| {
      assert messages[..|messages| - 1][..k] == messages[..k];
      ChatItemsFailEarly(messages[..|messages| - 1], k);
    } else {
      assert messages[..k] == messages;
    }
  }

  /** Converted messages and items correspond one to one. */
  lemma {:induction false} ChatItemsEach(messages: seq<ChatMessage>)
    requires ChatItems(messages).Success?
    ensures |ChatItems(messages).value| == |messages|
    ensures forall k :: 0 <= k < |messages| ==> ChatItem(messages[k]) == Success(ChatItems(messages).value[k])
  {
    hide ChatItem;
    if messages != [] { ChatItemsEach(messages[..|messages| - 1]); }
  }

  method ChatInputItems(messages: seq<ChatMessage>) returns (r: Result<seq<Item>, ChatError>)
    ensures r == ChatItems(messages)
  {
    var items := [];
    for i := 0 to |messages|
      invariant ChatItems(messages[..i]) == Success(items)
    {
      assert messages[..i + 1][..i] == messages[..i];
      var item := ChatItem(messages[i]);
      if item.Failure? {
        ChatItemsFailEarly(messages, i + 1);
        return Failure(item.error);
      }
      items := items + [item.value];
    }
    assert messages[..|messages|] == messages;
    return Success(items);
  }

  // ---------- The assistant message of a reply ----------

  function ChatCallOf(call: ToolCall): ChatCall {
    ChatCall(call.callID, call.name, Some(if IsBlank(call.arguments) then call.encoded else call.arguments), FUNCTION_CALL)
  }

  function ChatCallsOf(calls: seq<ToolCall>): (r: seq<ChatCall>)
    ensures |r| == |calls|
  {
    seq(|calls|, i requires 0 <= i < |calls| => ChatCallOf(calls[i]))
  }

  function AssistantMessage(reply: Reply): ChatMessage {
    if reply.calls == [] then ChatMessage("assistant", Str(reply.text), "", NoCalls, "")
    else ChatMessage("assistant", if reply.text == "" then Null else Str(reply.text), "",
                     Calls(ChatCallsOf(reply.calls)), "")
  }

  // ---------- What is said ----------

  predicate PartFits(part: ChatPart) {
    && part.PartObject?
    && (part.kind == "text" || part.kind == "input_text" || (part.kind == "image_url" && part.imageURL.Some? && !IsBlank(part.imageURL.value)))
  }

  predicate PartSays(part: ChatPart, item: Part) {
    part.PartObject? &&
    match item
    case InputText(text) => part.kind != "image_url" && text == if part.text.Some? then part.text.value else ""
    case InputImage(url) => part.kind == "image_url" && part.imageURL == Some(url)
    case _ => false
  }

  predicate PartsFit(parts: seq<ChatPart>) {
    forall i :: 0 <= i < |parts| ==> PartFits(parts[i])
  }

  predicate PartsSay(parts: seq<ChatPart>, items: seq<Part>) {
    |items| == |parts| && forall i :: 0 <= i < |parts| ==> PartSays(parts[i], items[i])
  }

  lemma {:induction false} PartsConverted(parts: seq<ChatPart>)
    ensures PartInputs(parts).Some? <==> PartsFit(parts)
    ensures PartInputs(parts).Some? ==> PartsSay(parts, PartInputs(parts).value)
  {
    hide IsBlank;
    if parts != [] { PartsConverted(parts[..|parts| - 1]); }
  }

  predicate AllTexts(parts: seq<ChatPart>) {
    forall i :: 0 <= i < |parts| ==> parts[i].PartObject? && parts[i].text.Some?
  }

  /** The texts of the parts, one after the other. */
  function Concatenated(parts: seq<ChatPart>): string
    requires AllTexts(parts)
  {
    if parts == [] then "" else parts[0].text.value + Concatenated(parts[1..])
  }

  lemma {:induction false} ConcatenatedLast(parts: seq<ChatPart>)
    requires parts != [] && AllTexts(parts)
    ensures Concatenated(parts) == Concatenated(parts[..|parts| - 1]) + parts[|parts| - 1].text.value
  {
    if |parts| > 1 {
      assert parts[1..][..|parts| - 2] == parts[..|parts| - 1][1..];
      ConcatenatedLast(parts[1..]);
    }
  }

  lemma {:induction false} TextsConcatenated(parts: seq<ChatPart>)
    ensures PartTexts(parts).Some? <==> AllTexts(parts)
    ensures PartTexts(parts).Some? ==> PartTexts(parts).value == Concatenated(parts)
  {
    if parts != [] {
      TextsConcatenated(parts[..|parts| - 1]);
      if AllTexts(parts) { ConcatenatedLast(parts); }
    }
  }

  /** A message's content, as an item has it. */
  predicate ContentSays(content: ChatContent, told: Content) {
    match content
    case Str(text) => told == PlainText(text)
    case Parts(parts) => told.ContentItems? && PartsSay(parts, told.parts)
    case _ => false
  }

  /** A system, developer or user message becomes a message item of that role with the same texts and images, part by
      part; a tool message becomes the output of its call, its text or its texts joined. Nothing else is accepted. */
  lemma ChatItemSays(m: ChatMessage)
    ensures var role, item := Normalize(m.role), ChatItem(m);
            var speaks := role == "system" || role == "developer" || role == "user";
            && (item.Success? <==>
                 || (speaks && (m.content.Str? || (m.content.Parts? && PartsFit(m.content.parts))))
                 || (role == "tool" && !IsBlank(m.toolCallID) && (m.content.Str? || (m.content.Parts? && AllTexts(m.content.parts)))))
            && (item.Success? && speaks ==> item.value.Message? && item.value.role == role && ContentSays(m.content, item.value.content))
            && (item.Success? && role == "tool" ==>
                 && item.value.ToolOutput? && item.value.callID == m.toolCallID
                 && item.value.output == if m.content.Str? then m.content.text else Concatenated(m.content.parts))
            && (item.Failure? && speaks ==> item.error == BadChatContent)
            && (item.Failure? && role == "tool" ==> item.error == if IsBlank(m.toolCallID) then ToolMessageWithoutCallID else BadChatContent)
            && (role == "assistant" ==> item == Failure(NewAssistantMessage))
            && (!speaks && role != "tool" && role != "assistant" ==> item == Failure(UnsupportedChatRole(role)))
  {
    hide Normalize, PartInputs, PartTexts, PartsFit, PartsSay, AllTexts, IsBlank;
    if m.content.Parts? {
      PartsConverted(m.content.parts);
      TextsConcatenated(m.content.parts);
    }
  }

  /** The assistant message tells the reply's text, and its calls in order: identifier, name and arguments, these as
      the model wrote them if it wrote any. */
  lemma AssistantMessageSays(reply: Reply)
    ensures var m := AssistantMessage(reply);
            && m.role == "assistant" && m.toolCallID == "" && m.extra == ""
            && (reply.text != "" ==> m.content == Str(reply.text))
            && (reply.text == "" ==> m.content == if reply.calls == [] then Str("") else Null)
            && (reply.calls == [] ==> m.calls == NoCalls)
            && (reply.calls != [] ==> m.calls.Calls? && |m.calls.calls| == |reply.calls|)
            && forall i :: 0 <= i < |reply.calls| ==> CallTold(reply.calls[i], m.calls.calls[i])
  {
    hide IsBlank;
  }

  predicate CallTold(call: ToolCall, told: ChatCall) {
    && told.id == call.callID && told.name == call.name && told.extra == FUNCTION_CALL
    && (IsBlank(call.arguments) ==> told.arguments == Some(call.encoded))
    && (!IsBlank(call.arguments) ==> told.arguments == Some(call.arguments))
  }

  // ---------- History messages up to the formatting of JSON arguments ----------

  datatype NormalCall = NormalCall(id: string, name: string, arguments: Json, extra: string)

  /** What two history messages are compared by. */
  datatype Normal = Verbatim(message: ChatMessage)
    | Normalized(content: ChatContent, toolCallID: string, calls: seq<NormalCall>, extra: string)

  /** The arguments text that counts: an unparsable one gives way to the other message's, if there is one. */
  function ArgumentsText(parse: Parse, own: string, fallback: Option<ChatCalls>, index: nat): Option<string> {
    if parse(own).Some? || fallback.None? then Some(own)
    else if !fallback.value.Calls? || index >= |fallback.value.calls| then None
    else fallback.value.calls[index].arguments
  }

  function NormalizeCall(parse: Parse, call: ChatCall, fallback: Option<ChatCalls>, index: nat): Option<NormalCall> {
    if call.arguments.None? then None else
      var text := ArgumentsText(parse, call.arguments.value, fallback, index);
      if text.None? || parse(text.value).None? then None
      else Some(NormalCall(call.id, call.name, parse(text.value).value, call.extra))
  }

  function NormalizeCalls(parse: Parse, calls: seq<ChatCall>, fallback: Option<ChatCalls>): (r: Option<seq<NormalCall>>)
    ensures r.Some? ==> |r.value| == |calls|
  {
    if calls == [] then Some([]) else
      var n := |calls| - 1;
      var front, last := NormalizeCalls(parse, calls[..n], fallback), NormalizeCall(parse, calls[n], fallback, n);
      if front.Some? && last.Some? then Some(front.value + [last.value]) else None
  }

  function NormalContent(content: ChatContent): ChatContent {
    if content.Str? && IsBlank(content.text) then Null else content
  }

  /** The form by which historyMessageJSON compares a message. */
  function NormalForm(parse: Parse, m: ChatMessage, fallback: Option<ChatMessage>): Option<Normal> {
    if m.role != "assistant" || m.calls.NoCalls? then Some(Verbatim(m))
    else if !m.calls.Calls? then None
    else
      var calls := NormalizeCalls(parse, m.calls.calls, if fallback.Some? then Some(fallback.value.calls) else None);
      if calls.None? then None else Some(Normalized(NormalContent(m.content), m.toolCallID, calls.value, m.extra))
  }

  /** The message passes for the expected one. */
  predicate Same(parse: Parse, message: ChatMessage, expected: ChatMessage) {
    var form := NormalForm(parse, message, None);
    form.Some? && form == NormalForm(parse, expected, Some(message))
  }

  function MessageError(parse: Parse, message: ChatMessage, expected: ChatMessage, index: nat): Option<ChatError> {
    if NormalForm(parse, message, None).None? || NormalForm(parse, expected, Some(message)).None? then Some(NotEncodable(index))
    else if NormalForm(parse, message, None) != NormalForm(parse, expected, Some(message)) then Some(ChangedMessage(index))
    else None
  }

  /** The first complaint about the first n expected messages. */
  function FirstDifference(parse: Parse, messages: seq<ChatMessage>, expected: seq<ChatMessage>, n: nat): Option<ChatError>
    requires n <= |expected| <= |messages|
  {
    if n == 0 then None else
      var earlier := FirstDifference(parse, messages, expected, n - 1);
      if earlier.Some? then earlier else MessageError(parse, messages[n - 1], expected[n - 1], n - 1)
  }

  function HistoryError(parse: Parse, messages: seq<ChatMessage>, expected: seq<ChatMessage>): Option<ChatError> {
    if |messages| < |expected| then Some(RemovedMessages) else FirstDifference(parse, messages, expected, |expected|)
  }

  lemma {:induction false} FirstDifferenceStays(parse: Parse, messages: seq<ChatMessage>, expected: seq<ChatMessage>, k: nat, n: nat)
    requires k <= n <= |expected| <= |messages| && FirstDifference(parse, messages, expected, k).Some?
    ensures FirstDifference(parse, messages, expected, n) == FirstDifference(parse, messages, expected, k)
  {
    if k < n { FirstDifferenceStays(parse, messages, expected, k, n - 1); }
  }

  method CheckMessagePrefix(parse: Parse, messages: seq<ChatMessage>, expected: seq<ChatMessage>) returns (r: Option<ChatError>)
    ensures r == HistoryError(parse, messages, expected)
  {
    hide MessageError;
    if |messages| < |expected| { return Some(RemovedMessages); }
    for i := 0 to |expected|
      invariant FirstDifference(parse, messages, expected, i).None?
    {
      r := MessageError(parse, messages[i], expected[i], i);
      if r.Some? {
        FirstDifferenceStays(parse, messages, expected, i + 1, |expected|);
        return;
      }
    }
    return None;
  }

  lemma {:induction false} NoDifference(parse: Parse, messages: seq<ChatMessage>, expected: seq<ChatMessage>, n: nat)
    requires n <= |expected| <= |messages|
    ensures FirstDifference(parse, messages, expected, n).None? <==> forall k :: 0 <= k < n ==> Same(parse, messages[k], expected[k])
  {
    hide NormalForm;
    if n > 0 { NoDifference(parse, messages, expected, n - 1); }
  }

  /** No complaint exactly when every expected message comes back in its place. */
  lemma HistoryAccepted(parse: Parse, messages: seq<ChatMessage>, expected: seq<ChatMessage>)
    ensures HistoryError(parse, messages, expected).None? <==>
      |expected| <= |messages| && forall k :: 0 <= k < |expected| ==> Same(parse, messages[k], expected[k])
  {
    if |expected| <= |messages| { NoDifference(parse, messages, expected, |expected|); }
  }

  // ---------- What repeated echoing preserves ----------

  lemma {:induction false} CallsOfEcho(parse: Parse, calls: seq<ChatCall>, fallback: Option<ChatCalls>)
    requires forall i :: 0 <= i < |calls| ==> calls[i].arguments.Some? && parse(calls[i].arguments.value).Some?
    ensures NormalizeCalls(parse, calls, fallback) == NormalizeCalls(parse, calls, None)
    ensures NormalizeCalls(parse, calls, fallback).Some?
  {
    if calls != [] { CallsOfEcho(parse, calls[..|calls| - 1], fallback); }
  }

  lemma {:induction false} CallsParse(parse: Parse, calls: seq<ChatCall>)
    requires NormalizeCalls(parse, calls, None).Some?
    ensures forall i :: 0 <= i < |calls| ==> calls[i].arguments.Some? && parse(calls[i].arguments.value).Some?
    ensures forall i :: 0 <= i < |calls| ==>
      NormalizeCalls(parse, calls, None).value[i] == NormalCall(calls[i].id, calls[i].name, parse(calls[i].arguments.value).value, calls[i].extra)
  {
    if calls != [] { CallsParse(parse, calls[..|calls| - 1]); }
  }

  /** Two messages with the same decoded arguments serve equally well as a fallback. */
  lemma {:induction false} SameFallback(parse: Parse, calls: seq<ChatCall>, a: seq<ChatCall>, b: seq<ChatCall>)
    requires NormalizeCalls(parse, a, None).Some? && NormalizeCalls(parse, a, None) == NormalizeCalls(parse, b, None)
    ensures NormalizeCalls(parse, calls, Some(Calls(a))) == NormalizeCalls(parse, calls, Some(Calls(b)))
  {
    if calls != [] {
      var n := |calls| - 1;
      SameFallback(parse, calls[..n], a, b);
      CallsParse(parse, a);
      CallsParse(parse, b);
      if n < |a| {
        assert NormalizeCalls(parse, a, None).value[n] == NormalizeCalls(parse, b, None).value[n];
      }
    }
  }

  /** An echo of an accepted echo is an echo of the original: accepted histories never drift. */
  lemma EchoOfEcho(parse: Parse, second: ChatMessage, first: ChatMessage, original: ChatMessage)
    requires Same(parse, second, first) && Same(parse, first, original)
    ensures Same(parse, second, original)
  {
    if first.role == "assistant" && first.calls.Calls? {
      CallsParse(parse, first.calls.calls);
      CallsOfEcho(parse, first.calls.calls, Some(second.calls));
      if original.role == "assistant" && original.calls.Calls? && second.calls.Calls? {
        SameFallback(parse, original.calls.calls, first.calls.calls, second.calls.calls);
      }
    }
  }

  /** Every tool call of the reply carries arguments that are valid JSON. */
  predicate ArgumentsParse(parse: Parse, reply: Reply) {
    forall i :: 0 <= i < |reply.calls| ==> parse(ChatCallOf(reply.calls[i]).arguments.value).Some?
  }

  /** A client that repeats the assistant message word for word is accepted exactly when all its tool
      arguments are valid JSON. */
  lemma VerbatimEcho(parse: Parse, reply: Reply)
    ensures Same(parse, AssistantMessage(reply), AssistantMessage(reply)) <==> ArgumentsParse(parse, reply)
  {
    hide NormalizeCalls;
    var m, calls := AssistantMessage(reply), ChatCallsOf(reply.calls);
    if reply.calls != [] {
      if ArgumentsParse(parse, reply) {
        ArgumentsOfCalls(reply.calls);
        CallsOfEcho(parse, calls, Some(m.calls));
      }
      if Same(parse, m, m) {
        CallsParse(parse, calls);
        forall i | 0 <= i < |reply.calls| ensures parse(ChatCallOf(reply.calls[i]).arguments.value).Some? {
          assert calls[i] == ChatCallOf(reply.calls[i]);
        }
      }
    }
  }

  /** A reply with one tool call whose arguments are not valid JSON: the client that repeats it is refused. */
  lemma UnparsableEchoRefused(parse: Parse)
    requires parse("{").None?
    ensures var m := AssistantMessage(Reply("r", "", [ToolCall("c", "f", "{", "{}")], ""));
            !Same(parse, m, m) && HistoryError(parse, [m], [m]) == Some(NotEncodable(0))
  {
    hide NormalizeCalls;
    var reply := Reply("r", "", [ToolCall("c", "f", "{", "{}")], "");
    var m := AssistantMessage(reply);
    OutsideRanges("{"[0], WHITE_SPACE);
    TrimSpaceTrims("{");
    assert ChatCallOf(reply.calls[0]).arguments == Some("{");
    VerbatimEcho(parse, reply);
    UnparsableNormal(parse, m);
    assert FirstDifference(parse, [m], [m], 0).None?;
  }

  lemma UnparsableNormal(parse: Parse, m: ChatMessage)
    requires m.role == "assistant" && m.calls.Calls? && |m.calls.calls| == 1 && m.calls.calls[0].arguments.Some?
    requires parse(m.calls.calls[0].arguments.value).None?
    ensures NormalForm(parse, m, None).None?
  {
    if NormalForm(parse, m, None).Some? { CallsParse(parse, m.calls.calls); }
  }

  lemma ArgumentsOfCalls(calls: seq<ToolCall>)
    ensures forall i :: 0 <= i < |calls| ==> ChatCallsOf(calls)[i] == ChatCallOf(calls[i]) && ChatCallsOf(calls)[i].arguments.Some?
  {
  }

  lemma {:induction false} CallsKeepNames(parse: Parse, calls: seq<ChatCall>, fallback: Option<ChatCalls>, i: nat)
    requires i < |calls| && NormalizeCalls(parse, calls, fallback).Some?
    ensures var n := NormalizeCalls(parse, calls, fallback).value[i]; n.id == calls[i].id && n.name == calls[i].name && n.extra == calls[i].extra
  {
    if i < |calls| - 1 { CallsKeepNames(parse, calls[..|calls| - 1], fallback, i); }
  }

  /** An accepted echo of an assistant message repeats its calls by identifier and name, in order, with no other
      field added or changed. */
  lemma EchoKeepsCalls(parse: Parse, echo: ChatMessage, reply: Reply, i: nat)
    requires Same(parse, echo, AssistantMessage(reply)) && i < |reply.calls|
    ensures echo.role == "assistant" && echo.calls.Calls? && |echo.calls.calls| == |reply.calls|
    ensures echo.calls.calls[i].id == reply.calls[i].callID && echo.calls.calls[i].name == reply.calls[i].name
    ensures echo.calls.calls[i].extra == FUNCTION_CALL
  {
    var m := AssistantMessage(reply);
    CallsKeepNames(parse, echo.calls.calls, None, i);
    CallsKeepNames(parse, m.calls.calls, Some(echo.calls), i);
  }

  /** A message that was converted into an input item comes back unchanged. */
  lemma InputComesBackUnchanged(parse: Parse, message: ChatMessage, expected: ChatMessage)
    requires ChatItem(expected).Success? && Same(parse, message, expected)
    ensures message == expected
  {
    AssistantIsNormal();
  }

  lemma AssistantIsNormal()
    ensures Normalize("assistant") == "assistant"
  {
    var s := "assistant";
    OutsideRanges(s[0], WHITE_SPACE);
    OutsideRanges(s[8], WHITE_SPACE);
    TrimSpaceTrims(s);
    assert ToLower(s) == s;
  }

  // ---------- What passes for an expected message ----------

  /** The same identifier, name and other fields, with arguments that are valid JSON for the same value; an expected
      text that is not valid JSON stands for whatever came back. */
  predicate SameCall(parse: Parse, call: ChatCall, expected: ChatCall) {
    && call.id == expected.id && call.name == expected.name && call.extra == expected.extra
    && call.arguments.Some? && parse(call.arguments.value).Some?
    && expected.arguments.Some?
    && (parse(expected.arguments.value).Some? ==> parse(expected.arguments.value) == parse(call.arguments.value))
  }

  predicate BlankContent(content: ChatContent) {
    content.Null? || (content.Str? && IsBlank(content.text))
  }

  lemma CallCompared(parse: Parse, calls: seq<ChatCall>, expected: ChatCall, i: nat)
    requires i < |calls| && calls[i].arguments.Some? && parse(calls[i].arguments.value).Some?
    ensures var normal := NormalCall(calls[i].id, calls[i].name, parse(calls[i].arguments.value).value, calls[i].extra);
            NormalizeCall(parse, expected, Some(Calls(calls)), i) == Some(normal) <==> SameCall(parse, calls[i], expected)
  {
  }

  lemma {:induction false} CallsCompared(parse: Parse, calls: seq<ChatCall>, expected: seq<ChatCall>, n: nat)
    requires n <= |calls| && n <= |expected| && NormalizeCalls(parse, calls, None).Some?
    ensures NormalizeCalls(parse, expected[..n], Some(Calls(calls))) == Some(NormalizeCalls(parse, calls, None).value[..n])
       <==> forall i :: 0 <= i < n ==> SameCall(parse, calls[i], expected[i])
    ensures (forall i :: 0 <= i < n ==> SameCall(parse, calls[i], expected[i])) ==> NormalizeCalls(parse, expected[..n], Some(Calls(calls))).Some?
  {
    hide NormalizeCalls, NormalizeCall, SameCall;
    CallsParse(parse, calls);
    var normal := NormalizeCalls(parse, calls, None).value;
    if n == 0 {
      NothingNormal(parse, expected, Some(Calls(calls)));
    } else {
      CallsCompared(parse, calls, expected, n - 1);
      assert expected[..n][..n - 1] == expected[..n - 1];
      assert normal[..n] == normal[..n - 1] + [normal[n - 1]];
      LastNormal(parse, expected[..n], Some(Calls(calls)));
      CallCompared(parse, calls, expected[n - 1], n - 1);
      var front := NormalizeCalls(parse, expected[..n - 1], Some(Calls(calls)));
      if front.Some? { assert front.value + [normal[n - 1]] == normal[..n] <==> front.value == normal[..n - 1]; }
    }
  }

  lemma NothingNormal(parse: Parse, calls: seq<ChatCall>, fallback: Option<ChatCalls>)
    ensures NormalizeCalls(parse, calls[..0], fallback) == Some([])
  {
  }

  lemma LastNormal(parse: Parse, calls: seq<ChatCall>, fallback: Option<ChatCalls>)
    requires calls != []
    ensures var n := |calls| - 1;
            var front, last := NormalizeCalls(parse, calls[..n], fallback), NormalizeCall(parse, calls[n], fallback, n);
            NormalizeCalls(parse, calls, fallback) == if front.Some? && last.Some? then Some(front.value + [last.value]) else None
  {
  }

  lemma {:induction false} CallsParseWhen(parse: Parse, calls: seq<ChatCall>)
    requires forall i :: 0 <= i < |calls| ==> calls[i].arguments.Some? && parse(calls[i].arguments.value).Some?
    ensures NormalizeCalls(parse, calls, None).Some?
  {
    if calls != [] { CallsParseWhen(parse, calls[..|calls| - 1]); }
  }

  /** A message passes for the expected one exactly if it is the same message, or both are an assistant's with the same
      calls up to the writing of their arguments and the same content up to blank text. A message whose own arguments are
      not valid JSON never passes. */
  lemma SameExactly(parse: Parse, m: ChatMessage, expected: ChatMessage)
    ensures Same(parse, m, expected) <==>
      if m.role == expected.role == "assistant" && !m.calls.NoCalls? && !expected.calls.NoCalls? then
        && m.calls.Calls? && expected.calls.Calls? && |m.calls.calls| == |expected.calls.calls|
        && (forall i :: 0 <= i < |m.calls.calls| ==> SameCall(parse, m.calls.calls[i], expected.calls.calls[i]))
        && m.toolCallID == expected.toolCallID && m.extra == expected.extra
        && (m.content == expected.content || (BlankContent(m.content) && BlankContent(expected.content)))
      else m == expected && (m.role == "assistant" ==> m.calls.NoCalls?)
  {
    hide NormalizeCalls, IsBlank;
    if m.role == expected.role == "assistant" && m.calls.Calls? && expected.calls.Calls? {
      var calls, others := m.calls.calls, expected.calls.calls;
      if NormalizeCalls(parse, calls, None).Some? {
        CallsParse(parse, calls);
        if |calls| == |others| {
          CallsCompared(parse, calls, others, |calls|);
          assert others[..|calls|] == others;
          assert NormalizeCalls(parse, calls, None).value[..|calls|] == NormalizeCalls(parse, calls, None).value;
        }
      } else if forall i :: 0 <= i < |calls| ==> calls[i].arguments.Some? && parse(calls[i].arguments.value).Some? {
        CallsParseWhen(parse, calls);
      }
    }
  }
}
