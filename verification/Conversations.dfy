/**
 Provider conversations (deepseek.go, anthropic.go and google.go in common/modelgateway, client.go in common/openai).

 A client turns each request's new input items into messages of its provider's protocol. `Translate` says
 what a whole history of input items and replies means to a provider, entry by entry; the append
 procedures, which see one delta at a time and collect tool results in a buffer, are proved to compute it.
 */
module Conversations {
  import opened Results
  import opened Text

  // ---------- Input items and replies ----------

  datatype Part =
    | InputText(text: string)
    | InputImage(imageURL: string)
    | InputFile(fileData: string, filename: string)
    | OtherPart(kind: string)

  /** A message's `content` string, its `content_items`, or neither. */
  datatype Content = PlainText(text: string) | ContentItems(parts: seq<Part>) | NoContent

  datatype Item = Message(role: string, content: Content) | ToolOutput(callID: string, output: string)

  /** A tool call of a reply; `encoded` is the JSON of its parsed arguments. */
  datatype ToolCall = ToolCall(callID: string, name: string, arguments: string, encoded: string)

  /** A provider's reply; `native` is the assistant message in the provider's own form. */
  datatype Reply = Reply(id: string, text: string, calls: seq<ToolCall>, native: string)

  /** One step of a conversation: an input item of the caller, or a reply of the provider. */
  datatype Entry = Input(item: Item) | Replied(reply: Reply)

  function Inputs(items: seq<Item>): (r: seq<Entry>)
    ensures |r| == |items|
  {
    seq(|items|, i requires 0 <= i < |items| => Input(items[i]))
  }

  /** The caller's side of a history. */
  function Items(h: seq<Entry>): seq<Item> {
    if h == [] then [] else
      var last := h[|h| - 1];
      Items(h[..|h| - 1]) + if last.Input? then [last.item] else []
  }

  // ---------- Provider messages ----------

  /** The protocols whose clients store the conversation and send all of it. OpenRouter is spoken to like the other
      OpenAI-compatible endpoints, but keeps no conversation itself. */
  datatype Protocol = DeepSeek | Anthropic | Google | OpenRouter

  datatype DataContent = DataContent(mediaType: string, data: string)

  datatype Block = TextBlock(text: string) | ImageBlock(image: DataContent)
    | DocumentBlock(document: DataContent, title: Option<string>) | InlineData(inline: DataContent)

  datatype Payload = Raw(text: string) | Object(json: string)

  datatype ToolResult = ToolResult(callID: string, name: Option<string>, payload: Payload)

  datatype Wire =
    | Say(role: string, blocks: seq<Block>)
    | ToolMessage(result: ToolResult)
    | ToolResults(results: seq<ToolResult>)
    | Assistant(native: string)
    | Given(item: Item)

  datatype Conversation = Conversation(system: seq<Block>, messages: seq<Wire>, toolNames: map<string, string>)

  const EMPTY := Conversation([], [], map[])

  datatype InputError = MissingCallID | UnknownCall(callID: string) | BadContent | UnsupportedPart(kind: string)
    | SystemInContinuation | UnsupportedRole(role: string)

  /** What the clients ask of the outside: parsing a base64 data URL, and a JSON object out of a text. */
  datatype Codec = Codec(dataURL: string -> Option<DataContent>, jsonObject: string -> Option<string>)

  // ---------- Message content ----------

  function ConvertPart(p: Protocol, c: Codec, part: Part): Result<Block, InputError> {
    match part
    case InputText(text) => Success(TextBlock(text))
    case InputImage(url) =>
      if p.DeepSeek? then Failure(UnsupportedPart("input_image"))
      else if c.dataURL(url).None? then Failure(BadContent)
      else Success(if p.Anthropic? then ImageBlock(c.dataURL(url).value) else InlineData(c.dataURL(url).value))
    case InputFile(data, filename) =>
      if p.DeepSeek? then Failure(UnsupportedPart("input_file"))
      else if c.dataURL(data).None? then Failure(BadContent)
      else if p.Google? then Success(InlineData(c.dataURL(data).value))
      else Success(DocumentBlock(c.dataURL(data).value, if IsBlank(filename) then None else Some(filename)))
    case OtherPart(kind) => Failure(UnsupportedPart(kind))
  }

  function ConvertParts(p: Protocol, c: Codec, parts: seq<Part>): Result<seq<Block>, InputError> {
    if parts == [] then Success([]) else
      var front := ConvertParts(p, c, parts[..|parts| - 1]);
      if front.Failure? then front else
        var last := ConvertPart(p, c, parts[|parts| - 1]);
        if last.Failure? then Failure(last.error) else Success(front.value + [last.value])
  }

  /** DeepSeek takes one text, into which the text parts are joined. */
  function Joined(blocks: seq<Block>): string {
    if blocks == [] then "" else
      Joined(blocks[..|blocks| - 1]) + if blocks[|blocks| - 1].TextBlock? then blocks[|blocks| - 1].text else ""
  }

  function ConvertContent(p: Protocol, c: Codec, content: Content): Result<seq<Block>, InputError> {
    match content
    case PlainText(text) => Success([TextBlock(text)])
    case NoContent => Failure(BadContent)
    case ContentItems(parts) =>
      var blocks := ConvertParts(p, c, parts);
      if p.DeepSeek? && blocks.Success? then Success([TextBlock(Joined(blocks.value))]) else blocks
  }

  // ---------- Items of the Responses interface ----------

  function GivenPart(part: Part): Result<Part, InputError> {
    match part
    case InputText(_) => Success(part)
    case InputImage(url) => Success(if IsBlank(url) then InputImage("") else part)
    case InputFile(data, filename) => Success(InputFile(if IsBlank(data) then "" else data, if IsBlank(filename) then "" else filename))
    case OtherPart(kind) => Failure(UnsupportedPart(kind))
  }

  function GivenParts(parts: seq<Part>): Result<seq<Part>, InputError> {
    if parts == [] then Success([]) else
      var front := GivenParts(parts[..|parts| - 1]);
      if front.Failure? then front else
        var last := GivenPart(parts[|parts| - 1]);
        if last.Failure? then Failure(last.error) else Success(front.value + [last.value])
  }

  function GivenContent(content: Content): Result<Content, InputError> {
    match content
    case PlainText(_) => Success(content)
    case NoContent => Failure(BadContent)
    case ContentItems(parts) =>
      var given := GivenParts(parts);
      if given.Failure? then Failure(given.error) else Success(ContentItems(given.value))
  }

  /** OpenAI-compatible endpoints take items much as they are. */
  function GivenItem(item: Item): Result<Item, InputError> {
    match item
    case ToolOutput(_, _) => Success(item)
    case Message(role, content) =>
      var r := Normalize(role);
      if content.NoContent? then Failure(BadContent)
      else if r !in ["user", "assistant", "system", "developer"] then Failure(UnsupportedRole(r))
      else
        var given := GivenContent(content);
        if given.Failure? then Failure(given.error) else Success(Message(r, given.value))
  }

  function GivenItems(items: seq<Item>): Result<seq<Item>, InputError> {
    if items == [] then Success([]) else
      var front := GivenItems(items[..|items| - 1]);
      if front.Failure? then front else
        var last := GivenItem(items[|items| - 1]);
        if last.Failure? then Failure(last.error) else Success(front.value + [last.value])
  }

  // ---------- The meaning of a history ----------

  function ToolNames(names: map<string, string>, calls: seq<ToolCall>): map<string, string> {
    if calls == [] then names else
      ToolNames(names, calls[..|calls| - 1])[calls[|calls| - 1].callID := calls[|calls| - 1].name]
  }

  /** What a provider is told about a tool output. */
  function ResultFor(p: Protocol, c: Codec, names: map<string, string>, callID: string, output: string): Result<ToolResult, InputError> {
    match p
    case Google =>
      var name := if callID in names then names[callID] else "";
      if IsBlank(name) then Failure(UnknownCall(callID))
      else Success(ToolResult(callID, Some(name),
                              if c.jsonObject(output).Some? then Object(c.jsonObject(output).value) else Raw(output)))
    case _ => if IsBlank(callID) then Failure(MissingCallID) else Success(ToolResult(callID, None, Raw(output)))
  }

  /** Consecutive tool outputs share one message, except that DeepSeek gets one message each. */
  function WithResult(p: Protocol, messages: seq<Wire>, afterOutput: bool, result: ToolResult): seq<Wire> {
    if p.DeepSeek? then messages + [ToolMessage(result)]
    else if afterOutput && messages != [] && messages[|messages| - 1].ToolResults? then
      messages[..|messages| - 1] + [ToolResults(messages[|messages| - 1].results + [result])]
    else messages + [ToolResults([result])]
  }

  function WithMessage(p: Protocol, c: Codec, conv: Conversation, role: string, content: Content, allowSystem: bool): Result<Conversation, InputError> {
    var blocks := ConvertContent(p, c, content);
    var r := Normalize(role);
    if p.DeepSeek? then
      var wireRole := if r == "developer" then "system" else r;
      if wireRole !in ["system", "user", "assistant"] then Failure(UnsupportedRole(wireRole))
      else if blocks.Failure? then Failure(blocks.error)
      else Success(conv.(messages := conv.messages + [Say(wireRole, blocks.value)]))
    else if blocks.Failure? then Failure(blocks.error)
    else if r in ["system", "developer"] then
      if allowSystem then Success(conv.(system := conv.system + blocks.value)) else Failure(SystemInContinuation)
    else if r == "user" then Success(conv.(messages := conv.messages + [Say("user", blocks.value)]))
    else if r == "assistant" then
      Success(conv.(messages := conv.messages + [Say(if p.Google? then "model" else "assistant", blocks.value)]))
    else Failure(UnsupportedRole(r))
  }

  function WithInput(p: Protocol, c: Codec, conv: Conversation, afterOutput: bool, item: Item, allowSystem: bool): Result<Conversation, InputError> {
    if p.OpenRouter? then
      var given := GivenItem(item);
      if given.Failure? then Failure(given.error) else Success(conv.(messages := conv.messages + [Given(given.value)]))
    else match item
    case Message(role, content) => WithMessage(p, c, conv, role, content, allowSystem)
    case ToolOutput(callID, output) =>
      var result := ResultFor(p, c, conv.toolNames, callID, output);
      if result.Failure? then Failure(result.error)
      else Success(conv.(messages := WithResult(p, conv.messages, afterOutput, result.value)))
  }

  /** Only Google's client keeps the names of the tools that were called. */
  function WithReply(p: Protocol, conv: Conversation, reply: Reply): Conversation {
    conv.(messages := conv.messages + [Assistant(reply.native)],
          toolNames := if p.Google? then ToolNames(conv.toolNames, reply.calls) else conv.toolNames)
  }

  predicate EndsInOutput(h: seq<Entry>) {
    h != [] && h[|h| - 1].Input? && h[|h| - 1].item.ToolOutput?
  }

  predicate HasReply(h: seq<Entry>) {
    exists k :: 0 <= k < |h| && h[k].Replied?
  }

  /** The provider's conversation after a whole history, or the first error in it. System messages are
      allowed at the root of a conversation, before any reply. */
  ghost function Translate(p: Protocol, c: Codec, root: bool, h: seq<Entry>): Result<Conversation, InputError> {
    if h == [] then Success(EMPTY) else
      var before := h[..|h| - 1];
      var conv := Translate(p, c, root, before);
      if conv.Failure? then conv else
        match h[|h| - 1]
        case Replied(reply) => Success(WithReply(p, conv.value, reply))
        case Input(item) => WithInput(p, c, conv.value, EndsInOutput(before), item, root && !HasReply(before))
  }

  // ---------- One delta at a time ----------

  /** A stored conversation extended by the new items of one request. */
  function Appended(p: Protocol, c: Codec, conv: Conversation, items: seq<Item>, allowSystem: bool): Result<Conversation, InputError> {
    if items == [] then Success(conv) else
      var before := items[..|items| - 1];
      var r := Appended(p, c, conv, before, allowSystem);
      if r.Failure? then r else
        WithInput(p, c, r.value, before != [] && before[|before| - 1].ToolOutput?, items[|items| - 1], allowSystem)
  }

  /** A first error stays the result whatever follows. */
  lemma {:induction false} AppendedFailsEarly(p: Protocol, c: Codec, conv: Conversation, items: seq<Item>, allowSystem: bool, k: nat)
    requires k <= |items| && Appended(p, c, conv, items[..k], allowSystem).Failure?
    ensures Appended(p, c, conv, items, allowSystem) == Appended(p, c, conv, items[..k], allowSystem)
  {
    if k < |items| {
      assert items[..|items| - 1][..k] == items[..k];
      AppendedFailsEarly(p, c, conv, items[..|items| - 1], allowSystem, k);
    } else {
      assert items[..k] == items;
    }
  }

  /** A history whose conversation is stored: it is empty, or its last entry is the reply it is stored under. */
  predicate Stored(h: seq<Entry>) {
    h != [] ==> h[|h| - 1].Replied?
  }

  /** Extending the stored conversation by a delta gives the translation of the whole extended history. */
  lemma {:induction false} TranslateInDeltas(p: Protocol, c: Codec, root: bool, h: seq<Entry>, items: seq<Item>)
    requires Stored(h) && Translate(p, c, root, h).Success?
    ensures Translate(p, c, root, h + Inputs(items))
         == Appended(p, c, Translate(p, c, root, h).value, items, root && h == [])
  {
    hide WithInput, Translate, Appended, Inputs, Stored, HasReply, EndsInOutput;
    if items == [] {
      NothingAppended(p, c, Translate(p, c, root, h).value, root && h == []);
      assert h + Inputs([]) == h;
    } else {
      var front, last := items[..|items| - 1], items[|items| - 1];
      TranslateInDeltas(p, c, root, h, front);
      InputsLast(h, front, last);
      assert items == front + [last];
      TranslatedLast(p, c, root, h + Inputs(front), last);
      AppendedLast(p, c, Translate(p, c, root, h).value, front, last, root && h == []);
      DeltaHasNoReply(h, front);
      DeltaEndsInOutput(h, front);
    }
  }

  lemma InputsLast(h: seq<Entry>, front: seq<Item>, last: Item)
    ensures h + Inputs(front + [last]) == (h + Inputs(front)) + [Input(last)]
  {
  }

  lemma TranslatedLast(p: Protocol, c: Codec, root: bool, h: seq<Entry>, item: Item)
    ensures Translate(p, c, root, h + [Input(item)]) ==
            if Translate(p, c, root, h).Failure? then Translate(p, c, root, h)
            else WithInput(p, c, Translate(p, c, root, h).value, EndsInOutput(h), item, root && !HasReply(h))
  {
    hide WithInput, HasReply, EndsInOutput;
    assert (h + [Input(item)])[..|h|] == h;
  }

  lemma NothingAppended(p: Protocol, c: Codec, conv: Conversation, allowSystem: bool)
    ensures Appended(p, c, conv, [], allowSystem) == Success(conv)
  {
  }

  lemma AppendedLast(p: Protocol, c: Codec, conv: Conversation, front: seq<Item>, last: Item, allowSystem: bool)
    ensures Appended(p, c, conv, front + [last], allowSystem) ==
            if Appended(p, c, conv, front, allowSystem).Failure? then Appended(p, c, conv, front, allowSystem)
            else WithInput(p, c, Appended(p, c, conv, front, allowSystem).value, front != [] && front[|front| - 1].ToolOutput?, last, allowSystem)
  {
    hide WithInput;
    assert (front + [last])[..|front|] == front;
  }

  lemma DeltaEndsInOutput(h: seq<Entry>, items: seq<Item>)
    requires Stored(h)
    ensures EndsInOutput(h + Inputs(items)) <==> items != [] && items[|items| - 1].ToolOutput?
  {
    if items == [] {
      assert h + Inputs(items) == h;
    } else {
      assert (h + Inputs(items))[|h + Inputs(items)| - 1] == Input(items[|items| - 1]);
    }
  }

  lemma DeltaHasNoReply(h: seq<Entry>, items: seq<Item>)
    requires Stored(h)
    ensures HasReply(h + Inputs(items)) <==> h != []
  {
    if h != [] { assert (h + Inputs(items))[|h| - 1].Replied?; }
  }

  lemma {:induction false} ItemsOfDelta(h: seq<Entry>, items: seq<Item>)
    ensures Items(h + Inputs(items)) == Items(h) + items
  {
    var all := h + Inputs(items);
    if items == [] {
      assert all == h;
    } else {
      assert all[..|all| - 1] == h + Inputs(items[..|items| - 1]);
      ItemsOfDelta(h, items[..|items| - 1]);
    }
  }

  // ---------- The append procedures ----------

  method ContentBlocks(p: Protocol, c: Codec, content: Content) returns (r: Result<seq<Block>, InputError>)
    ensures r == ConvertContent(p, c, content)
  {
    hide ConvertParts, ConvertPart, Joined;
    match content
    case PlainText(text) => return Success([TextBlock(text)]);
    case NoContent => return Failure(BadContent);
    case ContentItems(parts) =>
      var out: seq<Block>, text := [], "";
      NoParts(p, c);
      for i := 0 to |parts|
        invariant ConvertParts(p, c, parts[..i]) == Success(out)
        invariant text == Joined(out)
      {
        OneMorePart(p, c, parts, i);
        var block := ConvertPart(p, c, parts[i]);
        if block.Failure? {
          PartsFailEarly(p, c, parts, i + 1);
          return Failure(block.error);
        }
        JoinedLast(out, block.value);
        text := text + if block.value.TextBlock? then block.value.text else "";
        out := out + [block.value];
      }
      assert parts[..|parts|] == parts;
      return Success(if p.DeepSeek? then [TextBlock(text)] else out);
  }

  lemma NoParts(p: Protocol, c: Codec)
    ensures ConvertParts(p, c, []) == Success([]) && Joined([]) == ""
  {
  }

  lemma OneMorePart(p: Protocol, c: Codec, parts: seq<Part>, i: nat)
    requires i < |parts| && ConvertParts(p, c, parts[..i]).Success?
    ensures ConvertParts(p, c, parts[..i + 1]) ==
            if ConvertPart(p, c, parts[i]).Failure? then Failure(ConvertPart(p, c, parts[i]).error)
            else Success(ConvertParts(p, c, parts[..i]).value + [ConvertPart(p, c, parts[i]).value])
  {
    hide ConvertPart;
    assert parts[..i + 1][..i] == parts[..i];
  }

  lemma JoinedLast(blocks: seq<Block>, block: Block)
    ensures Joined(blocks + [block]) == Joined(blocks) + if block.TextBlock? then block.text else ""
  {
    assert (blocks + [block])[..|blocks|] == blocks;
  }

  lemma {:induction false} PartsFailEarly(p: Protocol, c: Codec, parts: seq<Part>, k: nat)
    requires k <= |parts| && ConvertParts(p, c, parts[..k]).Failure?
    ensures ConvertParts(p, c, parts) == ConvertParts(p, c, parts[..k])
  {
    if k < |parts| {
      assert parts[..|parts| - 1][..k] == parts[..k];
      PartsFailEarly(p, c, parts[..|parts| - 1], k);
    } else {
      assert parts[..k] == parts;
    }
  }

  method AppendDeepSeekInput(c: Codec, conversation: Conversation, items: seq<Item>) returns (r: Result<Conversation, InputError>)
    ensures r == Appended(DeepSeek, c, conversation, items, true)
  {
    hide WithMessage, Appended;
    NothingAppended(DeepSeek, c, conversation, true);
    var conv := conversation;
    for i := 0 to |items|
      invariant Appended(DeepSeek, c, conversation, items[..i], true) == Success(conv)
    {
      OneMoreAppended(DeepSeek, c, conversation, items, i, true);
      match items[i]
      case ToolOutput(callID, output) =>
        if IsBlank(callID) {
          AppendedFailsEarly(DeepSeek, c, conversation, items, true, i + 1);
          return Failure(MissingCallID);
        }
        conv := conv.(messages := conv.messages + [ToolMessage(ToolResult(callID, None, Raw(output)))]);
      case Message(role, content) =>
        var next := AppendDeepSeekMessage(c, conv, role, content);
        if next.Failure? {
          AppendedFailsEarly(DeepSeek, c, conversation, items, true, i + 1);
          return next;
        }
        conv := next.value;
    }
    assert items[..|items|] == items;
    return Success(conv);
  }

  method AppendDeepSeekMessage(c: Codec, conv: Conversation, role: string, content: Content)
    returns (r: Result<Conversation, InputError>)
    ensures r == WithMessage(DeepSeek, c, conv, role, content, true)
  {
    var wireRole := Normalize(role);
    if wireRole == "developer" { wireRole := "system"; }
    if wireRole != "system" && wireRole != "user" && wireRole != "assistant" { return Failure(UnsupportedRole(wireRole)); }
    var blocks := ContentBlocks(DeepSeek, c, content);
    if blocks.Failure? { return Failure(blocks.error); }
    return Success(conv.(messages := conv.messages + [Say(wireRole, blocks.value)]));
  }

  /** The pending tool results become one message. */
  function Flushed(conv: Conversation, pending: seq<ToolResult>): Conversation {
    if pending == [] then conv else conv.(messages := conv.messages + [ToolResults(pending)])
  }

  /** The translation has put a run of tool outputs into a message; the procedure still holds them back. */
  lemma PendingResult(p: Protocol, conv: Conversation, pending: seq<ToolResult>, result: ToolResult)
    requires !p.DeepSeek?
    ensures Flushed(conv, pending).(messages := WithResult(p, Flushed(conv, pending).messages, pending != [], result))
         == Flushed(conv, pending + [result])
  {
    if pending != [] {
      var m := conv.messages + [ToolResults(pending)];
      assert m[..|m| - 1] == conv.messages && m[|m| - 1] == ToolResults(pending);
      assert WithResult(p, m, true, result) == conv.messages + [ToolResults(pending + [result])];
    } else {
      assert pending + [result] == [result];
    }
  }

  lemma OneMoreAppended(p: Protocol, c: Codec, conv: Conversation, items: seq<Item>, i: nat, allowSystem: bool)
    requires i < |items| && Appended(p, c, conv, items[..i], allowSystem).Success?
    ensures Appended(p, c, conv, items[..i + 1], allowSystem) ==
            WithInput(p, c, Appended(p, c, conv, items[..i], allowSystem).value, i > 0 && items[i - 1].ToolOutput?, items[i], allowSystem)
  {
    hide WithInput;
    assert items[..i + 1][..i] == items[..i];
  }

  /** appendAnthropicInput and appendGoogleInput: tool results are buffered until the next message or the end. */
  method AppendGroupedInput(p: Protocol, c: Codec, conversation: Conversation, items: seq<Item>, allowSystem: bool)
    returns (r: Result<Conversation, InputError>)
    requires !p.DeepSeek? && !p.OpenRouter?
    ensures r == Appended(p, c, conversation, items, allowSystem)
  {
    hide WithMessage, ResultFor, WithResult, Appended;
    NothingAppended(p, c, conversation, allowSystem);
    var conv, pending: seq<ToolResult> := conversation, [];
    for i := 0 to |items|
      invariant Appended(p, c, conversation, items[..i], allowSystem) == Success(Flushed(conv, pending))
      invariant conv.toolNames == conversation.toolNames
      invariant pending != [] <==> i > 0 && items[i - 1].ToolOutput?
    {
      OneMoreAppended(p, c, conversation, items, i, allowSystem);
      match items[i]
      case ToolOutput(callID, output) =>
        var result := ResultFor(p, c, conv.toolNames, callID, output);
        if result.Failure? {
          AppendedFailsEarly(p, c, conversation, items, allowSystem, i + 1);
          return Failure(result.error);
        }
        PendingResult(p, conv, pending, result.value);
        pending := pending + [result.value];
      case Message(role, content) =>
        conv, pending := Flushed(conv, pending), [];
        var next := AppendMessage(p, c, conv, role, content, allowSystem);
        if next.Failure? {
          AppendedFailsEarly(p, c, conversation, items, allowSystem, i + 1);
          return next;
        }
        conv := next.value;
    }
    assert items[..|items|] == items;
    return Success(Flushed(conv, pending));
  }

  lemma {:induction false} GivenFailsEarly(items: seq<Item>, k: nat)
    requires k <= |items| && GivenItems(items[..k]).Failure?
    ensures GivenItems(items) == GivenItems(items[..k])
  {
    if k < |items| {
      assert items[..|items| - 1][..k] == items[..k];
      GivenFailsEarly(items[..|items| - 1], k);
    } else {
      assert items[..k] == items;
    }
  }

  /** convertInputItems of the OpenAI-compatible client. */
  method ConvertInputItems(items: seq<Item>) returns (r: Result<seq<Item>, InputError>)
    ensures r == GivenItems(items)
  {
    hide GivenItem;
    var given := [];
    for i := 0 to |items|
      invariant GivenItems(items[..i]) == Success(given)
    {
      assert items[..i + 1][..i] == items[..i];
      var item := GivenItem(items[i]);
      if item.Failure? {
        GivenFailsEarly(items, i + 1);
        return Failure(item.error);
      }
      given := given + [item.value];
    }
    assert items[..|items|] == items;
    return Success(given);
  }

  function Givens(items: seq<Item>): (r: seq<Wire>)
    ensures |r| == |items|
  {
    seq(|items|, i requires 0 <= i < |items| => Given(items[i]))
  }

  /** For OpenRouter the stored input and output are followed by the converted items. */
  lemma {:induction false} AppendedGiven(c: Codec, conv: Conversation, items: seq<Item>, allowSystem: bool)
    ensures Appended(OpenRouter, c, conv, items, allowSystem) ==
      if GivenItems(items).Failure? then Failure(GivenItems(items).error)
      else Success(conv.(messages := conv.messages + Givens(GivenItems(items).value)))
  {
    hide GivenItem;
    if items != [] {
      var front := items[..|items| - 1];
      AppendedGiven(c, conv, front, allowSystem);
      if GivenItems(items).Success? {
        var given, last := GivenItems(front).value, GivenItem(items[|items| - 1]).value;
        assert Givens(given + [last]) == Givens(given) + [Given(last)];
        assert conv.messages + Givens(given) + [Given(last)] == conv.messages + (Givens(given) + [Given(last)]);
      }
    } else {
      assert conv.messages + Givens([]) == conv.messages;
    }
  }

  method AppendMessage(p: Protocol, c: Codec, conv: Conversation, role: string, content: Content, allowSystem: bool)
    returns (r: Result<Conversation, InputError>)
    requires !p.DeepSeek?
    ensures r == WithMessage(p, c, conv, role, content, allowSystem)
    ensures r.Success? ==> r.value.toolNames == conv.toolNames
  {
    var name := Normalize(role);
    var blocks := ContentBlocks(p, c, content);
    if blocks.Failure? { return Failure(blocks.error); }
    if name == "system" || name == "developer" {
      if !allowSystem { return Failure(SystemInContinuation); }
      return Success(conv.(system := conv.system + blocks.value));
    } else if name == "user" {
      return Success(conv.(messages := conv.messages + [Say("user", blocks.value)]));
    } else if name == "assistant" {
      return Success(conv.(messages := conv.messages + [Say(if p.Google? then "model" else "assistant", blocks.value)]));
    } else {
      return Failure(UnsupportedRole(name));
    }
  }

  // ---------- What a provider is told ----------

  /** The call identifiers of the tool outputs in a history, in order. */
  function OutputCalls(h: seq<Entry>): seq<string> {
    if h == [] then [] else
      var last := h[|h| - 1];
      OutputCalls(h[..|h| - 1]) + if last.Input? && last.item.ToolOutput? then [last.item.callID] else []
  }

  function ResultCalls(results: seq<ToolResult>): seq<string> {
    seq(|results|, i requires 0 <= i < |results| => results[i].callID)
  }

  function WireCalls(message: Wire): seq<string> {
    match message
    case ToolMessage(result) => [result.callID]
    case ToolResults(results) => ResultCalls(results)
    case Given(ToolOutput(callID, _)) => [callID]
    case _ => []
  }

  /** The call identifiers of the tool results in a message list, in order. */
  function AnsweredCalls(messages: seq<Wire>): seq<string> {
    if messages == [] then [] else AnsweredCalls(messages[..|messages| - 1]) + WireCalls(messages[|messages| - 1])
  }

  lemma AnsweredAfter(messages: seq<Wire>, message: Wire)
    ensures AnsweredCalls(messages + [message]) == AnsweredCalls(messages) + WireCalls(message)
  {
    assert (messages + [message])[..|messages|] == messages;
  }

  lemma AnsweredWithResult(p: Protocol, messages: seq<Wire>, afterOutput: bool, result: ToolResult)
    ensures AnsweredCalls(WithResult(p, messages, afterOutput, result)) == AnsweredCalls(messages) + [result.callID]
  {
    if !p.DeepSeek? && afterOutput && messages != [] && messages[|messages| - 1].ToolResults? {
      var front, results := messages[..|messages| - 1], messages[|messages| - 1].results;
      AnsweredAfter(front, ToolResults(results + [result]));
      assert ResultCalls(results + [result]) == ResultCalls(results) + [result.callID];
    } else {
      AnsweredAfter(messages, if p.DeepSeek? then ToolMessage(result) else ToolResults([result]));
    }
  }

  /** Every tool output reaches the provider in exactly one message, in the order given. */
  lemma {:induction false} EveryOutputAnsweredOnce(p: Protocol, c: Codec, root: bool, h: seq<Entry>)
    requires Translate(p, c, root, h).Success?
    ensures AnsweredCalls(Translate(p, c, root, h).value.messages) == OutputCalls(h)
  {
    hide WithResult, ConvertContent, Normalize, AnsweredCalls;
    if h == [] {
      NothingAnswered();
    } else {
      var before := h[..|h| - 1];
      EveryOutputAnsweredOnce(p, c, root, before);
      var conv := Translate(p, c, root, before).value;
      match h[|h| - 1]
      case Replied(reply) => AnsweredAfter(conv.messages, Assistant(reply.native));
      case Input(item) => AnsweredByInput(p, c, conv, EndsInOutput(before), item, root && !HasReply(before));
    }
  }

  lemma NothingAnswered()
    ensures AnsweredCalls([]) == []
  {
  }

  lemma AnsweredByInput(p: Protocol, c: Codec, conv: Conversation, afterOutput: bool, item: Item, allowSystem: bool)
    requires WithInput(p, c, conv, afterOutput, item, allowSystem).Success?
    ensures AnsweredCalls(WithInput(p, c, conv, afterOutput, item, allowSystem).value.messages)
         == AnsweredCalls(conv.messages) + if item.ToolOutput? then [item.callID] else []
  {
    hide AnsweredCalls, ConvertContent, Normalize, WithResult;
    var next := WithInput(p, c, conv, afterOutput, item, allowSystem).value;
    if p.OpenRouter? {
      AnsweredAfter(conv.messages, Given(GivenItem(item).value));
      return;
    }
    match item
    case ToolOutput(callID, output) =>
      AnsweredWithResult(p, conv.messages, afterOutput, ResultFor(p, c, conv.toolNames, callID, output).value);
    case Message(role, content) =>
      if next.messages != conv.messages { AnsweredAfter(conv.messages, next.messages[|conv.messages|]); }
  }

  // ---------- Google's tool names ----------

  /** Some reply of the history made a call under this identifier. */
  predicate Issued(h: seq<Entry>, callID: string) {
    exists k :: 0 <= k < |h| && IssuedBy(h[k], callID)
  }

  predicate IssuedBy(e: Entry, callID: string) {
    e.Replied? && exists j :: 0 <= j < |e.reply.calls| && e.reply.calls[j].callID == callID
  }

  /** Replies with an unnamed tool call are refused when they are parsed. */
  predicate CallsNamed(h: seq<Entry>) {
    forall k :: 0 <= k < |h| ==> NamesItsCalls(h[k])
  }

  predicate NamesItsCalls(e: Entry) {
    e.Replied? ==> forall j :: 0 <= j < |e.reply.calls| ==> !IsBlank(e.reply.calls[j].name)
  }

  lemma {:induction false} ToolNamesOfCalls(names: map<string, string>, calls: seq<ToolCall>, callID: string)
    requires forall j :: 0 <= j < |calls| ==> !IsBlank(calls[j].name)
    requires callID in names ==> !IsBlank(names[callID])
    ensures callID in ToolNames(names, calls) <==> callID in names || exists j :: 0 <= j < |calls| && calls[j].callID == callID
    ensures callID in ToolNames(names, calls) ==> !IsBlank(ToolNames(names, calls)[callID])
  {
    hide IsBlank;
    if calls != [] {
      var front := calls[..|calls| - 1];
      ToolNamesOfCalls(names, front, callID);
      assert (exists j :: 0 <= j < |calls| && calls[j].callID == callID)
        <==> (exists j :: 0 <= j < |front| && front[j].callID == callID) || calls[|calls| - 1].callID == callID;
    }
  }

  lemma {:induction false} NamesAreIssued(c: Codec, root: bool, h: seq<Entry>, callID: string)
    requires Translate(Google, c, root, h).Success? && CallsNamed(h)
    ensures var names := Translate(Google, c, root, h).value.toolNames;
            && (callID in names <==> Issued(h, callID))
            && (callID in names ==> !IsBlank(names[callID]))
  {
    hide IsBlank, WithResult, ConvertContent, Normalize, ToolNames;
    if h != [] {
      var before, last := h[..|h| - 1], h[|h| - 1];
      assert NamesItsCalls(last);
      assert CallsNamed(before) by {
        forall k | 0 <= k < |before| ensures NamesItsCalls(before[k]) { assert NamesItsCalls(h[k]); }
      }
      NamesAreIssued(c, root, before, callID);
      assert Issued(h, callID) <==> Issued(before, callID) || IssuedBy(last, callID) by { IssuedLast(h, callID); }
      if last.Replied? {
        ToolNamesOfCalls(Translate(Google, c, root, before).value.toolNames, last.reply.calls, callID);
      }
    }
  }

  lemma IssuedLast(h: seq<Entry>, callID: string)
    requires h != []
    ensures Issued(h, callID) <==> Issued(h[..|h| - 1], callID) || IssuedBy(h[|h| - 1], callID)
  {
    var before := h[..|h| - 1];
    if Issued(before, callID) {
      var k :| 0 <= k < |before| && IssuedBy(before[k], callID);
      assert IssuedBy(h[k], callID);
    }
    if Issued(h, callID) {
      var k :| 0 <= k < |h| && IssuedBy(h[k], callID);
      if k < |before| { assert IssuedBy(before[k], callID); }
    }
  }

  /** Google accepts a tool output exactly when a reply on the path issued its call. */
  lemma GoogleAcceptsIssuedCalls(c: Codec, root: bool, h: seq<Entry>, callID: string, output: string)
    requires Translate(Google, c, root, h).Success? && CallsNamed(h)
    ensures Translate(Google, c, root, h + [Input(ToolOutput(callID, output))]).Success? <==> Issued(h, callID)
    ensures !Issued(h, callID) ==>
      Translate(Google, c, root, h + [Input(ToolOutput(callID, output))]) == Failure(UnknownCall(callID))
  {
    NamesAreIssued(c, root, h, callID);
    var next := h + [Input(ToolOutput(callID, output))];
    assert next[..|next| - 1] == h;
    BlankIsBlank();
  }

  lemma BlankIsBlank()
    ensures IsBlank("")
  {
  }
}
