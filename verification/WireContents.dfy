/**
 What a provider is told by a conversation (deepseek.go, anthropic.go and google.go in common/modelgateway,
 client.go in common/openai): which entries of a history it accepts, which message each accepted entry becomes,
 and what every message says.
 */
module WireContents {
  import opened Results
  import opened Text
  import opened Conversations

  // ---------- Contents ----------

  /** OpenRouter takes images and files as they are; the others must be able to decode them. */
  predicate PartFits(p: Protocol, c: Codec, part: Part) {
    match part
    case InputText(_) => true
    case InputImage(url) => p.OpenRouter? || (!p.DeepSeek? && c.dataURL(url).Some?)
    case InputFile(data, _) => p.OpenRouter? || (!p.DeepSeek? && c.dataURL(data).Some?)
    case OtherPart(_) => false
  }

  predicate ContentFits(p: Protocol, c: Codec, content: Content) {
    match content
    case PlainText(_) => true
    case NoContent => false
    case ContentItems(parts) => PartsFit(p, c, parts)
  }

  predicate PartsFit(p: Protocol, c: Codec, parts: seq<Part>) {
    forall i :: 0 <= i < |parts| ==> PartFits(p, c, parts[i])
  }

  /** The error for a part that does not fit. */
  function PartError(p: Protocol, part: Part): InputError {
    if part.OtherPart? then UnsupportedPart(part.kind)
    else if p.DeepSeek? then UnsupportedPart(if part.InputImage? then "input_image" else "input_file")
    else BadContent
  }

  /** The error names the first part that does not fit. */
  predicate PartsBlamed(p: Protocol, c: Codec, parts: seq<Part>, error: InputError) {
    exists i :: 0 <= i < |parts| && PartsFit(p, c, parts[..i]) && !PartFits(p, c, parts[i]) && error == PartError(p, parts[i])
  }

  predicate ContentBlamed(p: Protocol, c: Codec, content: Content, error: InputError) {
    match content
    case PlainText(_) => false
    case NoContent => error == BadContent
    case ContentItems(parts) => PartsBlamed(p, c, parts, error)
  }

  predicate PartRenders(p: Protocol, c: Codec, part: Part, block: Block) {
    match part
    case InputText(text) => block == TextBlock(text)
    case InputImage(url) =>
      && c.dataURL(url).Some?
      && (if p.Google? then block == InlineData(c.dataURL(url).value) else block == ImageBlock(c.dataURL(url).value))
    case InputFile(data, filename) =>
      && c.dataURL(data).Some?
      && (if p.Google? then block == InlineData(c.dataURL(data).value)
          else block == DocumentBlock(c.dataURL(data).value, if IsBlank(filename) then None else Some(filename)))
    case OtherPart(_) => false
  }

  predicate PartsRender(p: Protocol, c: Codec, parts: seq<Part>, blocks: seq<Block>) {
    |blocks| == |parts| && forall i :: 0 <= i < |parts| ==> PartRenders(p, c, parts[i], blocks[i])
  }

  /** The texts of a message's parts, one after the other. */
  function Texts(parts: seq<Part>): string {
    if parts == [] then "" else
      Texts(parts[..|parts| - 1]) + if parts[|parts| - 1].InputText? then parts[|parts| - 1].text else ""
  }

  predicate ContentRenders(p: Protocol, c: Codec, content: Content, blocks: seq<Block>) {
    match content
    case PlainText(text) => blocks == [TextBlock(text)]
    case NoContent => false
    case ContentItems(parts) => if p.DeepSeek? then blocks == [TextBlock(Texts(parts))] else PartsRender(p, c, parts, blocks)
  }

  /** Part by part, or the first part that does not fit. */
  lemma {:induction false} PartsConverted(p: Protocol, c: Codec, parts: seq<Part>)
    requires !p.OpenRouter?
    ensures ConvertParts(p, c, parts).Success? <==> PartsFit(p, c, parts)
    ensures ConvertParts(p, c, parts).Success? ==> PartsRender(p, c, parts, ConvertParts(p, c, parts).value)
    ensures ConvertParts(p, c, parts).Failure? ==> PartsBlamed(p, c, parts, ConvertParts(p, c, parts).error)
  {
    hide IsBlank;
    if parts != [] {
      var front, last := parts[..|parts| - 1], parts[|parts| - 1];
      PartsConverted(p, c, front);
      if ConvertParts(p, c, front).Failure? {
        StillBlamed(p, c, front, parts, ConvertParts(p, c, front).error);
      } else if !PartFits(p, c, last) {
        assert PartError(p, last) == ConvertPart(p, c, last).error;
        assert parts[..|front|] == front;
      }
    }
  }

  lemma StillBlamed(p: Protocol, c: Codec, front: seq<Part>, parts: seq<Part>, error: InputError)
    requires front <= parts && PartsBlamed(p, c, front, error)
    ensures PartsBlamed(p, c, parts, error) && !PartsFit(p, c, parts)
  {
    hide PartFits, PartError;
    var i :| 0 <= i < |front| && PartsFit(p, c, front[..i]) && !PartFits(p, c, front[i]) && error == PartError(p, front[i]);
    assert parts[..i] == front[..i] && parts[i] == front[i];
  }

  lemma {:induction false} TextsJoined(c: Codec, parts: seq<Part>)
    requires ConvertParts(DeepSeek, c, parts).Success?
    ensures Joined(ConvertParts(DeepSeek, c, parts).value) == Texts(parts)
  {
    if parts != [] {
      var front := ConvertParts(DeepSeek, c, parts[..|parts| - 1]).value;
      TextsJoined(c, parts[..|parts| - 1]);
      var blocks := ConvertParts(DeepSeek, c, parts).value;
      assert blocks[..|blocks| - 1] == front;
    }
  }

  lemma ContentConverted(p: Protocol, c: Codec, content: Content)
    requires !p.OpenRouter?
    ensures ConvertContent(p, c, content).Success? <==> ContentFits(p, c, content)
    ensures ConvertContent(p, c, content).Success? ==> ContentRenders(p, c, content, ConvertContent(p, c, content).value)
    ensures ConvertContent(p, c, content).Failure? ==> ContentBlamed(p, c, content, ConvertContent(p, c, content).error)
  {
    hide ConvertParts, PartsFit, PartsBlamed, PartsRender, Joined, Texts;
    if content.ContentItems? {
      PartsConverted(p, c, content.parts);
      if p.DeepSeek? && ConvertParts(p, c, content.parts).Success? { TextsJoined(c, content.parts); }
    }
  }

  // ---------- OpenRouter's items ----------

  /** The same part, except that a blank image, file or name is sent as an empty one. */
  predicate SamePart(part: Part, given: Part) {
    match part
    case InputText(text) => given == InputText(text)
    case InputImage(url) => given.InputImage? && given.imageURL == Unblanked(url)
    case InputFile(data, filename) => given.InputFile? && given.fileData == Unblanked(data) && given.filename == Unblanked(filename)
    case OtherPart(_) => false
  }

  function Unblanked(s: string): string {
    if IsBlank(s) then "" else s
  }

  predicate SameParts(parts: seq<Part>, given: seq<Part>) {
    |given| == |parts| && forall i :: 0 <= i < |parts| ==> SamePart(parts[i], given[i])
  }

  predicate SameContent(content: Content, given: Content) {
    match content
    case PlainText(text) => given == PlainText(text)
    case NoContent => false
    case ContentItems(parts) => given.ContentItems? && SameParts(parts, given.parts)
  }

  lemma {:induction false} PartsGiven(c: Codec, parts: seq<Part>)
    ensures GivenParts(parts).Success? <==> PartsFit(OpenRouter, c, parts)
    ensures GivenParts(parts).Success? ==> SameParts(parts, GivenParts(parts).value)
    ensures GivenParts(parts).Failure? ==> PartsBlamed(OpenRouter, c, parts, GivenParts(parts).error)
  {
    hide IsBlank;
    if parts != [] {
      var front, last := parts[..|parts| - 1], parts[|parts| - 1];
      PartsGiven(c, front);
      if GivenParts(front).Failure? {
        StillBlamed(OpenRouter, c, front, parts, GivenParts(front).error);
      } else if !PartFits(OpenRouter, c, last) {
        assert PartError(OpenRouter, last) == GivenPart(last).error;
        assert parts[..|front|] == front;
      }
    }
  }

  // ---------- Messages ----------

  predicate SystemRole(role: string) {
    Normalize(role) == "system" || Normalize(role) == "developer"
  }

  predicate KnownRole(role: string) {
    SystemRole(role) || Normalize(role) == "user" || Normalize(role) == "assistant"
  }

  /** Anthropic and Google are told system texts apart from the messages. */
  predicate KeepsSystemApart(p: Protocol) {
    p.Anthropic? || p.Google?
  }

  predicate MessageFits(p: Protocol, c: Codec, role: string, content: Content, allowSystem: bool) {
    && ContentFits(p, c, content)
    && KnownRole(role)
    && (KeepsSystemApart(p) && SystemRole(role) ==> allowSystem)
  }

  /** DeepSeek's client looks at the role first, the others at the content; OpenRouter's looks for a content,
      then at the role, then at the parts. */
  predicate MessageBlamed(p: Protocol, c: Codec, role: string, content: Content, error: InputError) {
    var roleFirst := p.DeepSeek? || (p.OpenRouter? && !content.NoContent?);
    if !KnownRole(role) && (roleFirst || ContentFits(p, c, content)) then error == UnsupportedRole(Normalize(role))
    else if !ContentFits(p, c, content) then ContentBlamed(p, c, content, error)
    else error == SystemInContinuation
  }

  predicate MessageRenders(p: Protocol, c: Codec, role: string, content: Content, wire: Wire) {
    if p.OpenRouter? then
      wire.Given? && wire.item.Message? && wire.item.role == Normalize(role) && SameContent(content, wire.item.content)
    else
      && wire.Say?
      && ContentRenders(p, c, content, wire.blocks)
      && (Normalize(role) == "user" ==> wire.role == "user")
      && (Normalize(role) == "assistant" ==> wire.role == (if p.Google? then "model" else "assistant"))
      && (SystemRole(role) ==> wire.role == "system")
  }

  /** One message more, or one piece of system text more, or an error. */
  lemma MessageConverted(p: Protocol, c: Codec, conv: Conversation, role: string, content: Content, allowSystem: bool)
    requires !p.OpenRouter?
    ensures var r := WithMessage(p, c, conv, role, content, allowSystem);
      && (r.Success? <==> MessageFits(p, c, role, content, allowSystem))
      && (r.Failure? ==> MessageBlamed(p, c, role, content, r.error))
      && (r.Success? ==> r.value.toolNames == conv.toolNames && MessageAdded(p, c, conv, role, content, r.value))
  {
    hide ConvertContent, ContentFits, ContentRenders, ContentBlamed, Normalize;
    ContentConverted(p, c, content);
    var r := WithMessage(p, c, conv, role, content, allowSystem);
    if r.Success? {
      var blocks := ConvertContent(p, c, content).value;
      if KeepsSystemApart(p) && SystemRole(role) {
        assert r.value.system == conv.system + blocks;
        assert r.value.system[|conv.system|..] == blocks;
      } else {
        assert r.value.messages[..|conv.messages|] == conv.messages;
      }
    }
  }

  predicate MessageAdded(p: Protocol, c: Codec, conv: Conversation, role: string, content: Content, next: Conversation) {
    if KeepsSystemApart(p) && SystemRole(role) then
      && next.messages == conv.messages
      && conv.system <= next.system
      && ContentRenders(p, c, content, next.system[|conv.system|..])
    else
      && next.system == conv.system
      && |next.messages| == |conv.messages| + 1
      && conv.messages <= next.messages
      && MessageRenders(p, c, role, content, next.messages[|conv.messages|])
  }

  lemma ItemGiven(c: Codec, item: Item)
    ensures item.ToolOutput? ==> GivenItem(item) == Success(item)
    ensures item.Message? ==>
      && (GivenItem(item).Success? <==> MessageFits(OpenRouter, c, item.role, item.content, true))
      && (GivenItem(item).Failure? ==> MessageBlamed(OpenRouter, c, item.role, item.content, GivenItem(item).error))
      && (GivenItem(item).Success? ==> MessageRenders(OpenRouter, c, item.role, item.content, Given(GivenItem(item).value)))
  {
    hide GivenParts, PartsFit, PartsBlamed, SameParts, Normalize;
    if item.Message? && item.content.ContentItems? { PartsGiven(c, item.content.parts); }
  }

  // ---------- Tool outputs ----------

  /** The name of the last of these calls that bears the identifier, or the name found otherwise. */
  function NameAmong(calls: seq<ToolCall>, callID: string, otherwise: string): string {
    if calls == [] then otherwise
    else if calls[|calls| - 1].callID == callID then calls[|calls| - 1].name
    else NameAmong(calls[..|calls| - 1], callID, otherwise)
  }

  /** The name under which a tool was last called with this identifier; empty when it never was. */
  function LastName(h: seq<Entry>, callID: string): string {
    if h == [] then "" else
      var before := LastName(h[..|h| - 1], callID);
      if h[|h| - 1].Replied? then NameAmong(h[|h| - 1].reply.calls, callID, before) else before
  }

  function NameIn(names: map<string, string>, callID: string): string {
    if callID in names then names[callID] else ""
  }

  lemma {:induction false} NamesOfCalls(names: map<string, string>, calls: seq<ToolCall>, callID: string)
    ensures NameIn(ToolNames(names, calls), callID) == NameAmong(calls, callID, NameIn(names, callID))
  {
    if calls != [] { NamesOfCalls(names, calls[..|calls| - 1], callID); }
  }

  predicate OutputFits(p: Protocol, earlier: seq<Entry>, callID: string) {
    if p.Google? then !IsBlank(LastName(earlier, callID)) else p.OpenRouter? || !IsBlank(callID)
  }

  /** The output itself, under the identifier of its call. Google is also told the tool's name, and gets an
      output that is a JSON object as that object. */
  predicate OutputRenders(p: Protocol, c: Codec, earlier: seq<Entry>, callID: string, output: string, wire: Wire) {
    if p.OpenRouter? then wire == Given(ToolOutput(callID, output)) else
      && wire.ToolMessage?
      && wire.result.callID == callID
      && wire.result.name == (if p.Google? then Some(LastName(earlier, callID)) else None)
      && (if p.Google? && c.jsonObject(output).Some? then wire.result.payload == Object(c.jsonObject(output).value)
          else wire.result.payload == Raw(output))
  }

  lemma OutputConverted(p: Protocol, c: Codec, names: map<string, string>, earlier: seq<Entry>, callID: string, output: string)
    requires !p.OpenRouter?
    requires p.Google? ==> NameIn(names, callID) == LastName(earlier, callID)
    ensures var r := ResultFor(p, c, names, callID, output);
      && (r.Success? <==> OutputFits(p, earlier, callID))
      && (r.Failure? ==> r.error == if p.Google? then UnknownCall(callID) else MissingCallID)
      && (r.Success? ==> OutputRenders(p, c, earlier, callID, output, ToolMessage(r.value)))
  {
    hide IsBlank, LastName;
  }

  // ---------- Whole histories ----------

  /** An entry is accepted after the earlier ones. */
  predicate EntryFits(p: Protocol, c: Codec, root: bool, earlier: seq<Entry>, entry: Entry) {
    match entry
    case Replied(_) => true
    case Input(ToolOutput(callID, _)) => OutputFits(p, earlier, callID)
    case Input(Message(role, content)) =>
      MessageFits(p, c, role, content, root && forall k :: 0 <= k < |earlier| ==> earlier[k].Input?)
  }

  predicate FitsAt(p: Protocol, c: Codec, root: bool, h: seq<Entry>, k: nat)
    requires k < |h|
  {
    EntryFits(p, c, root, h[..k], h[k])
  }

  predicate AllFit(p: Protocol, c: Codec, root: bool, h: seq<Entry>) {
    forall k :: 0 <= k < |h| ==> FitsAt(p, c, root, h, k)
  }

  predicate Blamed(p: Protocol, c: Codec, entry: Entry, error: InputError) {
    match entry
    case Replied(_) => false
    case Input(ToolOutput(callID, _)) => error == if p.Google? then UnknownCall(callID) else MissingCallID
    case Input(Message(role, content)) => MessageBlamed(p, c, role, content, error)
  }

  /** The error is that of the first entry that does not fit. */
  predicate FirstBlamed(p: Protocol, c: Codec, root: bool, h: seq<Entry>, error: InputError) {
    exists k :: 0 <= k < |h| && AllFit(p, c, root, h[..k]) && !FitsAt(p, c, root, h, k) && Blamed(p, c, h[k], error)
  }

  predicate SystemText(p: Protocol, entry: Entry) {
    KeepsSystemApart(p) && entry.Input? && entry.item.Message? && SystemRole(entry.item.role)
  }

  /** The positions of the entries that become messages, in order. */
  function Heard(p: Protocol, h: seq<Entry>): seq<nat> {
    if h == [] then [] else Heard(p, h[..|h| - 1]) + if SystemText(p, h[|h| - 1]) then [] else [|h| - 1]
  }

  predicate Renders(p: Protocol, c: Codec, earlier: seq<Entry>, entry: Entry, wire: Wire) {
    match entry
    case Replied(reply) => wire == Assistant(reply.native)
    case Input(ToolOutput(callID, output)) => OutputRenders(p, c, earlier, callID, output, wire)
    case Input(Message(role, content)) => MessageRenders(p, c, role, content, wire)
  }

  predicate RendersAt(p: Protocol, c: Codec, h: seq<Entry>, k: nat, wire: Wire) {
    k < |h| && Renders(p, c, h[..k], h[k], wire)
  }

  /** The messages, with every collected tool result as a message of its own. */
  function Unfolded(messages: seq<Wire>): seq<Wire> {
    if messages == [] then [] else Unfolded(messages[..|messages| - 1]) + UnfoldedOne(messages[|messages| - 1])
  }

  function UnfoldedOne(wire: Wire): seq<Wire> {
    if wire.ToolResults? then seq(|wire.results|, i requires 0 <= i < |wire.results| => ToolMessage(wire.results[i])) else [wire]
  }

  /** One message for each entry heard, saying what the entry says. */
  predicate EachRendered(p: Protocol, c: Codec, h: seq<Entry>, heard: seq<nat>, wires: seq<Wire>) {
    |wires| == |heard| && forall i :: 0 <= i < |heard| ==> RendersAt(p, c, h, heard[i], wires[i])
  }

  /** The system texts of a history, in order. */
  predicate SystemTold(p: Protocol, c: Codec, h: seq<Entry>, system: seq<Block>) {
    if h == [] then system == []
    else if SystemText(p, h[|h| - 1]) then
      exists n :: 0 <= n <= |system| && SystemTold(p, c, h[..|h| - 1], system[..n])
               && ContentRenders(p, c, h[|h| - 1].item.content, system[n..])
    else SystemTold(p, c, h[..|h| - 1], system)
  }

  predicate IsOutput(entry: Entry) {
    entry.Input? && entry.item.ToolOutput?
  }

  /** The lengths of the unbroken runs of tool outputs in a history, in order. */
  function Runs(h: seq<Entry>): (r: seq<nat>)
    ensures h != [] && IsOutput(h[|h| - 1]) ==> r != []
  {
    if h == [] then [] else
      var before := Runs(h[..|h| - 1]);
      if !IsOutput(h[|h| - 1]) then before
      else if |h| > 1 && IsOutput(h[|h| - 2]) then before[..|before| - 1] + [before[|before| - 1] + 1]
      else before + [1]
  }

  /** The sizes of the messages that collect tool results, in order. */
  function Groups(messages: seq<Wire>): seq<nat> {
    if messages == [] then [] else
      Groups(messages[..|messages| - 1]) +
      if messages[|messages| - 1].ToolResults? then [|messages[|messages| - 1].results|] else []
  }

  // ---------- Acceptance ----------

  /** Both client procedures see a reply in the history in the same way. */
  lemma NoReplyYet(h: seq<Entry>)
    ensures HasReply(h) <==> !forall k :: 0 <= k < |h| ==> h[k].Input?
  {
    if k :| 0 <= k < |h| && !h[k].Input? { assert h[k].Replied?; }
  }

  lemma FitsLast(p: Protocol, c: Codec, root: bool, h: seq<Entry>)
    requires h != []
    ensures AllFit(p, c, root, h) <==> AllFit(p, c, root, h[..|h| - 1]) && EntryFits(p, c, root, h[..|h| - 1], h[|h| - 1])
  {
    hide EntryFits;
    var before := h[..|h| - 1];
    forall k | 0 <= k < |before| ensures FitsAt(p, c, root, h, k) <==> FitsAt(p, c, root, before, k) {
      assert h[..k] == before[..k];
    }
    if AllFit(p, c, root, h) {
      assert FitsAt(p, c, root, h, |before|);
      forall k | 0 <= k < |before| ensures FitsAt(p, c, root, before, k) { assert FitsAt(p, c, root, h, k); }
    }
    if AllFit(p, c, root, before) && EntryFits(p, c, root, before, h[|h| - 1]) {
      forall k | 0 <= k < |h| ensures FitsAt(p, c, root, h, k) { if k < |before| { assert FitsAt(p, c, root, before, k); } }
    }
  }

  lemma BlamedLater(p: Protocol, c: Codec, root: bool, h: seq<Entry>, error: InputError)
    requires h != [] && FirstBlamed(p, c, root, h[..|h| - 1], error)
    ensures FirstBlamed(p, c, root, h, error)
  {
    hide EntryFits, Blamed, AllFit;
    var before := h[..|h| - 1];
    var k :| 0 <= k < |before| && AllFit(p, c, root, before[..k]) && !FitsAt(p, c, root, before, k) && Blamed(p, c, before[k], error);
    assert h[..k] == before[..k] && h[k] == before[k];
    assert !FitsAt(p, c, root, h, k);
  }

  lemma {:induction false} NamesKept(c: Codec, root: bool, h: seq<Entry>, callID: string)
    requires Translate(Google, c, root, h).Success?
    ensures NameIn(Translate(Google, c, root, h).value.toolNames, callID) == LastName(h, callID)
  {
    hide WithMessage, ResultFor, WithResult, ToolNames, NameAmong;
    if h != [] {
      var before, last := h[..|h| - 1], h[|h| - 1];
      NamesKept(c, root, before, callID);
      var conv := Translate(Google, c, root, before).value;
      match last
      case Replied(reply) => NamesOfCalls(conv.toolNames, reply.calls, callID);
      case Input(ToolOutput(_, _)) =>
      case Input(Message(role, content)) =>
        MessageConverted(Google, c, conv, role, content, root && !HasReply(before));
    }
  }

  /** What one more entry does to an accepted history. */
  lemma EntryConverted(p: Protocol, c: Codec, root: bool, h: seq<Entry>)
    requires h != [] && Translate(p, c, root, h[..|h| - 1]).Success?
    ensures Translate(p, c, root, h).Success? <==> EntryFits(p, c, root, h[..|h| - 1], h[|h| - 1])
    ensures Translate(p, c, root, h).Failure? ==> Blamed(p, c, h[|h| - 1], Translate(p, c, root, h).error)
  {
    hide WithMessage, ResultFor, WithResult, ToolNames, MessageFits, MessageBlamed, OutputFits, HasReply;
    var before, last := h[..|h| - 1], h[|h| - 1];
    var conv := Translate(p, c, root, before).value;
    NoReplyYet(before);
    match last
    case Replied(_) =>
    case Input(ToolOutput(callID, output)) =>
      if p.OpenRouter? {
        ItemGiven(c, last.item);
        assert OutputFits(p, before, callID) by { OutputsGiven(before, callID); }
      } else {
        if p.Google? { NamesKept(c, root, before, callID); }
        OutputConverted(p, c, conv.toolNames, before, callID, output);
      }
    case Input(Message(role, content)) =>
      if p.OpenRouter? {
        ItemGiven(c, last.item);
        AnyRoot(c, role, content, root && !HasReply(before));
      } else {
        MessageConverted(p, c, conv, role, content, root && !HasReply(before));
      }
  }

  lemma OutputsGiven(earlier: seq<Entry>, callID: string)
    ensures OutputFits(OpenRouter, earlier, callID)
  {
  }

  lemma AnyRoot(c: Codec, role: string, content: Content, allowSystem: bool)
    ensures MessageFits(OpenRouter, c, role, content, allowSystem) <==> MessageFits(OpenRouter, c, role, content, true)
  {
  }

  /** A history is accepted exactly when each of its entries fits, and refused for the first that does not. */
  lemma {:induction false} AcceptedExactly(p: Protocol, c: Codec, root: bool, h: seq<Entry>)
    ensures Translate(p, c, root, h).Success? <==> AllFit(p, c, root, h)
    ensures Translate(p, c, root, h).Failure? ==> FirstBlamed(p, c, root, h, Translate(p, c, root, h).error)
  {
    hide WithInput, WithReply, HasReply, EndsInOutput, EntryFits, Blamed;
    if h != [] {
      var before := h[..|h| - 1];
      AcceptedExactly(p, c, root, before);
      FitsLast(p, c, root, h);
      if Translate(p, c, root, before).Failure? {
        BlamedLater(p, c, root, h, Translate(p, c, root, before).error);
      } else {
        EntryConverted(p, c, root, h);
        if Translate(p, c, root, h).Failure? { assert !FitsAt(p, c, root, h, |before|); }
      }
    }
  }

  // ---------- What one entry adds ----------

  /** One more tool result, one more piece of system text told apart, or one more message. */
  ghost predicate Adds(p: Protocol, c: Codec, h: seq<Entry>, conv: Conversation, next: Conversation)
    requires h != []
  {
    var before, last := h[..|h| - 1], h[|h| - 1];
    if IsOutput(last) && !p.OpenRouter? then AddsResult(p, c, before, last.item.callID, last.item.output, conv, next)
    else if SystemText(p, last) then
      && next.messages == conv.messages
      && conv.system <= next.system
      && ContentRenders(p, c, last.item.content, next.system[|conv.system|..])
    else
      && next.system == conv.system
      && |next.messages| == |conv.messages| + 1
      && next.messages == conv.messages + [next.messages[|conv.messages|]]
      && !next.messages[|conv.messages|].ToolResults?
      && Renders(p, c, before, last, next.messages[|conv.messages|])
  }

  ghost predicate AddsResult(p: Protocol, c: Codec, before: seq<Entry>, callID: string, output: string, conv: Conversation, next: Conversation) {
    && next.system == conv.system
    && exists result :: OutputRenders(p, c, before, callID, output, ToolMessage(result))
                        && next.messages == WithResult(p, conv.messages, EndsInOutput(before), result)
  }

  lemma EntryAdded(p: Protocol, c: Codec, root: bool, h: seq<Entry>)
    requires h != [] && Translate(p, c, root, h).Success? && Translate(p, c, root, h[..|h| - 1]).Success?
    ensures Adds(p, c, h, Translate(p, c, root, h[..|h| - 1]).value, Translate(p, c, root, h).value)
  {
    hide WithMessage, ResultFor, WithResult, MessageRenders, OutputRenders, ContentRenders, HasReply, GivenItem;
    hide MessageFits, MessageBlamed, SystemRole, OutputFits, ToolNames;
    var before, last := h[..|h| - 1], h[|h| - 1];
    var conv := Translate(p, c, root, before).value;
    if last.Input? {
      if p.OpenRouter? {
        GivenAdded(c, before, conv, last.item);
      } else if last.item.ToolOutput? {
        if p.Google? { NamesKept(c, root, before, last.item.callID); }
        OutputAdded(p, c, before, conv, last.item.callID, last.item.output, root && !HasReply(before));
      } else {
        MessageConverted(p, c, conv, last.item.role, last.item.content, root && !HasReply(before));
        if !SystemText(p, last) {
          NoResults(p, c, last.item.role, last.item.content, Translate(p, c, root, h).value.messages[|conv.messages|]);
        }
      }
    }
  }

  lemma GivenAdded(c: Codec, before: seq<Entry>, conv: Conversation, item: Item)
    requires GivenItem(item).Success?
    ensures Adds(OpenRouter, c, before + [Input(item)], conv, conv.(messages := conv.messages + [Given(GivenItem(item).value)]))
  {
    hide GivenItem, MessageRenders, MessageFits, MessageBlamed, SystemRole;
    ItemGiven(c, item);
    assert (before + [Input(item)])[..|before|] == before;
  }

  lemma OutputAdded(p: Protocol, c: Codec, before: seq<Entry>, conv: Conversation, callID: string, output: string, allowSystem: bool)
    requires !p.OpenRouter? && (p.Google? ==> NameIn(conv.toolNames, callID) == LastName(before, callID))
    requires WithInput(p, c, conv, EndsInOutput(before), ToolOutput(callID, output), allowSystem).Success?
    ensures AddsResult(p, c, before, callID, output, conv,
                       WithInput(p, c, conv, EndsInOutput(before), ToolOutput(callID, output), allowSystem).value)
  {
    hide ResultFor, WithResult, OutputRenders, OutputFits, EndsInOutput;
    OutputConverted(p, c, conv.toolNames, before, callID, output);
    var result := ResultFor(p, c, conv.toolNames, callID, output).value;
    assert OutputRenders(p, c, before, callID, output, ToolMessage(result));
  }

  lemma NoResults(p: Protocol, c: Codec, role: string, content: Content, wire: Wire)
    requires MessageRenders(p, c, role, content, wire)
    ensures !wire.ToolResults?
  {
  }

  // ---------- What is said ----------

  lemma UnfoldedAfter(messages: seq<Wire>, wire: Wire)
    ensures Unfolded(messages + [wire]) == Unfolded(messages) + UnfoldedOne(wire)
  {
    assert (messages + [wire])[..|messages|] == messages;
  }

  /** However results are collected, one more is told. */
  lemma UnfoldedWithResult(p: Protocol, messages: seq<Wire>, afterOutput: bool, result: ToolResult)
    ensures Unfolded(WithResult(p, messages, afterOutput, result)) == Unfolded(messages) + [ToolMessage(result)]
  {
    hide Unfolded;
    if !p.DeepSeek? && afterOutput && messages != [] && messages[|messages| - 1].ToolResults? {
      var front, results := messages[..|messages| - 1], messages[|messages| - 1].results;
      UnfoldedAfter(front, ToolResults(results + [result]));
      UnfoldedAfter(front, ToolResults(results));
      assert messages == front + [ToolResults(results)];
      assert UnfoldedOne(ToolResults(results + [result])) == UnfoldedOne(ToolResults(results)) + [ToolMessage(result)];
    } else {
      UnfoldedAfter(messages, if p.DeepSeek? then ToolMessage(result) else ToolResults([result]));
      assert UnfoldedOne(ToolResults([result])) == [ToolMessage(result)];
    }
  }

  lemma RenderedAfter(p: Protocol, c: Codec, h: seq<Entry>, wires: seq<Wire>, wire: Wire)
    requires h != [] && EachRendered(p, c, h[..|h| - 1], Heard(p, h[..|h| - 1]), wires)
    requires !SystemText(p, h[|h| - 1]) && Renders(p, c, h[..|h| - 1], h[|h| - 1], wire)
    ensures EachRendered(p, c, h, Heard(p, h), wires + [wire])
  {
    hide Renders, SystemText;
    var before := h[..|h| - 1];
    forall i | 0 <= i < |Heard(p, h)| ensures RendersAt(p, c, h, Heard(p, h)[i], (wires + [wire])[i]) {
      if i < |wires| {
        var k := Heard(p, before)[i];
        assert RendersAt(p, c, before, k, wires[i]);
        assert h[..k] == before[..k];
      }
    }
  }

  lemma RenderedUnchanged(p: Protocol, c: Codec, h: seq<Entry>, wires: seq<Wire>)
    requires h != [] && EachRendered(p, c, h[..|h| - 1], Heard(p, h[..|h| - 1]), wires)
    requires SystemText(p, h[|h| - 1])
    ensures EachRendered(p, c, h, Heard(p, h), wires)
  {
    hide Renders, SystemText;
    var before := h[..|h| - 1];
    forall i | 0 <= i < |Heard(p, h)| ensures RendersAt(p, c, h, Heard(p, h)[i], wires[i]) {
      var k := Heard(p, before)[i];
      assert RendersAt(p, c, before, k, wires[i]);
      assert h[..k] == before[..k];
    }
  }

  /** Every entry but the system texts that are told apart becomes one message, in order, that says what it says. */
  lemma {:induction false} EveryEntryHeard(p: Protocol, c: Codec, root: bool, h: seq<Entry>)
    requires Translate(p, c, root, h).Success?
    ensures EachRendered(p, c, h, Heard(p, h), Unfolded(Translate(p, c, root, h).value.messages))
  {
    hide WithInput, WithReply, HasReply, EndsInOutput, EachRendered, Unfolded, Adds;
    if h != [] {
      EveryEntryHeard(p, c, root, h[..|h| - 1]);
      EntryAdded(p, c, root, h);
      EntryHeard(p, c, h, Translate(p, c, root, h[..|h| - 1]).value, Translate(p, c, root, h).value);
    } else {
      NothingHeard(p, c);
    }
  }

  lemma NothingHeard(p: Protocol, c: Codec)
    ensures EachRendered(p, c, [], Heard(p, []), Unfolded([]))
  {
  }

  lemma EntryHeard(p: Protocol, c: Codec, h: seq<Entry>, conv: Conversation, next: Conversation)
    requires h != [] && Adds(p, c, h, conv, next)
    requires EachRendered(p, c, h[..|h| - 1], Heard(p, h[..|h| - 1]), Unfolded(conv.messages))
    ensures EachRendered(p, c, h, Heard(p, h), Unfolded(next.messages))
  {
    hide WithResult, MessageRenders, OutputRenders, ContentRenders, EachRendered, Unfolded, Heard, SystemRole, EndsInOutput;
    var before, last := h[..|h| - 1], h[|h| - 1];
    if IsOutput(last) && !p.OpenRouter? {
      var result :| OutputRenders(p, c, before, last.item.callID, last.item.output, ToolMessage(result))
                    && next.messages == WithResult(p, conv.messages, EndsInOutput(before), result);
      UnfoldedWithResult(p, conv.messages, EndsInOutput(before), result);
      RenderedAfter(p, c, h, Unfolded(conv.messages), ToolMessage(result));
    } else if SystemText(p, last) {
      RenderedUnchanged(p, c, h, Unfolded(conv.messages));
    } else {
      var wire := next.messages[|conv.messages|];
      UnfoldedAfter(conv.messages, wire);
      RenderedAfter(p, c, h, Unfolded(conv.messages), wire);
    }
  }

  /** The system texts told apart are those of the history, in order; the other protocols are told none apart. */
  lemma {:induction false} SystemHeard(p: Protocol, c: Codec, root: bool, h: seq<Entry>)
    requires Translate(p, c, root, h).Success?
    ensures SystemTold(p, c, h, Translate(p, c, root, h).value.system)
  {
    hide WithInput, WithReply, WithResult, OutputRenders, Renders, ContentRenders, HasReply, SystemRole;
    if h != [] {
      var before := h[..|h| - 1];
      SystemHeard(p, c, root, before);
      EntryAdded(p, c, root, h);
      var conv, next := Translate(p, c, root, before).value, Translate(p, c, root, h).value;
      if SystemText(p, h[|h| - 1]) {
        assert next.system[..|conv.system|] == conv.system;
        assert SystemTold(p, c, before, next.system[..|conv.system|]);
      }
    }
  }

  // ---------- How results are collected ----------

  lemma GroupsAfter(messages: seq<Wire>, wire: Wire)
    ensures Groups(messages + [wire]) == Groups(messages) + if wire.ToolResults? then [|wire.results|] else []
  {
    assert (messages + [wire])[..|messages|] == messages;
  }

  /** The messages that collect results are the runs of outputs; a run that is still open is the last message. */
  predicate Grouped(p: Protocol, h: seq<Entry>, messages: seq<Wire>) {
    && Groups(messages) == (if KeepsSystemApart(p) then Runs(h) else [])
    && (KeepsSystemApart(p) && h != [] && IsOutput(h[|h| - 1]) ==> messages != [] && messages[|messages| - 1].ToolResults?)
  }

  /** Anthropic and Google get one message for each unbroken run of tool outputs; the others get every output alone. */
  lemma {:induction false} OneMessagePerRun(p: Protocol, c: Codec, root: bool, h: seq<Entry>)
    requires Translate(p, c, root, h).Success?
    ensures Grouped(p, h, Translate(p, c, root, h).value.messages)
  {
    hide WithInput, WithReply, HasReply, EndsInOutput, Groups, Grouped, Runs, Adds;
    if h == [] {
      NoGroups(p);
    } else {
      OneMessagePerRun(p, c, root, h[..|h| - 1]);
      EntryAdded(p, c, root, h);
      EntryGrouped(p, c, h, Translate(p, c, root, h[..|h| - 1]).value, Translate(p, c, root, h).value);
    }
  }

  lemma EntryGrouped(p: Protocol, c: Codec, h: seq<Entry>, conv: Conversation, next: Conversation)
    requires h != [] && Adds(p, c, h, conv, next) && Grouped(p, h[..|h| - 1], conv.messages)
    ensures Grouped(p, h, next.messages)
  {
    hide WithResult, OutputRenders, Renders, ContentRenders, SystemRole, Groups, Grouped, EndsInOutput;
    var before, last := h[..|h| - 1], h[|h| - 1];
    if IsOutput(last) && !p.OpenRouter? {
      var result :| OutputRenders(p, c, before, last.item.callID, last.item.output, ToolMessage(result))
                    && next.messages == WithResult(p, conv.messages, EndsInOutput(before), result);
      OutputGrouped(p, h, conv.messages, result);
    } else if SystemText(p, last) {
      assert next.messages == conv.messages + [];
      OthersGrouped(p, h, conv.messages, []);
    } else {
      OthersGrouped(p, h, conv.messages, [next.messages[|conv.messages|]]);
    }
  }

  lemma OutputGrouped(p: Protocol, h: seq<Entry>, messages: seq<Wire>, result: ToolResult)
    requires h != [] && Grouped(p, h[..|h| - 1], messages) && IsOutput(h[|h| - 1]) && !p.OpenRouter?
    ensures Grouped(p, h, WithResult(p, messages, EndsInOutput(h[..|h| - 1]), result))
  {
    hide Groups, WithResult;
    var before := h[..|h| - 1];
    assert EndsInOutput(before) <==> before != [] && IsOutput(before[|before| - 1]);
    GroupsWithResult(p, messages, EndsInOutput(before), result);
  }

  lemma OthersGrouped(p: Protocol, h: seq<Entry>, messages: seq<Wire>, wires: seq<Wire>)
    requires h != [] && Grouped(p, h[..|h| - 1], messages) && (KeepsSystemApart(p) ==> !IsOutput(h[|h| - 1]))
    requires |wires| <= 1 && forall i :: 0 <= i < |wires| ==> !wires[i].ToolResults?
    ensures Grouped(p, h, messages + wires)
  {
    hide Groups;
    if wires != [] {
      GroupsAfter(messages, wires[0]);
      assert wires == [wires[0]];
    } else {
      assert messages + wires == messages;
    }
  }

  lemma NoGroups(p: Protocol)
    ensures Grouped(p, [], [])
  {
  }

  /** The last run has one output more. */
  predicate OneLonger(runs: seq<nat>, longer: seq<nat>) {
    runs != [] && longer == runs[..|runs| - 1] + [runs[|runs| - 1] + 1]
  }

  lemma GroupsWithResult(p: Protocol, messages: seq<Wire>, afterOutput: bool, result: ToolResult)
    requires afterOutput && !p.DeepSeek? ==> messages != [] && messages[|messages| - 1].ToolResults?
    ensures p.DeepSeek? ==> Groups(WithResult(p, messages, afterOutput, result)) == Groups(messages)
    ensures !p.DeepSeek? && !afterOutput ==> Groups(WithResult(p, messages, afterOutput, result)) == Groups(messages) + [1]
    ensures !p.DeepSeek? && afterOutput ==> OneLonger(Groups(messages), Groups(WithResult(p, messages, afterOutput, result)))
    ensures !p.DeepSeek? ==>
      var grown := WithResult(p, messages, afterOutput, result); grown != [] && grown[|grown| - 1].ToolResults?
  {
    hide Groups;
    if p.DeepSeek? {
      GroupsAfter(messages, ToolMessage(result));
    } else if !afterOutput {
      GroupsAfter(messages, ToolResults([result]));
    } else {
      var front, results := messages[..|messages| - 1], messages[|messages| - 1].results;
      assert messages == front + [ToolResults(results)];
      GroupsAfter(front, ToolResults(results));
      GroupsAfter(front, ToolResults(results + [result]));
    }
  }
}
