/**
 What the executor's stored state stands for: behind every response there is a history of inputs and replies,
 and the conversation stored under it is the translation of that history.
 */
module Continuation {
  import opened Conversations
  import opened Endpoints
  import opened Executor
  import opened Results
  import opened Text

  /** The conversation that ends in a response, and the model configuration it belongs to. */
  datatype Path = Path(endpoint: string, model: string, root: bool, entries: seq<Entry>)

  type Paths = map<string, Path>

  /** The identifier of the last reply. */
  function LastReply(h: seq<Entry>): Option<string> {
    if h == [] then None
    else if h[|h| - 1].Replied? then Some(h[|h| - 1].reply.id)
    else LastReply(h[..|h| - 1])
  }

  /** The items since the last reply. */
  function NewItems(h: seq<Entry>): seq<Item> {
    if h == [] || h[|h| - 1].Replied? then [] else NewItems(h[..|h| - 1]) + [h[|h| - 1].item]
  }

  /** A message list is the one-shot translation of a path; a provider that holds the conversation itself gets the
      items since its last reply, under that reply's identifier. */
  ghost predicate Carries(c: Codec, path: Path, sent: Sent) {
    match ProtocolOf(path.endpoint)
    case None => sent.OnlyNew? && GivenItems(NewItems(path.entries)) == Success(sent.items) && Names(sent.previous, path)
    case Some(p) =>
      && sent.Whole? && Translate(p, c, path.root, path.entries) == Success(sent.conversation)
      && IsBlank(sent.previous) && (path.root ==> sent.previous == "")
  }

  /** The identifier names the last reply of the path, or none when there is none. */
  predicate Names(previous: string, path: Path) {
    match LastReply(path.entries)
    case None => IsBlank(previous) && path.root == (previous == "")
    case Some(id) => previous == id
  }

  /** After a stored history, the new items are exactly those added. */
  lemma {:induction false} NewAfter(h: seq<Entry>, items: seq<Item>)
    requires Stored(h)
    ensures NewItems(h + Inputs(items)) == items && LastReply(h + Inputs(items)) == LastReply(h)
  {
    var all := h + Inputs(items);
    if items == [] {
      assert all == h;
    } else {
      var front := items[..|items| - 1];
      NewAfter(h, front);
      assert all[..|all| - 1] == h + Inputs(front);
    }
  }

  ghost predicate PathStored(s: State, c: Codec, id: string, path: Path) {
    ProtocolOf(path.endpoint).Some? ==>
      && path.endpoint in s.conversations && id in s.conversations[path.endpoint]
      && Translate(ProtocolOf(path.endpoint).value, c, path.root, path.entries) == Success(s.conversations[path.endpoint][id])
  }

  ghost predicate PathRecorded(s: State, c: Codec, id: string, path: Path) {
    && !IsBlank(id) && id in s.states
    && s.states[id] == ResponseState(path.endpoint, path.model, |Items(path.entries)|)
    && path.entries != [] && Stored(path.entries) && LastReply(path.entries) == Some(id)
    && PathStored(s, c, id, path)
  }

  /** Every response the executor knows ends a path whose conversation is stored. */
  ghost predicate Recorded(s: State, c: Codec, paths: Paths) {
    paths.Keys == s.states.Keys && forall id :: id in paths ==> PathRecorded(s, c, id, paths[id])
  }

  lemma NothingRecorded(c: Codec)
    ensures Recorded(INITIAL, c, map[])
  {
  }

  /** The path that a request continues. */
  function Base(paths: Paths, spec: Spec, previous: string): Path
    requires !IsBlank(previous) ==> previous in paths
  {
    if IsBlank(previous) then Path(Normalize(spec.endpoint), spec.model, previous == "", []) else paths[previous]
  }

  /** The path of a request in flight: the continued one and the new items. */
  function Extended(paths: Paths, spec: Spec, input: seq<Item>, previous: string): Path
    requires !IsBlank(previous) ==> previous in paths
  {
    var base := Base(paths, spec, previous);
    base.(entries := base.entries + Inputs(if |Items(base.entries)| <= |input| then input[|Items(base.entries)|..] else []))
  }

  function Answered(path: Path, reply: Reply): Path {
    path.(entries := path.entries + [Replied(reply)])
  }

  // ---------- The first critical section ----------

  /** The earlier input that the executor remembers is exactly as long as the continued path's. */
  lemma DeltaOfBase(s: State, c: Codec, paths: Paths, spec: Spec, input: seq<Item>, previous: string)
    requires Recorded(s, c, paths) && RequestDelta(s.states, spec, input, previous).Success?
    ensures !IsBlank(previous) ==> previous in paths
    ensures var base := Base(paths, spec, previous);
            && base.endpoint == Normalize(spec.endpoint) && base.model == spec.model
            && |Items(base.entries)| <= |input|
            && RequestDelta(s.states, spec, input, previous).value == input[|Items(base.entries)|..]
  {
    if !IsBlank(previous) { assert PathRecorded(s, c, previous, paths[previous]); }
  }

  /** The client extends the stored conversation to the translation of the extended path. */
  lemma PreparedCarries(s: State, c: Codec, paths: Paths, spec: Spec, previous: string, items: seq<Item>)
    requires Recorded(s, c, paths) && (!IsBlank(previous) ==> previous in paths)
    requires Base(paths, spec, previous).endpoint == Normalize(spec.endpoint)
    ensures var base := Base(paths, spec, previous);
            var sent := Prepared(ProtocolOf(base.endpoint), c, Opened(s, base.endpoint).conversations[base.endpoint], items, previous);
            && sent != Failure(UnknownConversation)
            && (sent.Success? ==> Carries(c, base.(entries := base.entries + Inputs(items)), sent.value))
  {
    hide ProtocolOf, Normalize, IsBlank, Appended;
    var base := Base(paths, spec, previous);
    if !IsBlank(previous) { assert PathRecorded(s, c, previous, base); }
    NewAfter(base.entries, items);
    if ProtocolOf(base.endpoint).Some? {
      var p := ProtocolOf(base.endpoint).value;
      NothingTranslated(p, c, base.root);
      TranslateInDeltas(p, c, base.root, base.entries, items);
      BlankRoot(previous);
      BlankRoot("");
      if base.entries != [] { LaterSystem(p, c, base, items, previous); }
    }
  }

  /** What OpenRouter is sent for an entry of the path. */
  predicate SpeaksFor(message: Wire, e: Entry) {
    match e
    case Input(item) => message.Given? && GivenItem(item) == Success(message.item)
    case Replied(reply) => message == Assistant(reply.native)
  }

  /** OpenRouter hears the whole path, entry by entry, and no previous response is named to it. */
  lemma OpenRouterHearsAll(c: Codec, path: Path, sent: Sent)
    requires ProtocolOf(path.endpoint) == Some(OpenRouter) && Carries(c, path, sent)
    ensures sent.Whole? && IsBlank(sent.previous) && |sent.conversation.messages| == |path.entries|
    ensures forall k :: 0 <= k < |path.entries| ==> SpeaksFor(sent.conversation.messages[k], path.entries[k])
  {
    hide IsBlank, Translate, ProtocolOf, SpeaksFor;
    TranslatedEntries(c, path.root, path.entries);
  }

  lemma {:induction false} TranslatedEntries(c: Codec, root: bool, h: seq<Entry>)
    requires Translate(OpenRouter, c, root, h).Success?
    ensures var messages := Translate(OpenRouter, c, root, h).value.messages;
            |messages| == |h| && forall k :: 0 <= k < |h| ==> SpeaksFor(messages[k], h[k])
  {
    hide GivenItem;
    if h != [] { TranslatedEntries(c, root, h[..|h| - 1]); }
  }

  lemma NothingTranslated(p: Protocol, c: Codec, root: bool)
    ensures Translate(p, c, root, []) == Success(EMPTY)
  {
  }

  lemma BlankRoot(previous: string)
    ensures previous == "" ==> IsBlank(previous)
  {
  }

  /** A continuation is not at the root, whether seen from the path or from the response id. */
  lemma LaterSystem(p: Protocol, c: Codec, base: Path, items: seq<Item>, previous: string)
    requires base.entries != [] && previous != ""
    ensures (base.root && base.entries == []) == (previous == "")
  {
  }

  lemma BaseStored(s: State, c: Codec, paths: Paths, spec: Spec, previous: string)
    requires Recorded(s, c, paths) && (!IsBlank(previous) ==> previous in paths)
    ensures Stored(Base(paths, spec, previous).entries)
  {
    if !IsBlank(previous) { assert PathRecorded(s, c, previous, paths[previous]); }
  }

  /** A request that begins has been cut off where its path ends, and its client has extended the conversation. */
  lemma BegunCall(s: State, environment: map<string, string>, c: Codec, spec: Spec, input: seq<Item>, previous: string)
    requires Begin(s, environment, c, spec, input, previous).1.Success?
    ensures var endpoint, delta := Normalize(spec.endpoint), RequestDelta(s.states, spec, input, previous);
            && delta.Success? && endpoint in Opened(s, endpoint).conversations
            && var sent := Prepared(ProtocolOf(endpoint), c, Opened(s, endpoint).conversations[endpoint], delta.value, previous);
               sent.Success? && Begin(s, environment, c, spec, input, previous).1.value == Call(endpoint, spec.model, |input|, sent.value)
  {
    hide Prepared, SpecError, ClientError, RequestDelta, Normalize, ProtocolOf;
  }

  /** Cutting the input off where the base path ends and appending the rest to that path. */
  lemma ExtendedByDelta(base: Path, input: seq<Item>)
    requires |Items(base.entries)| <= |input| && Stored(base.entries)
    ensures var entries := base.entries + Inputs(input[|Items(base.entries)|..]);
            && |Items(entries)| == |input| && (Items(entries) == input <==> Items(base.entries) <= input)
            && entries == base.entries + Inputs(NewItems(entries))
  {
    hide Items, Stored, NewItems, Inputs, LastReply;
    var known := Items(base.entries);
    var delta := input[|known|..];
    ItemsOfDelta(base.entries, delta);
    NewAfter(base.entries, delta);
    assert input == input[..|known|] + delta;
  }

  /** Whatever is sent is the one-shot translation of the continued path and the new items; and it is the
      caller's input in full exactly when that input extends the path's own. */
  lemma BeginCarries(s: State, environment: map<string, string>, c: Codec, paths: Paths, spec: Spec, input: seq<Item>, previous: string)
    requires Recorded(s, c, paths) && Begin(s, environment, c, spec, input, previous).1.Success?
    ensures !IsBlank(previous) ==> previous in paths
    ensures var call := Begin(s, environment, c, spec, input, previous).1.value;
            var path := Extended(paths, spec, input, previous);
            && Carries(c, path, call.sent)
            && call.endpoint == path.endpoint && call.model == path.model && call.inputCount == |input| == |Items(path.entries)|
            && (Items(path.entries) == input <==> Items(Base(paths, spec, previous).entries) <= input)
            && path.entries == Base(paths, spec, previous).entries + Inputs(NewItems(path.entries))
  {
    hide Begin, Prepared, RequestDelta, Carries, Items, Stored, NewItems, Inputs, Base, Recorded, Opened, IsBlank, ProtocolOf, Normalize;
    BegunCall(s, environment, c, spec, input, previous);
    DeltaOfBase(s, c, paths, spec, input, previous);
    var base := Base(paths, spec, previous);
    BaseStored(s, c, paths, spec, previous);
    PreparedCarries(s, c, paths, spec, previous, input[|Items(base.entries)|..]);
    ExtendedByDelta(base, input);
  }

  /** A call in flight stands for a path. */
  ghost predicate CallFor(c: Codec, call: Call, path: Path) {
    && Carries(c, path, call.sent)
    && call.endpoint == path.endpoint && call.model == path.model && call.inputCount == |Items(path.entries)|
  }

  lemma BegunFor(s: State, environment: map<string, string>, c: Codec, paths: Paths, spec: Spec, input: seq<Item>, previous: string)
    requires Recorded(s, c, paths) && Begin(s, environment, c, spec, input, previous).1.Success?
    ensures (!IsBlank(previous) ==> previous in paths)
         && CallFor(c, Begin(s, environment, c, spec, input, previous).1.value, Extended(paths, spec, input, previous))
  {
    hide Begin, Extended, Recorded, Carries, Items, IsBlank, Base;
    BeginCarries(s, environment, c, paths, spec, input, previous);
  }

  // ---------- A claimed history that was never sent ----------

  const HELLO := Message("user", PlainText("hello"))
  const BYE := Message("user", PlainText("bye"))
  const DEEPSEEK_SPEC := Spec("deepseek", "m", [], false, false)
  const WITH_KEY := map["DEEPSEEK_API_KEY" := "k"]
  const OK_REPLY := Reply("r1", "ok", [], "ok")

  /** After one answered call from the initial state that sent "hello", a caller may continue it claiming to have
      sent "bye": only the length of the earlier input is compared, and "hello" is what the provider sees. */
  lemma ClaimedHistoryMayDiffer(c: Codec, upstream: Sent -> Exchange)
    ensures var first := CallStep(INITIAL, WITH_KEY, c, DEEPSEEK_SPEC, [HELLO], "", _ => Answer(OK_REPLY));
            var conv := Conversation([], [Say("user", [TextBlock("hello")]), Assistant("ok")], map[]);
            && first.result == Success(OK_REPLY)
            && CallStep(first.state, WITH_KEY, c, DEEPSEEK_SPEC, [BYE], "r1", upstream).sent == Some(Whole(conv, ""))
            && CallStep(first.state, WITH_KEY, c, DEEPSEEK_SPEC, [HELLO], "r1", upstream).sent == Some(Whole(conv, ""))
  {
    hide Finish, Begin;
    var sent := Whole(Conversation([], [Say("user", [TextBlock("hello")])], map[]), "");
    FirstCall(c);
    var s := State(map["r1" := ResponseState("deepseek", "m", 1)],
                   map["deepseek" := map["r1" := WithReply(DeepSeek, sent.conversation, OK_REPLY)]]);
    OKStored(sent);
    assert [Say("user", [TextBlock("hello")])] + [Assistant("ok")] == [Say("user", [TextBlock("hello")]), Assistant("ok")];
    ContinuedCall(c, s, BYE);
    ContinuedCall(c, s, HELLO);
  }

  lemma UnpaddedWord(word: string)
    requires word in ["deepseek", "user", "m", "k", "r1"]
    ensures TrimSpace(word) == word && ToLower(word) == word
  {
    OutsideRanges(word[0], WHITE_SPACE);
    OutsideRanges(word[|word| - 1], WHITE_SPACE);
    TrimSpaceTrims(word);
  }

  lemma DeepSeekReady()
    ensures Normalize("deepseek") == "deepseek" && ProtocolOf("deepseek") == Some(DeepSeek)
    ensures SpecError(DEEPSEEK_SPEC).None? && ClientError("deepseek", WITH_KEY).None?
    ensures !IsBlank("r1") && IsBlank("")
  {
    UnpaddedWord("deepseek");
    UnpaddedWord("m");
    UnpaddedWord("k");
    UnpaddedWord("r1");
    assert ENDPOINTS[1..][0].name == "deepseek";
  }

  lemma HelloSent(c: Codec)
    ensures Appended(DeepSeek, c, EMPTY, [HELLO], true) == Success(Conversation([], [Say("user", [TextBlock("hello")])], map[]))
  {
    UnpaddedWord("user");
    assert [HELLO][..0] == [];
    assert EMPTY.messages + [Say("user", [TextBlock("hello")])] == [Say("user", [TextBlock("hello")])];
  }

  lemma FirstCall(c: Codec)
    ensures var sent := Whole(Conversation([], [Say("user", [TextBlock("hello")])], map[]), "");
            Begin(INITIAL, WITH_KEY, c, DEEPSEEK_SPEC, [HELLO], "") ==
            (State(map[], map["deepseek" := map[]]), Success(Call("deepseek", "m", 1, sent)))
  {
    hide SpecError, ClientError, ProtocolOf, Normalize, IsBlank, Appended;
    DeepSeekReady();
    HelloSent(c);
  }

  lemma OKStored(sent: Sent)
    requires sent.Whole?
    ensures Finish(State(map[], map["deepseek" := map[]]), Call("deepseek", "m", 1, sent), Answer(OK_REPLY)) ==
            (State(map["r1" := ResponseState("deepseek", "m", 1)],
                   map["deepseek" := map["r1" := WithReply(DeepSeek, sent.conversation, OK_REPLY)]]), Success(OK_REPLY))
  {
    hide ProtocolOf, IsBlank;
    DeepSeekReady();
    var empty: map<string, Conversation> := map[];
    var none: map<string, ResponseState> := map[];
    var native := WithReply(DeepSeek, sent.conversation, OK_REPLY);
    assert empty["r1" := native] == map["r1" := native];
    assert none["r1" := ResponseState("deepseek", "m", 1)] == map["r1" := ResponseState("deepseek", "m", 1)];
    assert map["deepseek" := empty]["deepseek" := map["r1" := native]] == map["deepseek" := map["r1" := native]];
  }

  lemma ContinuedCall(c: Codec, s: State, claimed: Item)
    requires "r1" in s.states && s.states["r1"] == ResponseState("deepseek", "m", 1)
    requires "deepseek" in s.conversations && "r1" in s.conversations["deepseek"]
    ensures Begin(s, WITH_KEY, c, DEEPSEEK_SPEC, [claimed], "r1").1 ==
            Success(Call("deepseek", "m", 1, Whole(s.conversations["deepseek"]["r1"], "")))
  {
    hide SpecError, ClientError, ProtocolOf, Normalize, IsBlank;
    DeepSeekReady();
    assert [claimed][1..] == [];
  }

  // ---------- The second critical section ----------

  /** Replies carry fresh identifiers. */
  predicate Fresh(s: State, exchange: Exchange) {
    exchange.Answer? ==> exchange.reply.id !in s.states
  }

  function PathsAfter(paths: Paths, path: Path, exchange: Exchange): Paths {
    if exchange.Answer? && !IsBlank(exchange.reply.id) then paths[exchange.reply.id := Answered(path, exchange.reply)] else paths
  }

  lemma AnsweredPath(c: Codec, path: Path, sent: Sent, reply: Reply)
    requires Carries(c, path, sent)
    ensures Stored(Answered(path, reply).entries) && Answered(path, reply).entries != []
    ensures LastReply(Answered(path, reply).entries) == Some(reply.id)
    ensures Items(Answered(path, reply).entries) == Items(path.entries)
    ensures match ProtocolOf(path.endpoint)
            case None => true
            case Some(p) => Translate(p, c, path.root, Answered(path, reply).entries) == Success(WithReply(p, sent.conversation, reply))
  {
    var all := Answered(path, reply).entries;
    assert all[..|all| - 1] == path.entries;
  }

  /** What a finished call leaves of an earlier response. */
  lemma FinishKeeps(s: State, c: Codec, call: Call, exchange: Exchange, id: string, path: Path)
    requires PathRecorded(s, c, id, path) && Fresh(s, exchange)
    ensures PathRecorded(Finish(s, call, exchange).0, c, id, path) && Unchanged(s, Finish(s, call, exchange).0, id)
  {
    hide Translate, ProtocolOf, IsBlank, Items, WithReply, LastReply;
  }

  /** The answered path, under its new response. */
  lemma FinishAdds(s: State, c: Codec, call: Call, path: Path, reply: Reply)
    requires CallFor(c, call, path) && !IsBlank(reply.id)
    ensures PathRecorded(Finish(s, call, Answer(reply)).0, c, reply.id, Answered(path, reply))
  {
    hide Translate, ProtocolOf, IsBlank, Items, WithReply, LastReply, NewItems, Names;
    AnsweredPath(c, path, call.sent, reply);
  }

  /** A finished call stores the answered path; everything recorded before stays as it was. */
  lemma FinishRecords(s: State, c: Codec, paths: Paths, call: Call, path: Path, exchange: Exchange)
    requires Recorded(s, c, paths) && CallFor(c, call, path) && Fresh(s, exchange)
    ensures Recorded(Finish(s, call, exchange).0, c, PathsAfter(paths, path, exchange))
    ensures forall id :: id in paths ==> Unchanged(s, Finish(s, call, exchange).0, id)
  {
    hide PathRecorded, Unchanged, CallFor, IsBlank, Answered, Kept, ProtocolOf;
    forall id | id in paths ensures PathRecorded(Finish(s, call, exchange).0, c, id, paths[id]) && Unchanged(s, Finish(s, call, exchange).0, id) {
      FinishKeeps(s, c, call, exchange, id, paths[id]);
    }
    if exchange.Answer? && !IsBlank(exchange.reply.id) { FinishAdds(s, c, call, path, exchange.reply); }
  }

  /** The response is known as before, and so is its conversation wherever one is stored. */
  predicate Unchanged(s: State, s': State, id: string) {
    && id in s.states && id in s'.states && s'.states[id] == s.states[id]
    && var e := s.states[id].endpoint;
       e in s.conversations && id in s.conversations[e] ==>
         e in s'.conversations && id in s'.conversations[e] && s'.conversations[e][id] == s.conversations[e][id]
  }

  lemma OpenedKeeps(s: State, c: Codec, paths: Paths, endpoint: string)
    requires Recorded(s, c, paths)
    ensures Recorded(Opened(s, endpoint), c, paths)
    ensures forall id :: id in paths ==> Unchanged(s, Opened(s, endpoint), id)
  {
    hide Translate, ProtocolOf, Items, IsBlank;
    var s' := Opened(s, endpoint);
    forall id | id in paths ensures PathRecorded(s', c, id, paths[id]) && Unchanged(s, s', id) {
      assert PathRecorded(s, c, id, paths[id]);
    }
  }

  /** Opening a client changes nothing that is recorded. */
  lemma BeginKeeps(s: State, environment: map<string, string>, c: Codec, paths: Paths, spec: Spec, input: seq<Item>, previous: string)
    requires Recorded(s, c, paths)
    ensures Recorded(Begin(s, environment, c, spec, input, previous).0, c, paths)
    ensures forall id :: id in paths ==> Unchanged(s, Begin(s, environment, c, spec, input, previous).0, id)
  {
    hide PathRecorded, Opened, Prepared, SpecError, ClientError, RequestDelta, Normalize, ProtocolOf;
    OpenedKeeps(s, c, paths, Normalize(spec.endpoint));
    forall id | id in paths ensures Unchanged(s, s, id) { RecordedKnown(s, c, paths, id); }
  }

  lemma RecordedKnown(s: State, c: Codec, paths: Paths, id: string)
    requires Recorded(s, c, paths) && id in paths
    ensures id in s.states
  {
  }

  /** A caller that continues its own path with more input is never refused by the delta check. */
  lemma ExtensionAccepted(s: State, c: Codec, paths: Paths, spec: Spec, input: seq<Item>, previous: string)
    requires Recorded(s, c, paths)
    requires !IsBlank(previous) ==>
      previous in paths && paths[previous].endpoint == Normalize(spec.endpoint) && paths[previous].model == spec.model &&
      Items(paths[previous].entries) <= input
    ensures RequestDelta(s.states, spec, input, previous).Success?
  {
    if !IsBlank(previous) { assert PathRecorded(s, c, previous, paths[previous]); }
  }

  /** Providers answer any request with a fresh response identifier. */
  ghost predicate FreshUpstream(s: State, upstream: Sent -> Exchange) {
    forall sent :: Fresh(s, upstream(sent))
  }

  /** A whole request: what is sent is the continued path's translation, and the path of an answer is recorded. */
  lemma CallStepCarries(s: State, environment: map<string, string>, c: Codec, paths: Paths, spec: Spec, input: seq<Item>,
                        previous: string, upstream: Sent -> Exchange) returns (paths': Paths)
    requires Recorded(s, c, paths) && FreshUpstream(s, upstream)
    ensures var o := CallStep(s, environment, c, spec, input, previous, upstream);
            && Recorded(o.state, c, paths')
            && (o.sent.Some? ==> (!IsBlank(previous) ==> previous in paths) && Carries(c, Extended(paths, spec, input, previous), o.sent.value))
            && (o.result.Success? ==>
                  && o.sent.Some? && !IsBlank(o.result.value.id) && upstream(o.sent.value) == Answer(o.result.value)
                  && paths' == paths[o.result.value.id := Answered(Extended(paths, spec, input, previous), o.result.value)])
            && (o.result.Failure? ==> paths' == paths)
  {
    hide Begin, Recorded, Carries, Extended, Fresh, IsBlank;
    var (s', begun) := Begin(s, environment, c, spec, input, previous);
    BeginKeeps(s, environment, c, paths, spec, input, previous);
    if begun.Failure? { return paths; }
    BeginCarries(s, environment, c, paths, spec, input, previous);
    var path, exchange := Extended(paths, spec, input, previous), upstream(begun.value.sent);
    BeginKeepsStates(s, environment, c, spec, input, previous);
    FreshAfter(s, s', exchange);
    FinishRecords(s', c, paths, begun.value, path, exchange);
    return PathsAfter(paths, path, exchange);
  }

  lemma BeginKeepsStates(s: State, environment: map<string, string>, c: Codec, spec: Spec, input: seq<Item>, previous: string)
    ensures Begin(s, environment, c, spec, input, previous).0.states == s.states
  {
    hide SpecError, ClientError, RequestDelta, Prepared, Normalize, ProtocolOf;
  }

  lemma FreshAfter(s: State, s': State, exchange: Exchange)
    requires s'.states == s.states && Fresh(s, exchange)
    ensures Fresh(s', exchange)
  {
  }
}
