/**
 The stateless chat interface over the executor (common/modelgateway/server.go): a binding checks the client's
 messages against those it expects and passes on all items so far.
 */
module ChatServer {
  import opened Chat
  import opened Continuation
  import opened Conversations
  import opened Endpoints
  import opened Executor
  import opened Results
  import opened Text

  datatype ChatRequest = ChatRequest(model: string, messages: seq<ChatMessage>, toolChoice: bool, toolsConvert: bool)

  datatype Binding = Binding(
    alias: string, spec: Spec, inputItems: seq<Item>, previousResponseID: string, expectedMessages: seq<ChatMessage>)

  datatype ServerError = Refused(error: ChatError) | ModelError(cause: CallError) | RecordNotWritten

  /** The whole input of a chat request, or why it is refused before any model is asked. */
  function ChatInput(b: Binding, parse: Parse, chat: ChatRequest): Result<seq<Item>, ChatError> {
    if IsBlank(chat.model) then Failure(ChatError.ModelRequired)
    else if chat.model != b.alias then Failure(OtherModel)
    else if chat.messages == [] then Failure(MessagesRequired)
    else if chat.toolChoice then Failure(ToolChoiceUnsupported)
    else
      var error := HistoryError(parse, chat.messages, b.expectedMessages);
      if error.Some? then Failure(error.value) else
        var items := ChatItems(chat.messages[|b.expectedMessages|..]);
        if items.Failure? then Failure(items.error)
        else if !chat.toolsConvert then Failure(BadTools)
        else Success(b.inputItems + items.value)
  }

  /** The request names the binding's model, comes with messages and nothing unsupported, repeats the expected messages
      each in its place, and every further message can be taken as input. */
  predicate Answerable(b: Binding, parse: Parse, chat: ChatRequest) {
    && !IsBlank(chat.model) && chat.model == b.alias && chat.messages != [] && !chat.toolChoice && chat.toolsConvert
    && |b.expectedMessages| <= |chat.messages|
    && (forall k :: 0 <= k < |b.expectedMessages| ==> Same(parse, chat.messages[k], b.expectedMessages[k]))
    && (forall k :: |b.expectedMessages| <= k < |chat.messages| ==> ChatItem(chat.messages[k]).Success?)
  }

  lemma {:induction false} ItemsWhenEach(messages: seq<ChatMessage>)
    requires forall k :: 0 <= k < |messages| ==> ChatItem(messages[k]).Success?
    ensures ChatItems(messages).Success?
  {
    hide ChatItem;
    if messages != [] { ItemsWhenEach(messages[..|messages| - 1]); }
  }

  /** Exactly the answerable requests have an input, which is the binding's own and one item for each new message. */
  lemma AnswerableExactly(b: Binding, parse: Parse, chat: ChatRequest)
    ensures ChatInput(b, parse, chat).Success? <==> Answerable(b, parse, chat)
    ensures ChatInput(b, parse, chat).Success? ==>
      var n, input := |b.expectedMessages|, ChatInput(b, parse, chat).value;
      && |input| == |b.inputItems| + |chat.messages| - n && b.inputItems <= input
      && forall k :: n <= k < |chat.messages| ==> ChatItem(chat.messages[k]) == Success(input[|b.inputItems| + k - n])
  {
    hide ChatItem, Same, HistoryError, ChatItems;
    HistoryAccepted(parse, chat.messages, b.expectedMessages);
    if |b.expectedMessages| <= |chat.messages| {
      var more := chat.messages[|b.expectedMessages|..];
      if ChatItems(more).Success? {
        ChatItemsEach(more);
        forall k | |b.expectedMessages| <= k < |chat.messages|
          ensures ChatItem(chat.messages[k]) == Success(ChatItems(more).value[k - |b.expectedMessages|])
        {
          assert chat.messages[k] == more[k - |b.expectedMessages|];
        }
      }
      if Answerable(b, parse, chat) {
        forall k | 0 <= k < |more| ensures ChatItem(more[k]).Success? { assert more[k] == chat.messages[k + |b.expectedMessages|]; }
        ItemsWhenEach(more);
      }
    }
  }

  /** A binding after an answered request; its record must have been written. */
  function ChatAnswered(b: Binding, input: seq<Item>, messages: seq<ChatMessage>, reply: Reply): Binding {
    b.(inputItems := input, previousResponseID := reply.id, expectedMessages := messages + [AssistantMessage(reply)])
  }

  datatype ChatOutcome = ChatOutcome(binding: Binding, exec: State, result: Result<Reply, ServerError>, sent: Option<Sent>)

  /** One chat request, with nothing else in between. */
  function ChatStep(b: Binding, s: State, environment: map<string, string>, parse: Parse, c: Codec, chat: ChatRequest,
                    upstream: Sent -> Exchange, recordWritten: bool): ChatOutcome {
    var input := ChatInput(b, parse, chat);
    if input.Failure? then ChatOutcome(b, s, Failure(Refused(input.error)), None) else
      var call := CallStep(s, environment, c, b.spec, input.value, b.previousResponseID, upstream);
      if !recordWritten then ChatOutcome(b, call.state, Failure(RecordNotWritten), call.sent)
      else if call.result.Failure? then ChatOutcome(b, call.state, Failure(ModelError(call.result.error)), call.sent)
      else ChatOutcome(ChatAnswered(b, input.value, chat.messages, call.result.value), call.state,
                       Success(call.result.value), call.sent)
  }

  // ---------- The implementation ----------

  class ChatBinding {
    const alias: string
    const spec: Spec
    var inputItems: seq<Item>
    var previousResponseID: string
    var expectedMessages: seq<ChatMessage>

    ghost function View(): Binding
      reads this
    {
      Binding(alias, spec, inputItems, previousResponseID, expectedMessages)
    }

    constructor (alias: string, spec: Spec)
      ensures View() == Binding(alias, spec, [], "", [])
    {
      this.alias, this.spec := alias, spec;
      inputItems, previousResponseID, expectedMessages := [], "", [];
    }

    method Input(parse: Parse, chat: ChatRequest) returns (r: Result<seq<Item>, ChatError>)
      ensures r == ChatInput(View(), parse, chat)
    {
      if IsBlank(chat.model) { return Failure(ChatError.ModelRequired); }
      if chat.model != alias { return Failure(OtherModel); }
      if chat.messages == [] { return Failure(MessagesRequired); }
      if chat.toolChoice { return Failure(ToolChoiceUnsupported); }
      var error := CheckMessagePrefix(parse, chat.messages, expectedMessages);
      if error.Some? { return Failure(error.value); }
      var newInput := ChatInputItems(chat.messages[|expectedMessages|..]);
      if newInput.Failure? { return Failure(newInput.error); }
      if !chat.toolsConvert { return Failure(BadTools); }
      return Success(inputItems + newInput.value);
    }
  }

  class ModelServer {
    const executor: ModelExecutor
    var bindings: map<string, ChatBinding>

    constructor (executor: ModelExecutor)
      ensures this.executor == executor && bindings == map[]
    {
      this.executor := executor;
      bindings := map[];
    }

    /** A new binding under a random token, once its endpoint has a client. */
    method Bind(name: string, spec: Spec, token: string, alias: string) returns (ok: bool)
      requires executor.Valid()
      modifies this, executor`clients
      ensures executor.Valid()
      ensures ok == (!IsBlank(name) && ClientError(spec.endpoint, executor.environment).None?)
      ensures !ok ==> bindings == old(bindings)
      ensures ok ==> token in bindings && fresh(bindings[token]) && bindings[token].View() == Binding(alias, spec, [], "", [])
                     && bindings == old(bindings)[token := bindings[token]]
    {
      if IsBlank(name) { return false; }
      var client := executor.ClientForEndpoint(spec.endpoint);
      if client.Failure? { return false; }
      var binding := new ChatBinding(alias, spec);
      bindings := bindings[token := binding];
      return true;
    }

    method Unbind(token: string) returns (ok: bool)
      modifies this
      ensures ok == (TrimSpace(token) in old(bindings) && !IsBlank(token))
      ensures bindings == if ok then old(bindings) - {TrimSpace(token)} else old(bindings)
    {
      var key := TrimSpace(token);
      if key == "" || key !in bindings { return false; }
      bindings := bindings - {key};
      return true;
    }

    /** One chat request. The binding moves on only if the model answered and the record was written. */
    method ExecuteChat(binding: ChatBinding, parse: Parse, c: Codec, chat: ChatRequest, upstream: Sent -> Exchange, recordWritten: bool)
      returns (r: Result<Reply, ServerError>, ghost sent: Option<Sent>)
      requires executor.Valid()
      modifies binding, executor, executor.clients.Values
      ensures executor.Valid()
      ensures ChatOutcome(binding.View(), executor.View(), r, sent)
           == ChatStep(old(binding.View()), old(executor.View()), executor.environment, parse, c, chat, upstream, recordWritten)
    {
      hide ChatInput, CallStep, AssistantMessage, ModelExecutor.Valid, ModelExecutor.View;
      sent := None;
      var input := binding.Input(parse, chat);
      if input.Failure? { return Failure(Refused(input.error)), None; }
      var answer;
      answer, sent := executor.CreateResponse(c, binding.spec, input.value, binding.previousResponseID, upstream);
      if !recordWritten { return Failure(RecordNotWritten), sent; }
      if answer.Failure? { return Failure(ModelError(answer.error)), sent; }
      binding.inputItems := input.value;
      binding.previousResponseID := answer.value.id;
      binding.expectedMessages := chat.messages + [AssistantMessage(answer.value)];
      return Success(answer.value), sent;
    }
  }

  // ---------- The client's view of a path ----------

  /** The client's message is the item it was converted to, or stands for the provider's reply. */
  predicate MirrorsEntry(parse: Parse, m: ChatMessage, e: Entry) {
    match e
    case Input(item) => ChatItem(m) == Success(item)
    case Replied(reply) => m == AssistantMessage(reply) || Same(parse, m, AssistantMessage(reply))
  }

  /** The client's history is the path, message by message. */
  predicate Mirrors(parse: Parse, messages: seq<ChatMessage>, h: seq<Entry>) {
    |messages| == |h| && forall k :: 0 <= k < |h| ==> MirrorsEntry(parse, messages[k], h[k])
  }

  lemma EchoMirrors(parse: Parse, m: ChatMessage, expected: ChatMessage, e: Entry)
    requires MirrorsEntry(parse, expected, e) && Same(parse, m, expected)
    ensures MirrorsEntry(parse, m, e)
  {
    match e
    case Input(item) => InputComesBackUnchanged(parse, m, expected);
    case Replied(reply) => if expected != AssistantMessage(reply) { EchoOfEcho(parse, m, expected, AssistantMessage(reply)); }
  }

  /** An accepted request's messages are the path's, followed by the new items. */
  lemma AcceptedMirrors(b: Binding, parse: Parse, chat: ChatRequest, h: seq<Entry>)
    requires ChatInput(b, parse, chat).Success? && Mirrors(parse, b.expectedMessages, h)
    ensures |h| <= |chat.messages|
    ensures var items := ChatItems(chat.messages[|h|..]);
            && items.Success? && ChatInput(b, parse, chat).value == b.inputItems + items.value
            && Mirrors(parse, chat.messages, h + Inputs(items.value))
  {
    hide MirrorsEntry, Same, ChatItem;
    HistoryAccepted(parse, chat.messages, b.expectedMessages);
    var items := ChatItems(chat.messages[|h|..]).value;
    ChatItemsEach(chat.messages[|h|..]);
    var all := h + Inputs(items);
    forall k | 0 <= k < |all| ensures MirrorsEntry(parse, chat.messages[k], all[k]) {
      if k < |h| {
        assert MirrorsEntry(parse, b.expectedMessages[k], h[k]);
        EchoMirrors(parse, chat.messages[k], b.expectedMessages[k], h[k]);
      } else {
        assert chat.messages[k] == chat.messages[|h|..][k - |h|];
        NewMirrors(parse, chat.messages[k], items[k - |h|]);
      }
    }
  }

  lemma NewMirrors(parse: Parse, m: ChatMessage, item: Item)
    requires ChatItem(m) == Success(item)
    ensures MirrorsEntry(parse, m, Input(item))
  {
  }

  lemma AnswerMirrors(parse: Parse, messages: seq<ChatMessage>, path: Path, reply: Reply)
    requires Mirrors(parse, messages, path.entries)
    ensures Mirrors(parse, messages + [AssistantMessage(reply)], Answered(path, reply).entries)
  {
  }
}
