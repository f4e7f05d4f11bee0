/**
 The executor (common/modelgateway/executor.go) and the provider clients' stored conversations.

 A caller sends its whole input every time and names the response it continues; the executor cuts off the
 items it has already sent and the provider's client appends the rest to the conversation it stored under
 that response. `Begin` and `Finish` are the two critical sections of one request, around the provider call.
 */
module Executor {
  import opened Conversations
  import opened Endpoints
  import opened Results
  import opened Text

  datatype Spec = Spec(endpoint: string, model: string, headers: seq<string>, routing: bool, maxToolCalls: bool)

  datatype CallError =
    | NoClient(error: EndpointError)
    | ModelRequired | RoutingNeedsOpenRouter | ControlledHeader | HeadersUnsupported | MaxToolCallsUnsupported
    | UnknownPrevious | OtherConfiguration | RemovedItems
    | UnknownConversation | BadInput(reason: InputError)
    | ProviderFailure(cause: string) | OmittedID

  datatype ResponseState = ResponseState(endpoint: string, model: string, inputCount: nat)

  /** What goes upstream: the whole conversation, or only the new items where the provider keeps it; and the response
      identifier named as the previous one, if any. */
  datatype Sent = Whole(conversation: Conversation, previous: string) | OnlyNew(previous: string, items: seq<Item>)

  /** What comes back: nothing (the request could not be built, sent or understood), or a reply. */
  datatype Exchange = NoReply(cause: string) | Answer(reply: Reply)

  /** A request between its two critical sections. */
  datatype Call = Call(endpoint: string, model: string, inputCount: nat, sent: Sent)

  /** The executor's response table and every client's stored conversations, by endpoint. */
  datatype State = State(states: map<string, ResponseState>, conversations: map<string, map<string, Conversation>>)

  const INITIAL := State(map[], map[])

  // ---------- Specification of one request ----------

  /** Headers that an endpoint sets itself. */
  const CONTROLLED_HEADERS := ["authorization", "host", "x-api-key", "x-goog-api-key"]

  predicate Controlled(headers: seq<string>) {
    exists i :: 0 <= i < |headers| && Normalize(headers[i]) in CONTROLLED_HEADERS
  }

  function SpecError(spec: Spec): Option<CallError> {
    var name := Normalize(spec.endpoint);
    var config := EndpointConfiguration(name);
    if config.None? then Some(NoClient(Unsupported(name)))
    else if IsBlank(spec.model) then Some(ModelRequired)
    else if name != "openrouter" && spec.routing then Some(RoutingNeedsOpenRouter)
    else if Controlled(spec.headers) then Some(ControlledHeader)
    else if !OpenAICompatible(config.value) && spec.headers != [] then Some(HeadersUnsupported)
    else if !OpenAICompatible(config.value) && spec.maxToolCalls then Some(MaxToolCallsUnsupported)
    else None
  }

  /** Only the number of earlier items is compared, not the items. */
  function RequestDelta(states: map<string, ResponseState>, spec: Spec, input: seq<Item>, previous: string): Result<seq<Item>, CallError> {
    if IsBlank(previous) then Success(input)
    else if previous !in states then Failure(UnknownPrevious)
    else if states[previous].endpoint != Normalize(spec.endpoint) || states[previous].model != spec.model then
      Failure(OtherConfiguration)
    else if |input| < states[previous].inputCount then Failure(RemovedItems)
    else Success(input[states[previous].inputCount..])
  }

  /** A client looks its stored conversation up and appends the new items. */
  function Prepared(p: Option<Protocol>, c: Codec, stored: map<string, Conversation>, items: seq<Item>, previous: string): Result<Sent, CallError> {
    if (p.None? || p == Some(OpenRouter)) && GivenItems(items).Failure? then Failure(BadInput(GivenItems(items).error))
    else if p.None? then Success(OnlyNew(previous, GivenItems(items).value))
    else if !IsBlank(previous) && previous !in stored then Failure(UnknownConversation)
    else
      var conv := if IsBlank(previous) then EMPTY else stored[previous];
      var extended := Appended(p.value, c, conv, items, previous == "");
      if extended.Failure? then Failure(BadInput(extended.error)) else Success(Whole(extended.value, Named(p.value, previous)))
  }

  /** Only OpenRouter's client would pass a previous response on, and it empties one that it continues. */
  function Named(p: Protocol, previous: string): string {
    if p.OpenRouter? && IsBlank(previous) then previous else ""
  }

  /** The client of an endpoint, which starts without conversations. */
  function Opened(s: State, endpoint: string): State {
    if endpoint in s.conversations then s else s.(conversations := s.conversations[endpoint := map[]])
  }

  function Begin(s: State, environment: map<string, string>, c: Codec, spec: Spec, input: seq<Item>, previous: string): (State, Result<Call, CallError>) {
    var endpoint := Normalize(spec.endpoint);
    if SpecError(spec).Some? then (s, Failure(SpecError(spec).value))
    else if ClientError(spec.endpoint, environment).Some? then (s, Failure(NoClient(ClientError(spec.endpoint, environment).value)))
    else
      var s' := Opened(s, endpoint);
      var delta := RequestDelta(s.states, spec, input, previous);
      if delta.Failure? then (s', Failure(delta.error)) else
        var sent := Prepared(ProtocolOf(endpoint), c, s'.conversations[endpoint], delta.value, previous);
        if sent.Failure? then (s', Failure(sent.error))
        else (s', Success(Call(endpoint, spec.model, |input|, sent.value)))
  }

  /** A client's conversations once a reply has arrived. */
  function Kept(p: Option<Protocol>, stored: map<string, Conversation>, sent: Sent, reply: Reply): map<string, Conversation> {
    if p.Some? && sent.Whole? then stored[reply.id := WithReply(p.value, sent.conversation, reply)] else stored
  }

  function Finish(s: State, call: Call, exchange: Exchange): (State, Result<Reply, CallError>) {
    match exchange
    case NoReply(cause) => (s, Failure(ProviderFailure(cause)))
    case Answer(reply) =>
      var ready := Opened(s, call.endpoint);
      var stored := Kept(ProtocolOf(call.endpoint), ready.conversations[call.endpoint], call.sent, reply);
      var s' := ready.(conversations := ready.conversations[call.endpoint := stored]);
      if IsBlank(reply.id) then (s', Failure(OmittedID))
      else (s'.(states := s'.states[reply.id := ResponseState(call.endpoint, call.model, call.inputCount)]), Success(reply))
  }

  datatype Outcome = Outcome(state: State, result: Result<Reply, CallError>, sent: Option<Sent>)

  /** One whole request, with nothing else in between. */
  function CallStep(s: State, environment: map<string, string>, c: Codec, spec: Spec, input: seq<Item>, previous: string,
                    upstream: Sent -> Exchange): Outcome {
    var (s', begun) := Begin(s, environment, c, spec, input, previous);
    if begun.Failure? then Outcome(s', Failure(begun.error), None) else
      var sent := begun.value.sent;
      var finished := Finish(s', begun.value, upstream(sent));
      Outcome(finished.0, finished.1, Some(sent))
  }

  // ---------- The implementation ----------

  class ProviderClient {
    const protocol: Option<Protocol>
    ghost const endpoint: string
    var states: map<string, Conversation>

    constructor (protocol: Option<Protocol>, ghost endpoint: string)
      ensures this.protocol == protocol && this.endpoint == endpoint && states == map[]
    {
      this.protocol, this.endpoint := protocol, endpoint;
      states := map[];
    }

    method Prepare(c: Codec, items: seq<Item>, previous: string) returns (r: Result<Sent, CallError>)
      ensures r == Prepared(protocol, c, states, items, previous)
    {
      var given := [];
      if protocol.None? || protocol == Some(OpenRouter) {
        var converted := ConvertInputItems(items);
        if converted.Failure? { return Failure(BadInput(converted.error)); }
        given := converted.value;
      }
      if protocol.None? { return Success(OnlyNew(previous, given)); }
      var conversation := EMPTY;
      if !IsBlank(previous) {
        if previous !in states { return Failure(UnknownConversation); }
        conversation := states[previous];
      }
      var extended: Result<Conversation, InputError>;
      if protocol.value.OpenRouter? {
        extended := Success(conversation.(messages := conversation.messages + Givens(given)));
        AppendedGiven(c, conversation, items, previous == "");
      } else if protocol.value.DeepSeek? {
        extended := AppendDeepSeekInput(c, conversation, items);
        DeepSeekAllowsSystem(c, conversation, items, previous == "");
      } else {
        extended := AppendGroupedInput(protocol.value, c, conversation, items, previous == "");
      }
      return if extended.Failure? then Failure(BadInput(extended.error)) else Success(Whole(extended.value, Named(protocol.value, previous)));
    }

    /** One request: nothing is stored unless the provider answers. */
    method CreateResponse(c: Codec, items: seq<Item>, previous: string, upstream: Sent -> Exchange)
      returns (r: Result<Reply, CallError>, sent: Option<Sent>)
      modifies this
      ensures var prepared := Prepared(protocol, c, old(states), items, previous);
        if prepared.Failure? then r == Failure(prepared.error) && sent == None && states == old(states)
        else
          && sent == Some(prepared.value)
          && match upstream(prepared.value)
             case NoReply(cause) => r == Failure(ProviderFailure(cause)) && states == old(states)
             case Answer(reply) => r == Success(reply) && states == Kept(protocol, old(states), prepared.value, reply)
    {
      var prepared := Prepare(c, items, previous);
      if prepared.Failure? { return Failure(prepared.error), None; }
      sent := Some(prepared.value);
      match upstream(prepared.value)
      case NoReply(cause) =>
        r := Failure(ProviderFailure(cause));
      case Answer(reply) =>
        if protocol.Some? && prepared.value.Whole? {
          states := states[reply.id := WithReply(protocol.value, prepared.value.conversation, reply)];
        }
        r := Success(reply);
    }
  }

  lemma {:induction false} DeepSeekAllowsSystem(c: Codec, conv: Conversation, items: seq<Item>, allowSystem: bool)
    ensures Appended(DeepSeek, c, conv, items, allowSystem) == Appended(DeepSeek, c, conv, items, true)
  {
    if items != [] { DeepSeekAllowsSystem(c, conv, items[..|items| - 1], allowSystem); }
  }

  lemma SameEndpoint(endpoint: string, environment: map<string, string>)
    ensures Normalize(Normalize(endpoint)) == Normalize(endpoint)
    ensures ClientError(Normalize(endpoint), environment) == ClientError(endpoint, environment)
  {
    hide EndpointConfiguration, IsBlank, Normalize;
    NormalizeIdempotent(endpoint);
  }

  /** Finishing a call whose endpoint has a client. */
  lemma FinishOpen(s: State, call: Call, exchange: Exchange)
    requires call.endpoint in s.conversations
    ensures Finish(s, call, exchange) ==
      match exchange
      case NoReply(cause) => (s, Failure(ProviderFailure(cause)))
      case Answer(reply) =>
        var stored := s.conversations[call.endpoint := Kept(ProtocolOf(call.endpoint), s.conversations[call.endpoint], call.sent, reply)];
        if IsBlank(reply.id) then (State(s.states, stored), Failure(OmittedID))
        else (State(s.states[reply.id := ResponseState(call.endpoint, call.model, call.inputCount)], stored), Success(reply))
  {
    hide IsBlank, Kept, ProtocolOf;
  }

  class ModelExecutor {
    const environment: map<string, string>
    var clients: map<string, ProviderClient>
    var states: map<string, ResponseState>

    /** Every endpoint has its own client, made for its protocol with a credential present. */
    ghost predicate Valid()
      reads this, clients.Values
    {
      forall e :: e in clients ==>
        && clients[e].endpoint == e && clients[e].protocol == ProtocolOf(e)
        && Normalize(e) == e && ClientError(e, environment).None?
    }

    ghost function View(): State
      reads this, clients.Values
    {
      State(states, map e | e in clients :: clients[e].states)
    }

    constructor (environment: map<string, string>)
      ensures Valid() && View() == INITIAL && this.environment == environment && clients == map[]
    {
      this.environment := environment;
      clients := map[];
      states := map[];
    }

    lemma KnownClient(name: string)
      requires Valid() && name in clients
      ensures ClientError(name, environment).None?
    {
    }

    /** The client of an endpoint, made on first use. */
    method ClientForEndpoint(endpoint: string) returns (r: Result<ProviderClient, CallError>)
      requires Valid()
      modifies this`clients
      ensures Valid()
      ensures match ClientError(endpoint, environment)
              case Some(error) => r == Failure(NoClient(error)) && View() == old(View()) && clients == old(clients)
              case None =>
                && r.Success? && View() == Opened(old(View()), Normalize(endpoint))
                && Normalize(endpoint) in clients && clients[Normalize(endpoint)] == r.value
                && forall e :: e in clients ==> (e in old(clients) && clients[e] == old(clients[e])) || fresh(clients[e])
    {
      hide ClientError, Normalize, ModelExecutor.Valid;
      var name := Normalize(endpoint);
      SameEndpoint(endpoint, environment);
      if name in clients {
        KnownClient(name);
        return Success(clients[name]);
      }
      var error := ClientError(endpoint, environment);
      if error.Some? { return Failure(NoClient(error.value)); }
      var client := AddClient(name);
      return Success(client);
    }

    method AddClient(name: string) returns (client: ProviderClient)
      requires Valid() && name !in clients && Normalize(name) == name && ClientError(name, environment).None?
      modifies this`clients
      ensures Valid() && fresh(client) && clients == old(clients)[name := client]
      ensures View() == Opened(old(View()), name)
    {
      hide ClientError, Normalize, ProtocolOf, EndpointConfiguration, IsBlank, ToLower, TrimSpace;
      ghost var before := View().conversations;
      client := new ProviderClient(ProtocolOf(name), name);
      clients := clients[name := client];
      assert View().conversations == before[name := map[]];
    }

    /** The client of an endpoint asks its provider. */
    method AskClient(c: Codec, name: string, items: seq<Item>, previous: string, upstream: Sent -> Exchange)
      returns (answer: Result<Reply, CallError>, sent: Option<Sent>)
      requires Valid() && name in clients
      modifies clients[name]
      ensures Valid() && clients == old(clients)
      ensures var prepared := Prepared(ProtocolOf(name), c, old(View()).conversations[name], items, previous);
        if prepared.Failure? then answer == Failure(prepared.error) && sent == None && View() == old(View())
        else
          && sent == Some(prepared.value)
          && match upstream(prepared.value)
             case NoReply(cause) => answer == Failure(ProviderFailure(cause)) && View() == old(View())
             case Answer(reply) =>
               var before := old(View()).conversations;
               && answer == Success(reply)
               && View() == State(old(states), before[name := Kept(ProtocolOf(name), before[name], prepared.value, reply)])
    {
      hide Prepared, EndpointConfiguration, Normalize, IsBlank, ProtocolOf, Kept, ClientError;
      ghost var before := View().conversations;
      answer, sent := clients[name].CreateResponse(c, items, previous, upstream);
      assert View().conversations == before[name := clients[name].states];
      if answer.Failure? { assert View().conversations == before; }
    }

    method Remember(id: string, state: ResponseState)
      requires Valid()
      modifies this`states
      ensures Valid() && clients == old(clients)
      ensures View() == State(old(View()).states[id := state], old(View()).conversations)
    {
      hide Normalize, ClientError, ProtocolOf, EndpointConfiguration, IsBlank;
      ghost var before := View().conversations;
      states := states[id := state];
      assert View().conversations == before;
    }

    /** The provider call and what is stored after it. */
    method Ask(c: Codec, name: string, model: string, count: nat, items: seq<Item>, previous: string, upstream: Sent -> Exchange)
      returns (r: Result<Reply, CallError>, ghost sent: Option<Sent>)
      requires Valid() && name in clients
      modifies this`states, clients[name]
      ensures Valid() && clients == old(clients)
      ensures match Prepared(ProtocolOf(name), c, old(View()).conversations[name], items, previous)
              case Failure(error) => r == Failure(error) && sent == None && View() == old(View())
              case Success(whole) =>
                && sent == Some(whole)
                && (View(), r) == Finish(old(View()), Call(name, model, count, whole), upstream(whole))
    {
      hide Prepared, IsBlank, ProtocolOf, Kept, Finish, ModelExecutor.Valid;
      ghost var s := View();
      var asked;
      r, asked := AskClient(c, name, items, previous, upstream);
      sent := asked;
      if asked.Some? { FinishOpen(s, Call(name, model, count, asked.value), upstream(asked.value)); }
      if r.Success? {
        if IsBlank(r.value.id) { return Failure(OmittedID), sent; }
        Remember(r.value.id, ResponseState(name, model, count));
      }
    }

    /** One request, as the two critical sections around the provider's answer. */
    method CreateResponse(c: Codec, spec: Spec, input: seq<Item>, previous: string, upstream: Sent -> Exchange)
      returns (r: Result<Reply, CallError>, ghost sent: Option<Sent>)
      requires Valid()
      modifies this, clients.Values
      ensures Valid() && fresh(clients.Values - old(clients.Values))
      ensures Outcome(View(), r, sent) == CallStep(old(View()), environment, c, spec, input, previous, upstream)
    {
      hide Prepared, EndpointConfiguration, Normalize, IsBlank, ProtocolOf, SpecError, ClientError, RequestDelta, Finish;
      sent := None;
      var specError := SpecError(spec);
      if specError.Some? { return Failure(specError.value), None; }
      var client := ClientForEndpoint(spec.endpoint);
      if client.Failure? { return Failure(client.error), None; }
      var delta := RequestDelta(states, spec, input, previous);
      if delta.Failure? { return Failure(delta.error), None; }
      r, sent := Ask(c, Normalize(spec.endpoint), spec.model, |input|, delta.value, previous, upstream);
    }
  }
}
