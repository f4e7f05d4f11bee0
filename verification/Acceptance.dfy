/**
 Which model requests are sent at all (common/modelgateway/executor.go and the provider clients): the checks before the
 provider is asked, put together.
 */
module Acceptance {
  import opened Continuation
  import opened Conversations
  import opened Endpoints
  import opened Executor
  import opened Results
  import opened Text
  import opened WireContents

  /** The environment variable that holds an endpoint's credential; None for an endpoint that is not supported. */
  function CredentialName(name: string): Option<string> {
    match name
    case "anthropic" => Some("ANTHROPIC_API_KEY")
    case "deepseek" => Some("DEEPSEEK_API_KEY")
    case "google" => Some("GEMINI_API_KEY")
    case "huggingface" => Some("HF_TOKEN")
    case "openai" => Some("OPENAI_API_KEY")
    case "openrouter" => Some("OPENROUTER_API_KEY")
    case "xai" => Some("XAI_API_KEY")
    case _ => None
  }

  /** The endpoints that have a client of their own instead of the OpenAI-compatible one. */
  predicate Native(name: string) {
    name in ["anthropic", "deepseek", "google"]
  }

  lemma EndpointsAre(name: string)
    ensures EndpointConfiguration(name).Some? <==> CredentialName(name).Some?
    ensures CredentialName(name).Some? ==>
      && EndpointConfiguration(name).value.credentialName == CredentialName(name).value
      && (OpenAICompatible(EndpointConfiguration(name).value) <==> !Native(name))
    ensures ProtocolOf(name) == match name
                                case "anthropic" => Some(Anthropic)
                                case "deepseek" => Some(DeepSeek)
                                case "google" => Some(Google)
                                case "openrouter" => Some(OpenRouter)
                                case _ => None
  {
    LookUp(name);
  }

  lemma LookUp(name: string)
    ensures EndpointConfiguration(name) ==
      if name == "anthropic" then Some(ENDPOINTS[0]) else if name == "deepseek" then Some(ENDPOINTS[1])
      else if name == "google" then Some(ENDPOINTS[2]) else if name == "huggingface" then Some(ENDPOINTS[3])
      else if name == "openai" then Some(ENDPOINTS[4]) else if name == "openrouter" then Some(ENDPOINTS[5])
      else if name == "xai" then Some(ENDPOINTS[6]) else None
  {
    LookUpFrom(name, 0);
  }

  /** Looking a name up from a position on. */
  lemma {:induction false} LookUpFrom(name: string, k: nat)
    requires k <= |ENDPOINTS|
    ensures Lookup(ENDPOINTS[k..], name).Some? <==> exists j :: k <= j < |ENDPOINTS| && ENDPOINTS[j].name == name
    ensures forall j :: k <= j < |ENDPOINTS| && ENDPOINTS[j].name == name && (forall i :: k <= i < j ==> ENDPOINTS[i].name != name) ==>
      Lookup(ENDPOINTS[k..], name) == Some(ENDPOINTS[j])
    decreases |ENDPOINTS| - k
  {
    if k < |ENDPOINTS| {
      LookUpFrom(name, k + 1);
      assert ENDPOINTS[k..][1..] == ENDPOINTS[k + 1..];
    }
  }

  // ---------- What is asked of a request ----------

  /** The model, the routing, the headers and the limit on tool calls suit the endpoint. */
  predicate SuitsEndpoint(spec: Spec, name: string) {
    && !IsBlank(spec.model)
    && (spec.routing ==> name == "openrouter")
    && (forall i :: 0 <= i < |spec.headers| ==> Normalize(spec.headers[i]) !in ["authorization", "host", "x-api-key", "x-goog-api-key"])
    && (Native(name) ==> spec.headers == [] && !spec.maxToolCalls)
  }

  predicate HasCredential(name: string, environment: map<string, string>) {
    && CredentialName(name).Some? && CredentialName(name).value in environment
    && !IsBlank(environment[CredentialName(name).value])
  }

  /** The previous response is known, of the same endpoint and model, and the input is not shorter than its own. */
  predicate ContinuesPath(paths: Paths, spec: Spec, input: seq<Item>, previous: string) {
    IsBlank(previous) ||
    (previous in paths && paths[previous].endpoint == Normalize(spec.endpoint) && paths[previous].model == spec.model
     && |Items(paths[previous].entries)| <= |input|)
  }

  /** The provider's client can turn the whole conversation, or the new items alone, into messages. */
  ghost predicate ClientAccepts(c: Codec, path: Path) {
    match ProtocolOf(path.endpoint)
    case None => NewItemsFit(c, NewItems(path.entries))
    case Some(p) => AllFit(p, c, path.root, path.entries)
  }

  predicate NewItemsFit(c: Codec, items: seq<Item>) {
    forall i :: 0 <= i < |items| && items[i].Message? ==> MessageFits(OpenRouter, c, items[i].role, items[i].content, true)
  }

  lemma {:induction false} ItemsGiven(c: Codec, items: seq<Item>)
    ensures GivenItems(items).Success? <==> NewItemsFit(c, items)
  {
    hide GivenItem, MessageFits, MessageBlamed, MessageRenders;
    if items != [] {
      var front, last := items[..|items| - 1], items[|items| - 1];
      ItemsGiven(c, front);
      ItemGiven(c, last);
      assert forall i :: 0 <= i < |front| ==> items[i] == front[i];
    }
  }

  lemma SpecSuits(spec: Spec)
    ensures SpecError(spec).None? <==> CredentialName(Normalize(spec.endpoint)).Some? && SuitsEndpoint(spec, Normalize(spec.endpoint))
  {
    hide EndpointConfiguration, IsBlank, Normalize, OpenAICompatible, Native, CredentialName;
    var name := Normalize(spec.endpoint);
    EndpointsAre(name);
    if Controlled(spec.headers) {
      var i :| 0 <= i < |spec.headers| && Normalize(spec.headers[i]) in CONTROLLED_HEADERS;
      assert Normalize(spec.headers[i]) in ["authorization", "host", "x-api-key", "x-goog-api-key"];
    } else {
      assert forall i :: 0 <= i < |spec.headers| ==> Normalize(spec.headers[i]) !in CONTROLLED_HEADERS;
    }
  }

  lemma CredentialThere(endpoint: string, environment: map<string, string>)
    ensures ClientError(endpoint, environment).None? <==> HasCredential(Normalize(endpoint), environment)
  {
    hide EndpointConfiguration, IsBlank, Normalize, CredentialName;
    EndpointsAre(Normalize(endpoint));
  }

  lemma DeltaTaken(s: State, c: Codec, paths: Paths, spec: Spec, input: seq<Item>, previous: string)
    requires Recorded(s, c, paths)
    ensures RequestDelta(s.states, spec, input, previous).Success? <==> ContinuesPath(paths, spec, input, previous)
  {
    hide PathStored, IsBlank, Normalize, Items;
    if !IsBlank(previous) && previous in paths { assert PathRecorded(s, c, previous, paths[previous]); }
  }

  lemma ClientPrepares(s: State, c: Codec, paths: Paths, spec: Spec, previous: string, items: seq<Item>)
    requires Recorded(s, c, paths) && (!IsBlank(previous) ==> previous in paths)
    requires Base(paths, spec, previous).endpoint == Normalize(spec.endpoint)
    ensures var base := Base(paths, spec, previous);
            Prepared(ProtocolOf(base.endpoint), c, Opened(s, base.endpoint).conversations[base.endpoint], items, previous).Success?
            <==> ClientAccepts(c, base.(entries := base.entries + Inputs(items)))
  {
    hide ProtocolOf, Normalize, IsBlank, Appended, Translate, AllFit, NewItemsFit, GivenItems;
    var base := Base(paths, spec, previous);
    var path := base.(entries := base.entries + Inputs(items));
    PreparedCarries(s, c, paths, spec, previous, items);
    BaseStored(s, c, paths, spec, previous);
    NewAfter(base.entries, items);
    ItemsGiven(c, items);
    if ProtocolOf(base.endpoint).Some? {
      var p := ProtocolOf(base.endpoint).value;
      AcceptedExactly(p, c, path.root, path.entries);
      if !IsBlank(previous) { assert PathRecorded(s, c, previous, base); }
      NothingTranslated(p, c, base.root);
      TranslateInDeltas(p, c, base.root, base.entries, items);
      BlankRoot(previous);
      if base.entries != [] { LaterSystem(p, c, base, items, previous); }
      if p.OpenRouter? { AppendedGiven(c, Translate(p, c, base.root, base.entries).value, items, base.root && base.entries == []); }
    }
  }

  /** A request goes to the provider exactly when its endpoint is supported and suits the rest of it, the endpoint's
      credential is there, a response it continues is one of the same endpoint and model with no more input than is now
      given, and the client accepts every item. */
  lemma SentExactly(s: State, environment: map<string, string>, c: Codec, paths: Paths, spec: Spec, input: seq<Item>, previous: string)
    requires Recorded(s, c, paths)
    ensures Begin(s, environment, c, spec, input, previous).1.Success? <==>
      && SuitsEndpoint(spec, Normalize(spec.endpoint))
      && HasCredential(Normalize(spec.endpoint), environment)
      && ContinuesPath(paths, spec, input, previous)
      && ClientAccepts(c, Extended(paths, spec, input, previous))
  {
    hide Prepared, ProtocolOf, SpecError, ClientError, Normalize, IsBlank, RequestDelta, ClientAccepts, SuitsEndpoint, Items, PathRecorded;
    SpecSuits(spec);
    CredentialThere(spec.endpoint, environment);
    DeltaTaken(s, c, paths, spec, input, previous);
    if ContinuesPath(paths, spec, input, previous) {
      DeltaOfBase(s, c, paths, spec, input, previous);
      ClientPrepares(s, c, paths, spec, previous, RequestDelta(s.states, spec, input, previous).value);
    }
  }
}
