/**
 The whole continuation protocol as one state machine: any number of chat bindings, council members asked for their
 votes, and direct callers over one executor, with requests in flight at the same time, failing, and branching from
 any earlier response.
 */
module Gateway {
  import opened Chat
  import opened ChatServer
  import opened Continuation
  import opened Conversations
  import opened Endpoints
  import opened Executor
  import opened Results
  import opened Text
  import opened VoteRequest

  // ---------- The protocol as a state machine ----------

  /** The chat request behind a call, if a binding made it. */
  datatype Turn = Turn(binding: nat, input: seq<Item>, messages: seq<ChatMessage>)

  datatype InFlight = InFlight(call: Call, path: Path, turn: Option<Turn>)

  datatype VotePhase = Idle | Asking(call: Call) | Over(vote: Option<Reply>)

  /** A council member being asked for its vote: the rejected rounds so far, and the variables of the loop. */
  datatype VoteCaller = VoteCaller(spec: Spec, input: seq<Item>, limit: nat, rounds: seq<Round>, all: seq<Item>, previous: string, phase: VotePhase)

  /** `paths` is bookkeeping for the proof: the procedures never look at it. */
  datatype World = World(exec: State, paths: Paths, bindings: seq<Binding>, calls: seq<InFlight>, votes: seq<VoteCaller>)

  datatype Event =
    | Bound(alias: string, spec: Spec)
    | ChatBegins(binding: nat, chat: ChatRequest)
    | CallBegins(spec: Spec, input: seq<Item>, previous: string)
    | CallEnds(call: nat, exchange: Exchange, recordWritten: bool)
    | VoteOpens(spec: Spec, input: seq<Item>, limit: nat)
    | VoteAsks(member: nat)
    | VoteAnswered(member: nat, exchange: Exchange, live: bool)

  datatype Setting = Setting(environment: map<string, string>, codec: Codec, parse: Parse, prompts: Prompts)

  /** A request enters its first critical section. */
  function Started(w: World, g: Setting, spec: Spec, input: seq<Item>, previous: string, turn: Option<Turn>): World {
    var (s, begun) := Begin(w.exec, g.environment, g.codec, spec, input, previous);
    if begun.Failure? || (!IsBlank(previous) && previous !in w.paths) then w.(exec := s)
    else w.(exec := s, calls := w.calls + [InFlight(begun.value, Extended(w.paths, spec, input, previous), turn)])
  }

  function Ended(w: World, k: nat, exchange: Exchange, recordWritten: bool): World
    requires k < |w.calls|
  {
    var flight := w.calls[k];
    var (s, answer) := Finish(w.exec, flight.call, exchange);
    var w' := w.(exec := s, paths := PathsAfter(w.paths, flight.path, exchange), calls := w.calls[..k] + w.calls[k + 1..]);
    if answer.Success? && recordWritten && flight.turn.Some? && flight.turn.value.binding < |w.bindings| then
      var t := flight.turn.value;
      w'.(bindings := w.bindings[t.binding := ChatAnswered(w.bindings[t.binding], t.input, t.messages, answer.value)])
    else w'
  }

  /** The next attempt of a council member's loop. */
  function VoteAsked(w: World, g: Setting, v: nat): World
    requires v < |w.votes|
  {
    var m := w.votes[v];
    if !m.phase.Idle? || |m.rounds| >= m.limit then w else
      var (s, begun) := Begin(w.exec, g.environment, g.codec, m.spec, m.all, m.previous);
      w.(exec := s, votes := w.votes[v := m.(phase := if begun.Success? then Asking(begun.value) else Over(None))])
  }

  /** The answer is the vote, or is rejected and repaired, or ends the attempts; `live` says whether the contexts are. */
  function VoteAfter(p: Prompts, m: VoteCaller, answer: Result<Reply, CallError>, live: bool): VoteCaller {
    if answer.Failure? || !live then m.(phase := Over(None))
    else if p.voteError(answer.value).None? then m.(phase := Over(Some(answer.value)))
    else
      var added := RepairItems(p, answer.value);
      if added.None? then m.(phase := Over(None))
      else m.(rounds := m.rounds + [Round(answer.value, added.value)], all := m.all + added.value, previous := answer.value.id, phase := Idle)
  }

  function VoteHeard(w: World, g: Setting, v: nat, exchange: Exchange, live: bool): World
    requires v < |w.votes|
  {
    var m := w.votes[v];
    if !m.phase.Asking? then w else
      var (s, answer) := Finish(w.exec, m.phase.call, exchange);
      w.(exec := s, paths := PathsAfter(w.paths, VotePath(m.spec, m.input, m.rounds), exchange),
         votes := w.votes[v := VoteAfter(g.prompts, m, answer, live)])
  }

  function Next(w: World, g: Setting, e: Event): World {
    match e
    case Bound(alias, spec) => w.(bindings := w.bindings + [Binding(alias, spec, [], "", [])])
    case ChatBegins(i, chat) =>
      if i >= |w.bindings| then w else
        var b := w.bindings[i];
        var input := ChatInput(b, g.parse, chat);
        if input.Failure? then w
        else Started(w, g, b.spec, input.value, b.previousResponseID, Some(Turn(i, input.value, chat.messages)))
    case CallBegins(spec, input, previous) => Started(w, g, spec, input, previous, None)
    case CallEnds(k, exchange, recordWritten) => if k < |w.calls| then Ended(w, k, exchange, recordWritten) else w
    case VoteOpens(spec, input, limit) => w.(votes := w.votes + [VoteCaller(spec, input, limit, [], input, "", Idle)])
    case VoteAsks(v) => if v < |w.votes| then VoteAsked(w, g, v) else w
    case VoteAnswered(v, exchange, live) => if v < |w.votes| then VoteHeard(w, g, v, exchange, live) else w
  }

  /** Providers give every response a fresh identifier. */
  predicate Admissible(w: World, e: Event) {
    e.CallEnds? || e.VoteAnswered? ==> Fresh(w.exec, e.exchange)
  }

  function After(w: World, g: Setting, events: seq<Event>): World {
    if events == [] then w else Next(After(w, g, events[..|events| - 1]), g, events[|events| - 1])
  }

  predicate AllAdmissible(w: World, g: Setting, events: seq<Event>) {
    events == [] ||
    (AllAdmissible(w, g, events[..|events| - 1]) && Admissible(After(w, g, events[..|events| - 1]), events[|events| - 1]))
  }

  const START := World(INITIAL, map[], [], [], [])

  // ---------- What holds in every reachable world ----------

  /** A binding stands for one conversation, rooted at a first request, in its own configuration. */
  ghost predicate BindingFollows(g: Setting, paths: Paths, b: Binding) {
    if b.previousResponseID == "" then b.inputItems == [] && b.expectedMessages == [] else
      && !IsBlank(b.previousResponseID) && b.previousResponseID in paths
      && var path := paths[b.previousResponseID];
         && path.root && path.endpoint == Normalize(b.spec.endpoint) && path.model == b.spec.model
         && Items(path.entries) == b.inputItems && Mirrors(g.parse, b.expectedMessages, path.entries)
  }

  ghost predicate TurnFollows(g: Setting, bindings: seq<Binding>, path: Path, t: Turn) {
    && t.binding < |bindings|
    && path.root && path.endpoint == Normalize(bindings[t.binding].spec.endpoint) && path.model == bindings[t.binding].spec.model
    && Items(path.entries) == t.input && Mirrors(g.parse, t.messages, path.entries)
  }

  ghost predicate FlightFollows(g: Setting, bindings: seq<Binding>, f: InFlight) {
    CallFor(g.codec, f.call, f.path) && (f.turn.Some? ==> TurnFollows(g, bindings, f.path, f.turn.value))
  }

  /** A council member's loop stands for its conversation, and what it has in flight carries that conversation. */
  ghost predicate VoteFollows(g: Setting, paths: Paths, m: VoteCaller) {
    && Stands(paths, m.spec, m.input, m.rounds, m.all, m.previous)
    && Rejected(g.prompts, m.rounds) && |m.rounds| <= m.limit
    && (m.phase.Asking? ==> |m.rounds| < m.limit && CallFor(g.codec, m.phase.call, VotePath(m.spec, m.input, m.rounds)))
  }

  ghost predicate Consistent(g: Setting, w: World) {
    && Recorded(w.exec, g.codec, w.paths)
    && (forall v :: 0 <= v < |w.votes| ==> VoteFollows(g, w.paths, w.votes[v]))
    && (forall i :: 0 <= i < |w.bindings| ==> BindingFollows(g, w.paths, w.bindings[i]))
    && (forall k :: 0 <= k < |w.calls| ==> FlightFollows(g, w.bindings, w.calls[k]))
  }

  /** A chat request continues its binding's path, and its whole history is what is sent. */
  lemma ChatFollows(g: Setting, w: World, i: nat, chat: ChatRequest)
    requires Consistent(g, w) && i < |w.bindings| && ChatInput(w.bindings[i], g.parse, chat).Success?
    ensures var b := w.bindings[i];
            var input := ChatInput(b, g.parse, chat).value;
            && (!IsBlank(b.previousResponseID) ==> b.previousResponseID in w.paths)
            && RequestDelta(w.exec.states, b.spec, input, b.previousResponseID).Success?
            && TurnFollows(g, w.bindings, Extended(w.paths, b.spec, input, b.previousResponseID), Turn(i, input, chat.messages))
  {
    hide ChatInput, RequestDelta, Mirrors, Items, Recorded, Normalize;
    var b := w.bindings[i];
    var input := ChatInput(b, g.parse, chat).value;
    assert BindingFollows(g, w.paths, b);
    BlankRoot(b.previousResponseID);
    NothingMirrored(g.parse);
    var base := Base(w.paths, b.spec, b.previousResponseID);
    AcceptedMirrors(b, g.parse, chat, base.entries);
    ExtensionAccepted(w.exec, g.codec, w.paths, b.spec, input, b.previousResponseID);
    var items := ChatItems(chat.messages[|base.entries|..]).value;
    assert input[|b.inputItems|..] == items;
    ItemsOfDelta(base.entries, items);
  }

  lemma NothingMirrored(parse: Parse)
    ensures Mirrors(parse, [], []) && Items([]) == []
  {
  }

  lemma StartedKeeps(g: Setting, w: World, spec: Spec, input: seq<Item>, previous: string, turn: Option<Turn>)
    requires Consistent(g, w)
    requires (turn.Some? && (!IsBlank(previous) ==> previous in w.paths)) ==>
      TurnFollows(g, w.bindings, Extended(w.paths, spec, input, previous), turn.value)
    ensures Consistent(g, Started(w, g, spec, input, previous, turn)) && Started(w, g, spec, input, previous, turn).paths == w.paths
    ensures forall id :: id in w.paths ==> Unchanged(w.exec, Started(w, g, spec, input, previous, turn).exec, id)
  {
    hide Begin, Extended, Recorded, BindingFollows, TurnFollows, VoteFollows, Unchanged, CallFor, IsBlank;
    BeginKeeps(w.exec, g.environment, g.codec, w.paths, spec, input, previous);
    if Begin(w.exec, g.environment, g.codec, spec, input, previous).1.Success? {
      BegunFor(w.exec, g.environment, g.codec, w.paths, spec, input, previous);
    }
  }

  lemma BindingStillFollows(g: Setting, paths: Paths, paths': Paths, b: Binding)
    requires BindingFollows(g, paths, b) && forall id :: id in paths ==> id in paths' && paths'[id] == paths[id]
    ensures BindingFollows(g, paths', b)
  {
  }

  /** An answered turn leaves its binding following the answered path. */
  lemma AnsweredFollows(g: Setting, paths: Paths, bindings: seq<Binding>, path: Path, t: Turn, reply: Reply)
    requires TurnFollows(g, bindings, path, t) && !IsBlank(reply.id)
    requires reply.id in paths && paths[reply.id] == Answered(path, reply)
    ensures BindingFollows(g, paths, ChatAnswered(bindings[t.binding], t.input, t.messages, reply))
  {
    hide Mirrors, Normalize;
    AnswerMirrors(g.parse, t.messages, path, reply);
    var all := Answered(path, reply).entries;
    assert all[..|all| - 1] == path.entries;
    BlankRoot(reply.id);
  }

  lemma EndedKeeps(g: Setting, w: World, k: nat, exchange: Exchange, recordWritten: bool)
    requires Consistent(g, w) && k < |w.calls| && Fresh(w.exec, exchange)
    ensures Consistent(g, Ended(w, k, exchange, recordWritten))
    ensures forall id :: id in w.paths ==> Unchanged(w.exec, Ended(w, k, exchange, recordWritten).exec, id)
  {
    hide Recorded, BindingFollows, TurnFollows, VoteFollows, Unchanged, Fresh, CallFor;
    var w', f := Ended(w, k, exchange, recordWritten), w.calls[k];
    assert FlightFollows(g, w.bindings, f);
    FinishRecords(w.exec, g.codec, w.paths, f.call, f.path, exchange);
    PathsStay(g, w, w.calls[k].path, exchange);
    assert forall i :: 0 <= i < |w.bindings| ==> w'.bindings[i].spec == w.bindings[i].spec;
    forall v | 0 <= v < |w'.votes| ensures VoteFollows(g, w'.paths, w'.votes[v]) { VoteStillFollows(g, w.paths, w'.paths, w.votes[v]); }
    forall i | 0 <= i < |w'.bindings| ensures BindingFollows(g, w'.paths, w'.bindings[i]) {
      BindingStillFollows(g, w.paths, w'.paths, w.bindings[i]);
      if w'.bindings[i] != w.bindings[i] {
        AnsweredFollows(g, w'.paths, w.bindings, f.path, f.turn.value, exchange.reply);
      }
    }
    forall j | 0 <= j < |w'.calls| ensures FlightFollows(g, w'.bindings, w'.calls[j]) {
      var j' := if j < k then j else j + 1;
      assert w'.calls[j] == w.calls[j'];
      assert FlightFollows(g, w.bindings, w.calls[j']);
      FlightStillFollows(g, w.bindings, w'.bindings, w.calls[j']);
    }
  }

  // ---------- Votes ----------

  lemma VoteStillFollows(g: Setting, paths: Paths, paths': Paths, m: VoteCaller)
    requires VoteFollows(g, paths, m) && forall id :: id in paths ==> id in paths' && paths'[id] == paths[id]
    ensures VoteFollows(g, paths', m)
  {
    hide Stands, Rejected, CallFor, VotePath;
    StillStands(paths, paths', m.spec, m.input, m.rounds, m.all, m.previous);
  }

  lemma VoteOpened(g: Setting, paths: Paths, spec: Spec, input: seq<Item>, limit: nat)
    ensures VoteFollows(g, paths, VoteCaller(spec, input, limit, [], input, "", Idle))
  {
    hide Extended, VotePath, Items;
    FirstPath(paths, spec, input);
    FirstItems(spec, input);
    BlankRoot("");
  }

  /** What a loop puts in flight carries its conversation. */
  lemma AskedFollows(g: Setting, w: World, m: VoteCaller)
    requires Recorded(w.exec, g.codec, w.paths) && VoteFollows(g, w.paths, m) && |m.rounds| < m.limit
    ensures var begun := Begin(w.exec, g.environment, g.codec, m.spec, m.all, m.previous).1;
            VoteFollows(g, w.paths, m.(phase := if begun.Success? then Asking(begun.value) else Over(None)))
  {
    hide Begin, Recorded, Extended, CallFor, Rejected, VotePath, Items, IsBlank;
    if Begin(w.exec, g.environment, g.codec, m.spec, m.all, m.previous).1.Success? {
      BegunFor(w.exec, g.environment, g.codec, w.paths, m.spec, m.all, m.previous);
    }
  }

  lemma VoteAskedKeeps(g: Setting, w: World, v: nat)
    requires Consistent(g, w) && v < |w.votes|
    ensures Consistent(g, VoteAsked(w, g, v)) && VoteAsked(w, g, v).paths == w.paths
    ensures forall id :: id in w.paths ==> Unchanged(w.exec, VoteAsked(w, g, v).exec, id)
  {
    hide Begin, Recorded, BindingFollows, FlightFollows, Unchanged, VoteFollows;
    var m := w.votes[v];
    assert VoteFollows(g, w.paths, m);
    if m.phase.Idle? && |m.rounds| < m.limit {
      BeginKeeps(w.exec, g.environment, g.codec, w.paths, m.spec, m.all, m.previous);
      AskedFollows(g, w, m);
    } else {
      forall id | id in w.paths ensures Unchanged(w.exec, w.exec, id) { RecordedUnchanged(g, w, id); }
    }
  }

  /** A rejected answer adds a round, and the loop stands for the longer conversation. */
  lemma RoundFollows(g: Setting, paths: Paths, m: VoteCaller, reply: Reply, live: bool)
    requires VoteFollows(g, paths, m) && m.phase.Asking? && !IsBlank(reply.id) && reply.id in paths
    requires paths[reply.id] == Answered(VotePath(m.spec, m.input, m.rounds), reply)
    ensures VoteFollows(g, paths, VoteAfter(g.prompts, m, Success(reply), live))
  {
    hide CallFor, RepairItems, VotePath, Items, Extended, IsBlank, Answered, Rejected;
    if live && g.prompts.voteError(reply).Some? && RepairItems(g.prompts, reply).Some? {
      var added := RepairItems(g.prompts, reply).value;
      RepairIs(g.prompts, m.rounds, reply, added);
      RoundDone(paths, m.spec, m.all + added, m.input, m.rounds, reply, added);
    }
  }

  lemma VoteHeardKeeps(g: Setting, w: World, v: nat, exchange: Exchange, live: bool)
    requires Consistent(g, w) && v < |w.votes| && Fresh(w.exec, exchange)
    ensures Consistent(g, VoteHeard(w, g, v, exchange, live))
    ensures forall id :: id in w.paths ==> Unchanged(w.exec, VoteHeard(w, g, v, exchange, live).exec, id)
    ensures forall id :: id in w.paths ==> id in VoteHeard(w, g, v, exchange, live).paths
    ensures forall id :: id in w.paths ==> VoteHeard(w, g, v, exchange, live).paths[id] == w.paths[id]
  {
    hide Recorded, BindingFollows, FlightFollows, Unchanged, Fresh, CallFor, Stands, Rejected, VoteAfter, VotePath, RepairItems;
    var w', m := VoteHeard(w, g, v, exchange, live), w.votes[v];
    assert VoteFollows(g, w.paths, m);
    if m.phase.Asking? {
      var path := VotePath(m.spec, m.input, m.rounds);
      FinishRecords(w.exec, g.codec, w.paths, m.phase.call, path, exchange);
      PathsStay(g, w, path, exchange);
      forall i | 0 <= i < |w'.bindings| ensures BindingFollows(g, w'.paths, w'.bindings[i]) {
        BindingStillFollows(g, w.paths, w'.paths, w.bindings[i]);
      }
      forall u | 0 <= u < |w'.votes| ensures VoteFollows(g, w'.paths, w'.votes[u]) {
        VoteStillFollows(g, w.paths, w'.paths, w.votes[u]);
        if u == v { VoteAfterFollows(g, w'.paths, m, Finish(w.exec, m.phase.call, exchange).1, live); }
      }
    } else {
      forall id | id in w.paths ensures Unchanged(w.exec, w.exec, id) { RecordedUnchanged(g, w, id); }
    }
  }

  lemma VoteAfterFollows(g: Setting, paths: Paths, m: VoteCaller, answer: Result<Reply, CallError>, live: bool)
    requires VoteFollows(g, paths, m) && m.phase.Asking?
    requires answer.Success? ==>
      && !IsBlank(answer.value.id) && answer.value.id in paths
      && paths[answer.value.id] == Answered(VotePath(m.spec, m.input, m.rounds), answer.value)
    ensures VoteFollows(g, paths, VoteAfter(g.prompts, m, answer, live))
  {
    hide CallFor, RepairItems, VotePath, Stands, IsBlank, Answered, Rejected;
    if answer.Success? { RoundFollows(g, paths, m, answer.value, live); }
  }

  lemma PathsStay(g: Setting, w: World, path: Path, exchange: Exchange)
    requires Consistent(g, w) && Fresh(w.exec, exchange)
    ensures forall id :: id in w.paths ==> id in PathsAfter(w.paths, path, exchange) && PathsAfter(w.paths, path, exchange)[id] == w.paths[id]
  {
    hide BindingFollows, FlightFollows, VoteFollows, IsBlank, Answered, PathRecorded;
  }

  lemma FlightStillFollows(g: Setting, bindings: seq<Binding>, bindings': seq<Binding>, f: InFlight)
    requires FlightFollows(g, bindings, f) && |bindings| <= |bindings'|
    requires forall i :: 0 <= i < |bindings| ==> bindings'[i].spec == bindings[i].spec
    ensures FlightFollows(g, bindings', f)
  {
  }

  lemma NextKeeps(g: Setting, w: World, e: Event)
    requires Consistent(g, w) && Admissible(w, e)
    ensures Consistent(g, Next(w, g, e))
    ensures forall id :: id in w.paths ==> Unchanged(w.exec, Next(w, g, e).exec, id)
    ensures forall id :: id in w.paths ==> id in Next(w, g, e).paths && Next(w, g, e).paths[id] == w.paths[id]
  {
    hide Recorded, BindingFollows, FlightFollows, VoteFollows, Unchanged, ChatInput, Begin, Finish, Fresh, Extended, TurnFollows, VoteAsked, VoteHeard, Started;
    forall id | id in w.paths ensures Unchanged(w.exec, w.exec, id) { RecordedUnchanged(g, w, id); }
    match e
    case Bound(alias, spec) =>
      var w' := Next(w, g, e);
      NewBindingFollows(g, w.paths, alias, spec);
      forall k | 0 <= k < |w'.calls| ensures FlightFollows(g, w'.bindings, w'.calls[k]) {
        FlightStillFollows(g, w.bindings, w'.bindings, w.calls[k]);
      }
    case ChatBegins(i, chat) =>
      if i < |w.bindings| {
        var b := w.bindings[i];
        var input := ChatInput(b, g.parse, chat);
        if input.Success? {
          ChatFollows(g, w, i, chat);
          StartedKeeps(g, w, b.spec, input.value, b.previousResponseID, Some(Turn(i, input.value, chat.messages)));
        }
      }
    case CallBegins(spec, input, previous) => StartedKeeps(g, w, spec, input, previous, None);
    case CallEnds(k, exchange, recordWritten) =>
      if k < |w.calls| {
        EndedKeeps(g, w, k, exchange, recordWritten);
        PathsStay(g, w, w.calls[k].path, exchange);
      }
    case VoteOpens(spec, input, limit) => VoteOpened(g, w.paths, spec, input, limit);
    case VoteAsks(v) => if v < |w.votes| { VoteAskedKeeps(g, w, v); }
    case VoteAnswered(v, exchange, live) => if v < |w.votes| { VoteHeardKeeps(g, w, v, exchange, live); }
  }

  lemma RecordedUnchanged(g: Setting, w: World, id: string)
    requires Consistent(g, w) && id in w.paths
    ensures Unchanged(w.exec, w.exec, id)
  {
    RecordedKnown(w.exec, g.codec, w.paths, id);
  }

  lemma NewBindingFollows(g: Setting, paths: Paths, alias: string, spec: Spec)
    ensures BindingFollows(g, paths, Binding(alias, spec, [], "", []))
  {
  }

  /** Every world reachable by any interleaving of any requests is consistent. */
  lemma {:induction false} Reachable(g: Setting, events: seq<Event>)
    requires AllAdmissible(START, g, events)
    ensures Consistent(g, After(START, g, events))
  {
    if events == [] {
      NothingRecorded(g.codec);
    } else {
      Reachable(g, events[..|events| - 1]);
      NextKeeps(g, After(START, g, events[..|events| - 1]), events[|events| - 1]);
    }
  }

  // ---------- The theorems about runs ----------

  /** In any reachable world, what an accepted chat request sends upstream is the one-shot translation of its
      whole history: the recorded path of its binding's last answer, which the client's messages repeat, and the new
      items. */
  lemma ChatSendsItsHistory(g: Setting, events: seq<Event>, i: nat, chat: ChatRequest) returns (h: seq<Entry>)
    requires AllAdmissible(START, g, events)
    requires var w := After(START, g, events);
             && i < |w.bindings| && ChatInput(w.bindings[i], g.parse, chat).Success?
             && Begin(w.exec, g.environment, g.codec, w.bindings[i].spec, ChatInput(w.bindings[i], g.parse, chat).value,
                      w.bindings[i].previousResponseID).1.Success?
    ensures var w := After(START, g, events);
            var b := w.bindings[i];
            var input := ChatInput(b, g.parse, chat).value;
            && Mirrors(g.parse, chat.messages, h) && Items(h) == input
            && (b.previousResponseID != "" ==> b.previousResponseID in w.paths)
            && h == (if b.previousResponseID == "" then [] else w.paths[b.previousResponseID].entries) + Inputs(NewItems(h))
            && var sent := Begin(w.exec, g.environment, g.codec, b.spec, input, b.previousResponseID).1.value.sent;
               Carries(g.codec, Path(Normalize(b.spec.endpoint), b.spec.model, true, h), sent)
  {
    hide ChatInput, Begin, Extended, Recorded, Mirrors, Items, Carries, Normalize;
    Reachable(g, events);
    var w := After(START, g, events);
    var b := w.bindings[i];
    var input := ChatInput(b, g.parse, chat).value;
    ChatFollows(g, w, i, chat);
    BeginCarries(w.exec, g.environment, g.codec, w.paths, b.spec, input, b.previousResponseID);
    h := Extended(w.paths, b.spec, input, b.previousResponseID).entries;
    assert BindingFollows(g, w.paths, b);
    BlankRoot(b.previousResponseID);
  }

  /** An accepted chat history is never refused as unknown, foreign or shortened by the executor. */
  lemma ChatContinuationAccepted(g: Setting, events: seq<Event>, i: nat, chat: ChatRequest)
    requires AllAdmissible(START, g, events)
    requires i < |After(START, g, events).bindings|
    requires ChatInput(After(START, g, events).bindings[i], g.parse, chat).Success?
    ensures var w := After(START, g, events);
            var b := w.bindings[i];
            RequestDelta(w.exec.states, b.spec, ChatInput(b, g.parse, chat).value, b.previousResponseID).Success?
  {
    hide ChatInput, RequestDelta, Extended, TurnFollows, Consistent;
    Reachable(g, events);
    ChatFollows(g, After(START, g, events), i, chat);
  }

  /** A conversation stored at any time is stored unchanged for ever after, whatever fails or branches. */
  lemma {:induction false} StoredForEver(g: Setting, earlier: seq<Event>, later: seq<Event>, id: string)
    requires AllAdmissible(START, g, earlier + later) && AllAdmissible(START, g, earlier)
    requires id in After(START, g, earlier).paths
    ensures var w, w' := After(START, g, earlier), After(START, g, earlier + later);
            && id in w'.paths && w'.paths[id] == w.paths[id] && StoredAlike(w.exec, w'.exec, w.paths[id].endpoint, id)
  {
    hide Next, AllAdmissible, Admissible, Consistent, StoredAlike, Unchanged;
    var all := earlier + later;
    Reachable(g, earlier);
    if later == [] {
      assert all == earlier;
      AlikeItself(g, After(START, g, earlier), id);
    } else {
      var front := later[..|later| - 1];
      assert all[..|all| - 1] == earlier + front && all[|all| - 1] == later[|later| - 1];
      LastAdmissible(g, all);
      StoredForEver(g, earlier, front, id);
      Reachable(g, earlier + front);
      var w, w1 := After(START, g, earlier), After(START, g, earlier + front);
      NextKeeps(g, w1, later[|later| - 1]);
      AlikeAfter(g, w, w1, Next(w1, g, later[|later| - 1]), id);
    }
  }

  lemma LastAdmissible(g: Setting, events: seq<Event>)
    requires AllAdmissible(START, g, events) && events != []
    ensures AllAdmissible(START, g, events[..|events| - 1])
    ensures Admissible(After(START, g, events[..|events| - 1]), events[|events| - 1])
  {
  }

  /** The response table has the same entry, and the endpoint's client the same conversation, if any. */
  predicate StoredAlike(s: State, s': State, endpoint: string, id: string) {
    && id in s.states && id in s'.states && s'.states[id] == s.states[id] && s.states[id].endpoint == endpoint
    && (endpoint in s.conversations && id in s.conversations[endpoint] ==>
        endpoint in s'.conversations && id in s'.conversations[endpoint] &&
        s'.conversations[endpoint][id] == s.conversations[endpoint][id])
  }

  lemma AlikeItself(g: Setting, w: World, id: string)
    requires Consistent(g, w) && id in w.paths
    ensures StoredAlike(w.exec, w.exec, w.paths[id].endpoint, id)
  {
    assert PathRecorded(w.exec, g.codec, id, w.paths[id]);
  }

  lemma AlikeAfter(g: Setting, w: World, w1: World, w2: World, id: string)
    requires Consistent(g, w1) && id in w.paths && id in w1.paths
    requires StoredAlike(w.exec, w1.exec, w.paths[id].endpoint, id) && Unchanged(w1.exec, w2.exec, id)
    ensures StoredAlike(w.exec, w2.exec, w.paths[id].endpoint, id)
  {
  }

  /** In any reachable world, what a council member's loop sends next is the one-shot translation of its whole
      conversation, every rejected reply answered in full, whoever else was served in between; and the executor never
      refuses the continuation as unknown, foreign or shortened. */
  lemma VoteSendsItsHistory(g: Setting, events: seq<Event>, v: nat)
    requires AllAdmissible(START, g, events) && v < |After(START, g, events).votes|
    ensures var w := After(START, g, events);
            var m := w.votes[v];
            var begun := Begin(w.exec, g.environment, g.codec, m.spec, m.all, m.previous).1;
            && Rejected(g.prompts, m.rounds) && |m.rounds| <= m.limit
            && RequestDelta(w.exec.states, m.spec, m.all, m.previous).Success?
            && (begun.Success? ==> Carries(g.codec, VotePath(m.spec, m.input, m.rounds), begun.value.sent))
            && (m.phase.Asking? ==> Carries(g.codec, VotePath(m.spec, m.input, m.rounds), m.phase.call.sent))
  {
    hide Begin, Extended, Recorded, Rejected, Carries, VotePath, RequestDelta, After, AllAdmissible, BindingFollows, FlightFollows;
    Reachable(g, events);
    var w := After(START, g, events);
    var m := w.votes[v];
    assert VoteFollows(g, w.paths, m);
    StandingAccepted(w.exec, g.codec, w.paths, m.spec, m.input, m.rounds, m.all, m.previous);
    if Begin(w.exec, g.environment, g.codec, m.spec, m.all, m.previous).1.Success? {
      BeginCarries(w.exec, g.environment, g.codec, w.paths, m.spec, m.all, m.previous);
    }
  }

  /** The conversation that an endpoint's client has stored under a response. */
  function Recalled(s: State, endpoint: string, id: string): Option<Conversation> {
    if endpoint in s.conversations && id in s.conversations[endpoint] then Some(s.conversations[endpoint][id]) else None
  }

  /** A call that fails, even one that was answered without a response identifier, leaves every response, path and
      binding as it was, and every conversation that a request could continue; and no round is added to a vote. */
  lemma FailureChangesNothing(g: Setting, w: World, e: Event)
    requires (e.CallEnds? && e.call < |w.calls|) || (e.VoteAnswered? && e.member < |w.votes|)
    requires e.exchange.Answer? ==> IsBlank(e.exchange.reply.id)
    ensures var w' := Next(w, g, e);
            && w'.bindings == w.bindings && w'.paths == w.paths && w'.exec.states == w.exec.states
            && (e.exchange.NoReply? ==> w'.exec == w.exec)
            && (forall endpoint, id :: !IsBlank(id) ==> Recalled(w'.exec, endpoint, id) == Recalled(w.exec, endpoint, id))
            && |w'.votes| == |w.votes| && forall v :: 0 <= v < |w.votes| ==> w'.votes[v].rounds == w.votes[v].rounds
  {
    hide IsBlank, ProtocolOf, RepairItems, WithReply, VotePath;
  }

  /** A chat request that its binding cannot answer changes nothing at all; only an answerable one reaches a provider. */
  lemma RefusalChangesNothing(g: Setting, w: World, i: nat, chat: ChatRequest)
    requires i < |w.bindings|
    ensures !Answerable(w.bindings[i], g.parse, chat) ==> Next(w, g, ChatBegins(i, chat)) == w
    ensures Next(w, g, ChatBegins(i, chat)).calls != w.calls ==> Answerable(w.bindings[i], g.parse, chat)
  {
    hide Answerable, ChatInput, Started;
    AnswerableExactly(w.bindings[i], g.parse, chat);
  }

  // ---------- What an answer leads to ----------

  /** An answered call is done, and its path goes on with the reply under the reply's identifier. If it was a chat request
      whose record could be written, its binding goes on from there: with the request's input, the reply's identifier,
      and the request's messages followed by the assistant's; nothing else changes. */
  lemma AnswerMovesOn(g: Setting, w: World, k: nat, reply: Reply, recordWritten: bool)
    requires k < |w.calls| && !IsBlank(reply.id)
    ensures var w', flight := Next(w, g, CallEnds(k, Answer(reply), recordWritten)), w.calls[k];
            var moves := recordWritten && flight.turn.Some? && flight.turn.value.binding < |w.bindings|;
            && w'.calls == w.calls[..k] + w.calls[k + 1..] && w'.votes == w.votes
            && reply.id in w'.paths && w'.paths[reply.id] == flight.path.(entries := flight.path.entries + [Replied(reply)])
            && (forall id :: id != reply.id ==> (id in w'.paths <==> id in w.paths) && (id in w.paths ==> w'.paths[id] == w.paths[id]))
            && |w'.bindings| == |w.bindings|
            && forall b :: 0 <= b < |w.bindings| ==>
                 if moves && b == flight.turn.value.binding then
                   MovedOn(w.bindings[b], w'.bindings[b], flight.turn.value.input, flight.turn.value.messages, reply)
                 else w'.bindings[b] == w.bindings[b]
  {
    hide IsBlank, AssistantMessage, Kept, Opened, ProtocolOf;
  }

  predicate MovedOn(b: Binding, b': Binding, input: seq<Item>, messages: seq<ChatMessage>, reply: Reply) {
    && b'.alias == b.alias && b'.spec == b.spec && b'.inputItems == input && b'.previousResponseID == reply.id
    && b'.expectedMessages == messages + [AssistantMessage(reply)]
  }

  /** A member's request ends with a vote exactly when an answer with an identifier comes while its contexts live and is a
      vote, and goes on exactly when such an answer is not one but can be repaired. */
  lemma VoteEnds(g: Setting, w: World, v: nat, exchange: Exchange, live: bool)
    requires v < |w.votes| && w.votes[v].phase.Asking?
    ensures var m, m' := w.votes[v], Next(w, g, VoteAnswered(v, exchange, live)).votes[v];
            var answered := exchange.Answer? && !IsBlank(exchange.reply.id) && live;
            var reason := if answered then g.prompts.voteError(exchange.reply) else None;
            && (m'.phase.Over? && m'.phase.vote.Some? <==> answered && reason.None?)
            && (answered && reason.None? ==> m'.phase.vote == Some(exchange.reply))
            && (m'.phase.Idle? <==> answered && reason.Some? && RepairItems(g.prompts, exchange.reply).Some?)
            && (m'.phase.Idle? ==>
                 && m'.rounds == m.rounds + [Round(exchange.reply, RepairItems(g.prompts, exchange.reply).value)]
                 && m'.all == m.all + RepairItems(g.prompts, exchange.reply).value && m'.previous == exchange.reply.id)
            && (m'.phase.Over? ==> m'.rounds == m.rounds)
  {
    hide IsBlank, RepairItems, Kept, Opened, ProtocolOf;
  }
}
