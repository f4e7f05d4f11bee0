/**
 Asking a council member for its vote (requestVote in quick/council.go): an answer that is not a vote is
 rejected, its tool calls are answered, a repair message is added, and the conversation continues.
 */
module VoteRequest {
  import opened Continuation
  import opened Conversations
  import opened Executor
  import opened Results
  import opened Text

  /** What is asked of the outside: reading a vote out of a reply, the repair prompt, and the JSON text that
      tells a rejected tool call why. */
  datatype Prompts = Prompts(
    voteError: Reply -> Option<string>,
    repair: string -> Option<string>,
    rejection: (string, string) -> string)

  /** The contexts of the run and of this request. */
  datatype Context = Live | RunCancelled | DeadlinePassed | OtherCause

  datatype VoteResult = Vote(reply: Reply) | Deadline | RequestFailed(error: CallError) | AttemptsExhausted
    | RunEnded | NoRepairPrompt | CallWithoutID

  /** A rejected reply and the items added after it. */
  datatype Round = Round(reply: Reply, added: seq<Item>)

  /** The outputs that answer every tool call of a rejected reply. */
  function RejectedOutputs(p: Prompts, calls: seq<ToolCall>, reason: string): Option<seq<Item>> {
    if calls == [] then Some([]) else
      var front, call := RejectedOutputs(p, calls[..|calls| - 1], reason), calls[|calls| - 1];
      if front.None? || IsBlank(call.callID) then None
      else Some(front.value + [ToolOutput(call.callID, p.rejection(call.name, reason))])
  }

  /** What is added after a reply that is not a vote. */
  function RepairItems(p: Prompts, reply: Reply): Option<seq<Item>> {
    var reason := p.voteError(reply);
    if reason.None? || p.repair(reason.value).None? || RejectedOutputs(p, reply.calls, reason.value).None? then None
    else Some(RejectedOutputs(p, reply.calls, reason.value).value + [Message("user", PlainText(p.repair(reason.value).value))])
  }

  lemma {:induction false} OutputsAnswer(p: Prompts, calls: seq<ToolCall>, reason: string)
    ensures RejectedOutputs(p, calls, reason).Some? <==> forall i :: 0 <= i < |calls| ==> !IsBlank(calls[i].callID)
    ensures RejectedOutputs(p, calls, reason).Some? ==>
      && |RejectedOutputs(p, calls, reason).value| == |calls|
      && forall i :: 0 <= i < |calls| ==>
           RejectedOutputs(p, calls, reason).value[i] == ToolOutput(calls[i].callID, p.rejection(calls[i].name, reason))
  {
    hide IsBlank;
    if calls != [] { OutputsAnswer(p, calls[..|calls| - 1], reason); }
  }

  /** A rejected reply is followed by one output for each of its calls, in order, under the call's identifier and telling
      the tool why it was rejected, and then by the user's repair prompt for the same reason. This fails exactly for a
      reply that is a vote, without a prompt, or with a call that has no identifier. */
  lemma RepairSays(p: Prompts, reply: Reply)
    ensures RepairItems(p, reply).Some? <==>
      && p.voteError(reply).Some? && p.repair(p.voteError(reply).value).Some?
      && forall i :: 0 <= i < |reply.calls| ==> !IsBlank(reply.calls[i].callID)
    ensures RepairItems(p, reply).Some? ==>
      var added, reason, n := RepairItems(p, reply).value, p.voteError(reply).value, |reply.calls|;
      && |added| == n + 1
      && (forall i :: 0 <= i < n ==> added[i] == ToolOutput(reply.calls[i].callID, p.rejection(reply.calls[i].name, reason)))
      && added[n] == Message("user", PlainText(p.repair(reason).value))
  {
    hide IsBlank, RejectedOutputs;
    if p.voteError(reply).Some? { OutputsAnswer(p, reply.calls, p.voteError(reply).value); }
  }

  /** The whole conversation after some rejected rounds. */
  function VoteHistory(input: seq<Item>, rounds: seq<Round>): seq<Entry> {
    if rounds == [] then Inputs(input) else
      var last := rounds[|rounds| - 1];
      VoteHistory(input, rounds[..|rounds| - 1]) + [Replied(last.reply)] + Inputs(last.added)
  }

  function VotePath(spec: Spec, input: seq<Item>, rounds: seq<Round>): Path {
    Path(Normalize(spec.endpoint), spec.model, true, VoteHistory(input, rounds))
  }

  /** Every round is a rejected reply, answered in full. */
  predicate Rejected(p: Prompts, rounds: seq<Round>) {
    forall k :: 0 <= k < |rounds| ==> p.voteError(rounds[k].reply).Some? && RepairItems(p, rounds[k].reply) == Some(rounds[k].added)
  }

  /** From round k on, replies have identifiers not seen before. */
  ghost predicate FreshFrom(s: State, upstream: nat -> Sent -> Exchange, k: nat) {
    forall i, sent :: k <= i ==> Fresh(s, upstream(i)(sent))
  }

  ghost predicate DistinctReplies(upstream: nat -> Sent -> Exchange) {
    forall i, j, a, b :: i < j && upstream(i)(a).Answer? && upstream(j)(b).Answer? ==> upstream(i)(a).reply.id != upstream(j)(b).reply.id
  }

  /** The conversation before any answer. */
  lemma FirstPath(paths: Paths, spec: Spec, input: seq<Item>)
    ensures Extended(paths, spec, input, "") == VotePath(spec, input, [])
  {
    assert input[0..] == input;
  }

  /** The next request continues the answered path by exactly the items just added. */
  lemma NextPath(paths: Paths, spec: Spec, all: seq<Item>, input: seq<Item>, rounds: seq<Round>)
    requires rounds != [] && var last := rounds[|rounds| - 1];
      && !IsBlank(last.reply.id) && last.reply.id in paths
      && paths[last.reply.id] == Answered(VotePath(spec, input, rounds[..|rounds| - 1]), last.reply)
      && all == Items(paths[last.reply.id].entries) + last.added
    ensures Extended(paths, spec, all, rounds[|rounds| - 1].reply.id) == VotePath(spec, input, rounds)
  {
    hide Items, Normalize;
    var last := rounds[|rounds| - 1];
    var base := paths[last.reply.id];
    assert all[|Items(base.entries)|..] == last.added;
  }

  lemma ItemsAfter(path: Path, reply: Reply, added: seq<Item>)
    ensures Items(Answered(path, reply).entries) == Items(path.entries)
    ensures Items(path.entries + [Replied(reply)] + Inputs(added)) == Items(path.entries) + added
  {
    var all := Answered(path, reply).entries;
    assert all[..|all| - 1] == path.entries;
    ItemsOfDelta(all, added);
  }

  /** After an answered round the next one still gets fresh identifiers. */
  lemma StillFresh(s: State, s': State, upstream: nat -> Sent -> Exchange, k: nat, sent: Sent)
    requires FreshFrom(s, upstream, k) && DistinctReplies(upstream) && upstream(k)(sent).Answer?
    requires s'.states.Keys == s.states.Keys + {upstream(k)(sent).reply.id}
    ensures FreshFrom(s', upstream, k + 1)
  {
    forall i, other | k + 1 <= i ensures Fresh(s', upstream(i)(other)) {
      assert Fresh(s, upstream(i)(other));
    }
  }

  lemma RecordedKeys(s: State, c: Codec, paths: Paths)
    requires Recorded(s, c, paths)
    ensures s.states.Keys == paths.Keys
  {
  }

  /** The caller's variables stand for the conversation after the rejected rounds. */
  predicate Stands(paths: Paths, spec: Spec, input: seq<Item>, rounds: seq<Round>, all: seq<Item>, previous: string) {
    && (!IsBlank(previous) ==> previous in paths)
    && Extended(paths, spec, all, previous) == VotePath(spec, input, rounds)
    && all == Items(VotePath(spec, input, rounds).entries)
  }

  ghost predicate Continues(s: State, c: Codec, paths: Paths, spec: Spec, input: seq<Item>, rounds: seq<Round>, all: seq<Item>, previous: string) {
    Recorded(s, c, paths) && Stands(paths, spec, input, rounds, all, previous)
  }

  /** Whatever others do in between: as long as recorded paths stay, so does what the caller stands for. */
  lemma StillStands(paths: Paths, paths': Paths, spec: Spec, input: seq<Item>, rounds: seq<Round>, all: seq<Item>, previous: string)
    requires Stands(paths, spec, input, rounds, all, previous)
    requires forall id :: id in paths ==> id in paths' && paths'[id] == paths[id]
    ensures Stands(paths', spec, input, rounds, all, previous)
  {
    hide IsBlank, Items, Normalize, VoteHistory;
  }

  /** What a standing caller asks next is an extension of its own path, which the executor accepts. */
  lemma StandingAccepted(s: State, c: Codec, paths: Paths, spec: Spec, input: seq<Item>, rounds: seq<Round>, all: seq<Item>, previous: string)
    requires Continues(s, c, paths, spec, input, rounds, all, previous)
    ensures RequestDelta(s.states, spec, all, previous).Success?
  {
    hide IsBlank, Items, Recorded, Normalize, VoteHistory, RequestDelta;
    var base := Base(paths, spec, previous);
    var delta := if |Items(base.entries)| <= |all| then all[|Items(base.entries)|..] else [];
    ItemsOfDelta(base.entries, delta);
    ExtensionAccepted(s, c, paths, spec, all, previous);
  }

  /** Every request sent so far carried the conversation of the rounds before it. */
  ghost predicate Carried(c: Codec, spec: Spec, input: seq<Item>, rounds: seq<Round>, requests: seq<Option<Sent>>) {
    && |rounds| <= |requests| <= |rounds| + 1
    && forall k :: 0 <= k < |requests| && requests[k].Some? ==> Carries(c, VotePath(spec, input, rounds[..k]), requests[k].value)
  }

  lemma OneMoreCarried(c: Codec, spec: Spec, input: seq<Item>, rounds: seq<Round>, requests: seq<Option<Sent>>, sent: Option<Sent>)
    requires Carried(c, spec, input, rounds, requests) && |requests| == |rounds|
    requires sent.Some? ==> Carries(c, VotePath(spec, input, rounds), sent.value)
    ensures Carried(c, spec, input, rounds, requests + [sent])
    ensures forall round :: Carried(c, spec, input, rounds + [round], requests + [sent])
  {
    hide Carries, VotePath;
    assert rounds[..|rounds|] == rounds;
    forall round ensures Carried(c, spec, input, rounds + [round], requests + [sent]) {
      forall k | 0 <= k < |requests| + 1 ensures (rounds + [round])[..k] == rounds[..k] { }
    }
  }

  /** Every rejected reply is what the provider answered to the request of its round. */
  ghost predicate AnsweredBy(upstream: nat -> Sent -> Exchange, rounds: seq<Round>, requests: seq<Option<Sent>>) {
    && |rounds| <= |requests|
    && forall k :: 0 <= k < |rounds| ==> requests[k].Some? && upstream(k)(requests[k].value) == Answer(rounds[k].reply)
  }

  lemma OneMoreAnswered(upstream: nat -> Sent -> Exchange, rounds: seq<Round>, requests: seq<Option<Sent>>, sent: Option<Sent>)
    requires AnsweredBy(upstream, rounds, requests) && |requests| == |rounds|
    ensures AnsweredBy(upstream, rounds, requests + [sent])
    ensures forall round: Round :: sent.Some? && upstream(|rounds|)(sent.value) == Answer(round.reply) ==> AnsweredBy(upstream, rounds + [round], requests + [sent])
  {
  }

  lemma NoneAnswered(upstream: nat -> Sent -> Exchange)
    ensures AnsweredBy(upstream, [], [])
  {
  }

  /** How a vote request may end, given the rounds it went through. */
  ghost predicate EndsRightly(p: Prompts, upstream: nat -> Sent -> Exchange, context: nat -> Context, timeout: CallError -> bool,
                        limit: nat, rounds: seq<Round>, requests: seq<Option<Sent>>, r: VoteResult) {
    var last := |rounds|;
    var answer := if |requests| == last + 1 && requests[last].Some? then upstream(last)(requests[last].value) else NoReply("");
    match r
    case Vote(reply) => |requests| == last + 1 && answer == Answer(reply) && p.voteError(reply).None?
    case AttemptsExhausted => last == limit == |requests|
    case RequestFailed(error) => |requests| == last + 1 && !timeout(error) && (answer.NoReply? || IsBlank(answer.reply.id))
    case NoRepairPrompt => answer.Answer? && p.voteError(answer.reply).Some? && p.repair(p.voteError(answer.reply).value).None?
    case CallWithoutID => answer.Answer? && p.voteError(answer.reply).Some?
      && RejectedOutputs(p, answer.reply.calls, p.voteError(answer.reply).value).None?
    case Deadline => (exists t :: context(t).DeadlinePassed?) || (exists e :: timeout(e))
    case RunEnded => exists t :: context(t).RunCancelled? || context(t).OtherCause?
  }

  /** One request of the conversation. */
  method Ask(e: ModelExecutor, c: Codec, spec: Spec, all: seq<Item>, previous: string, upstream: Sent -> Exchange,
             ghost known: Paths, ghost input: seq<Item>, ghost rounds: seq<Round>)
    returns (answer: Result<Reply, CallError>, ghost sent: Option<Sent>, ghost paths: Paths)
    requires e.Valid() && Continues(e.View(), c, known, spec, input, rounds, all, previous) && FreshUpstream(e.View(), upstream)
    modifies e, e.clients.Values
    ensures e.Valid() && fresh(e.clients.Values - old(e.clients.Values)) && Recorded(e.View(), c, paths)
    ensures sent.Some? ==> Carries(c, VotePath(spec, input, rounds), sent.value)
    ensures answer.Success? ==>
      && sent.Some? && upstream(sent.value) == Answer(answer.value) && !IsBlank(answer.value.id)
      && paths == known[answer.value.id := Answered(VotePath(spec, input, rounds), answer.value)]
    ensures answer.Success? ==> e.View().states.Keys == old(e.View()).states.Keys + {answer.value.id}
    ensures answer.Failure? ==> sent.None? || upstream(sent.value).NoReply? || IsBlank(upstream(sent.value).reply.id)
  {
    hide Extended, Carries, Recorded, VotePath, Answered, IsBlank, FreshUpstream, Begin, Opened, Kept;
    ghost var before := e.View();
    answer, sent := e.CreateResponse(c, spec, all, previous, upstream);
    paths := CallStepCarries(before, e.environment, c, known, spec, all, previous, upstream);
    RecordedKeys(before, c, known);
    RecordedKeys(e.View(), c, paths);
  }

  /** The answers to the calls of a rejected reply, and the repair message. */
  method Repair(p: Prompts, reply: Reply, reason: string) returns (failed: Option<VoteResult>, added: seq<Item>)
    requires p.voteError(reply) == Some(reason)
    ensures match failed
            case None => RepairItems(p, reply) == Some(added)
            case Some(r) => (r == NoRepairPrompt && p.repair(reason).None?) || (r == CallWithoutID && RejectedOutputs(p, reply.calls, reason).None?)
  {
    var repair := p.repair(reason);
    if repair.None? { return Some(NoRepairPrompt), []; }
    var outputs := RejectedOutputs(p, reply.calls, reason);
    if outputs.None? { return Some(CallWithoutID), []; }
    return None, outputs.value + [Message("user", PlainText(repair.value))];
  }

  /** A request that asks again after each rejected answer, at most `limit` times. */
  method RequestVote(e: ModelExecutor, c: Codec, spec: Spec, input: seq<Item>, limit: nat, p: Prompts, timeout: CallError -> bool,
                     upstream: nat -> Sent -> Exchange, context: nat -> Context, ghost known: Paths)
    returns (r: VoteResult, ghost rounds: seq<Round>, ghost requests: seq<Option<Sent>>, ghost paths: Paths)
    requires e.Valid() && Recorded(e.View(), c, known) && FreshFrom(e.View(), upstream, 0) && DistinctReplies(upstream)
    modifies e, e.clients.Values
    ensures e.Valid() && Recorded(e.View(), c, paths)
    ensures |requests| <= limit && Rejected(p, rounds)
    // Every request carries the whole conversation so far, although only the new items are passed on.
    ensures Carried(c, spec, input, rounds, requests)
    ensures AnsweredBy(upstream, rounds, requests)
    ensures EndsRightly(p, upstream, context, timeout, limit, rounds, requests, r)
  {
    hide Continues, Carried, Recorded, Carries, RepairItems, IsBlank, FreshFrom, DistinctReplies, FreshUpstream, RejectedOutputs,
         VotePath, Answered, ModelExecutor.Valid, ModelExecutor.View, Rejected, AnsweredBy;
    var all, previous, attempt, looks := input, "", 0, 0;
    rounds, requests, paths := [], [], known;
    FirstContinues(e.View(), c, known, spec, input);
    NoneRejected(p);
    NoneAnswered(upstream);
    while attempt < limit
      invariant attempt <= limit && |rounds| == |requests| == attempt && e.Valid()
      invariant fresh(e.clients.Values - old(e.clients.Values))
      invariant Continues(e.View(), c, paths, spec, input, rounds, all, previous) && FreshFrom(e.View(), upstream, attempt)
      invariant Rejected(p, rounds) && Carried(c, spec, input, rounds, requests) && AnsweredBy(upstream, rounds, requests)
      decreases limit - attempt
    {
      ghost var before, known', previous' := e.View(), paths, previous;
      FreshNow(before, upstream, attempt);
      var answer;
      ghost var sent;
      answer, sent, paths := Ask(e, c, spec, all, previous, upstream(attempt), paths, input, rounds);
      OneMoreCarried(c, spec, input, rounds, requests, sent);
      OneMoreAnswered(upstream, rounds, requests, sent);
      requests, looks := requests + [sent], looks + 1;
      var broken := Ended(context(looks));
      if broken.Some? { return broken.value, rounds, requests, paths; }
      if answer.Failure? { return if timeout(answer.error) then Deadline else RequestFailed(answer.error), rounds, requests, paths; }
      previous := answer.value.id;
      var reason := p.voteError(answer.value);
      if reason.None? {
        looks := looks + 1;
        broken := Ended(context(looks));
        return if broken.Some? then broken.value else Vote(answer.value), rounds, requests, paths;
      }
      var failed, added := Repair(p, answer.value, reason.value);
      if failed.Some? { return failed.value, rounds, requests, paths; }
      RepairIs(p, rounds, answer.value, added);
      StillFresh(before, e.View(), upstream, attempt, sent.value);
      ContinuesItems(before, c, known', spec, input, rounds, all, previous');
      NextContinues(e.View(), c, paths, spec, input, rounds, all, answer.value, added);
      all := all + added;
      rounds, attempt := rounds + [Round(answer.value, added)], attempt + 1;
    }
    ContinuesRecorded(e.View(), c, paths, spec, input, rounds, all, previous);
    looks := looks + 1;
    var broken := Ended(context(looks));
    r := if broken.Some? then broken.value else AttemptsExhausted;
  }

  /** How the request ends when its context does. */
  function Ended(context: Context): Option<VoteResult> {
    match context
    case Live => None
    case DeadlinePassed => Some(Deadline)
    case _ => Some(RunEnded)
  }

  lemma NoneRejected(p: Prompts)
    ensures Rejected(p, [])
  {
  }

  lemma FirstContinues(s: State, c: Codec, paths: Paths, spec: Spec, input: seq<Item>)
    requires Recorded(s, c, paths)
    ensures Continues(s, c, paths, spec, input, [], input, "") && Carried(c, spec, input, [], [])
  {
    hide Recorded, Carries;
    FirstPath(paths, spec, input);
    FirstItems(spec, input);
    BlankRoot("");
  }

  lemma ContinuesItems(s: State, c: Codec, paths: Paths, spec: Spec, input: seq<Item>, rounds: seq<Round>, all: seq<Item>, previous: string)
    requires Continues(s, c, paths, spec, input, rounds, all, previous)
    ensures all == Items(VotePath(spec, input, rounds).entries)
  {
  }

  lemma ContinuesRecorded(s: State, c: Codec, paths: Paths, spec: Spec, input: seq<Item>, rounds: seq<Round>, all: seq<Item>, previous: string)
    requires Continues(s, c, paths, spec, input, rounds, all, previous)
    ensures Recorded(s, c, paths)
  {
  }

  lemma NextContinues(s: State, c: Codec, paths: Paths, spec: Spec, input: seq<Item>, rounds: seq<Round>, all: seq<Item>,
                      reply: Reply, added: seq<Item>)
    requires Recorded(s, c, paths) && !IsBlank(reply.id) && reply.id in paths
    requires paths[reply.id] == Answered(VotePath(spec, input, rounds), reply)
    requires all == Items(VotePath(spec, input, rounds).entries)
    ensures Continues(s, c, paths, spec, input, rounds + [Round(reply, added)], all + added, reply.id)
  {
    hide Recorded, Answered, VotePath, Items, Extended;
    RoundDone(paths, spec, all + added, input, rounds, reply, added);
  }

  lemma FirstItems(spec: Spec, input: seq<Item>)
    ensures Items(VotePath(spec, input, []).entries) == input
  {
    ItemsOfDelta([], input);
    assert [] + Inputs(input) == Inputs(input);
  }

  lemma FreshNow(s: State, upstream: nat -> Sent -> Exchange, k: nat)
    requires FreshFrom(s, upstream, k)
    ensures FreshUpstream(s, upstream(k))
  {
  }

  lemma RepairIs(p: Prompts, rounds: seq<Round>, reply: Reply, added: seq<Item>)
    requires p.voteError(reply).Some? && RepairItems(p, reply) == Some(added) && Rejected(p, rounds)
    ensures Rejected(p, rounds + [Round(reply, added)])
  {
  }

  lemma RoundDone(paths: Paths, spec: Spec, all: seq<Item>, input: seq<Item>, rounds: seq<Round>, reply: Reply, added: seq<Item>)
    requires !IsBlank(reply.id) && reply.id in paths
    requires paths[reply.id] == Answered(VotePath(spec, input, rounds), reply)
    requires all == Items(VotePath(spec, input, rounds).entries) + added
    ensures Extended(paths, spec, all, reply.id) == VotePath(spec, input, rounds + [Round(reply, added)])
    ensures all == Items(VotePath(spec, input, rounds + [Round(reply, added)]).entries)
  {
    hide Items, Normalize, Extended, IsBlank;
    var rounds' := rounds + [Round(reply, added)];
    assert rounds'[..|rounds'| - 1] == rounds;
    ItemsAfter(VotePath(spec, input, rounds), reply, added);
    NextPath(paths, spec, all, input, rounds');
  }
}
