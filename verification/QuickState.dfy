/**
 The shared state of a quick procedure (quick/run.go, quick/lawyerapi.go): lawyer turns, the transcript and
 event records, and the requests waiting for a change. Every function here is one region executed under the
 runner's lock.
 */
module QuickState {
  import opened Results
  import opened Text

  datatype Config = Config(size: nat, required: nat, attemptLimit: nat, maxArgumentChars: nat, timeout: nat)

  /** What option checking requires of a configuration. */
  predicate Acceptable(cfg: Config) {
    0 < cfg.size && cfg.size / 2 < cfg.required <= cfg.size && 0 < cfg.attemptLimit && 0 < cfg.timeout
  }

  datatype Argument = Argument(role: string, text: string, opportunityID: string)

  datatype Vote = Vote(memberID: string, vote: string, rationale: string)

  datatype MemberFailure = MemberFailure(memberID: string, reason: string, message: string)

  datatype Transcript = Transcript(arguments: seq<Argument>, votes: seq<Vote>, failures: seq<MemberFailure>)

  const NO_RECORDS := Transcript([], [], [])

  datatype Record = Argued(argument: Argument) | Voted(vote: Vote) | Removed(failure: MemberFailure)

  datatype Payload = TurnStarted(opportunityID: string) | Recorded(record: Record) | CouncilStarted(members: nat)
    | RunCompleted(resolution: string) | RunFailed | OtherEvent(kind: string)

  datatype Event = Event(sequence: nat, payload: Payload)

  datatype RunError = TurnActive | PromptFailed | Cancelled | EventNotWritten | TranscriptNotWritten
    | TimedOut(role: string) | LawyerFailed(role: string, message: string) | AttemptsExhausted(role: string)
    | MemberBroken(memberID: string) | ListenerNotClosed

  /** Errors joined in order; none when there was no error. */
  type Errors = seq<RunError>

  /** What a turn's channel delivers: no error, or the reason the turn failed. */
  datatype TurnResult = Submitted | TurnFailed(error: RunError)

  /** `done` is the buffer of the turn's channel, whose capacity is one. */
  datatype Turn = Turn(role: string, opportunityID: string, deadline: nat, attemptsRemaining: int,
                       completed: bool, done: seq<TurnResult>, received: bool)

  /** A request waiting for a change: for which role, past which opportunity and version. */
  datatype Waiter = Waiter(request: nat, role: string, after: string, baseline: nat)

  /** `timedOut` and `gone` are the waiting requests whose timer fired and whose client left; a client that left is
      in `hangups` until the waiters have been woken on its behalf. */
  datatype State = State(
    phase: string,
    version: nat,
    terminal: bool,
    terminalError: Errors,
    active: Option<nat>,
    turns: seq<Turn>,
    transcript: Transcript,
    durable: Transcript,
    sequence: nat,
    events: seq<Event>,
    sleeping: set<Waiter>,
    timedOut: set<nat>,
    gone: set<nat>,
    hangups: set<nat>)

  const INITIAL := State("initializing", 0, false, [], None, [], NO_RECORDS, NO_RECORDS, 0, [], {}, {}, {}, {})

  // ---------- Waiting ----------

  function Broadcast(s: State): State {
    s.(sleeping := {})
  }

  /** An active turn awaits the waiter's role under an opportunity it has not seen. */
  predicate TurnReady(s: State, w: Waiter) {
    s.active.Some? && s.active.value < |s.turns| &&
    var turn := s.turns[s.active.value];
    !turn.completed && turn.role == w.role && (w.after == "" || w.after != turn.opportunityID)
  }

  predicate Ready(s: State, w: Waiter) {
    s.terminal || TurnReady(s, w) || s.version != w.baseline || w.request in s.timedOut
  }

  /** One pass of the wait loop: the request is answered, or goes to sleep on the condition variable. */
  function Waited(s: State, w: Waiter): State {
    if w.request in s.gone || Ready(s, w) then s else s.(sleeping := s.sleeping + {w})
  }

  /** The timer of a request sets its flag and wakes everybody in one region. */
  function TimerFired(s: State, request: nat): State {
    Broadcast(s.(timedOut := s.timedOut + {request}))
  }

  /** A client leaves without taking the lock; somebody takes it later to wake everybody. */
  function ClientGone(s: State, request: nat): State {
    s.(gone := s.gone + {request}, hangups := s.hangups + {request})
  }

  function ClientMissed(s: State, request: nat): State {
    if request in s.hangups then Broadcast(s.(hangups := s.hangups - {request})) else s
  }

  // ---------- Records ----------

  function WithRecord(t: Transcript, r: Record): Transcript {
    match r
    case Argued(argument) => t.(arguments := t.arguments + [argument])
    case Voted(vote) => t.(votes := t.votes + [vote])
    case Removed(failure) => t.(failures := t.failures + [failure])
  }

  function EventAppended(s: State, payload: Payload, written: bool): State {
    if written then s.(sequence := s.sequence + 1, events := s.events + [Event(s.sequence + 1, payload)]) else s
  }

  /** Transcript first, then the event; the transcript is rolled back when it cannot be written. */
  function RecordKept(s: State, r: Record, transcriptWritten: bool, eventWritten: bool): (State, Option<RunError>) {
    if !transcriptWritten then (s, Some(TranscriptNotWritten))
    else
      var t := WithRecord(s.transcript, r);
      (EventAppended(s.(transcript := t, durable := t), Recorded(r), eventWritten),
       if eventWritten then None else Some(EventNotWritten))
  }

  // ---------- Lawyer turns ----------

  function OpportunityID(role: string): string {
    "arguments:" + role
  }

  /** Whoever comes first completes the active turn; anything about another turn is ignored. */
  function TurnCompleted(s: State, t: nat, result: TurnResult): State {
    if s.active != Some(t) || t >= |s.turns| || s.turns[t].completed then s
    else Broadcast(s.(turns := s.turns[t := s.turns[t].(completed := true, done := s.turns[t].done + [result])],
                      version := s.version + 1))
  }

  predicate Expired(turn: Turn, now: nat) {
    now >= turn.deadline
  }

  function TurnBegun(s: State, cfg: Config, role: string, now: nat, promptRendered: bool, cancelled: bool, eventWritten: bool): (State, Option<RunError>) {
    if s.active.Some? && s.active.value < |s.turns| && !s.turns[s.active.value].completed then (s, Some(TurnActive))
    else if !promptRendered then (s, Some(PromptFailed))
    else if cancelled then (s, Some(Cancelled))
    else if !eventWritten then (s, Some(EventNotWritten))
    else
      var turn := Turn(role, OpportunityID(role), now + cfg.timeout, cfg.attemptLimit, false, [], false);
      var s' := EventAppended(s, TurnStarted(OpportunityID(role)), true);
      (Broadcast(s'.(phase := "arguments", turns := s.turns + [turn], active := Some(|s.turns|), version := s.version + 1)), None)
  }

  /** The main procedure takes the result out of the turn's channel. */
  function TurnReceived(s: State, t: nat): State
    requires t < |s.turns| && s.turns[t].done != []
  {
    s.(turns := s.turns[t := s.turns[t].(done := s.turns[t].done[1..], received := true)])
  }

  function TurnCleared(s: State, t: nat): State {
    if s.active == Some(t) then Broadcast(s.(active := None, version := s.version + 1)) else s
  }

  // ---------- What lawyers send ----------

  /** The arguments of a decision: how many there are, and those that count. */
  datatype Decision = Decision(fields: nat, kind: string, toolName: string, payloadFields: nat, text: string)

  datatype Complaint = NoActiveTurn | OtherRole(role: string) | StaleOpportunity | Late(error: RunError)
    | WrongFields | WrongTool | WrongPayload | EmptyText | TextTooLong | NotRecorded(error: RunError)

  function TurnComplaint(s: State, role: string, opportunityID: string): Option<Complaint> {
    if s.active.None? || s.active.value >= |s.turns| || s.turns[s.active.value].completed then Some(NoActiveTurn)
    else
      var turn := s.turns[s.active.value];
      if turn.role != role then Some(OtherRole(turn.role))
      else if opportunityID == "" || opportunityID != turn.opportunityID then Some(StaleOpportunity)
      else None
  }

  function DecisionComplaint(cfg: Config, d: Decision): Option<Complaint> {
    if d.fields != 3 then Some(WrongFields)
    else if TrimSpace(d.kind) != "tool" || TrimSpace(d.toolName) != "submit_argument" then Some(WrongTool)
    else if d.payloadFields != 1 then Some(WrongPayload)
    else if TrimSpace(d.text) == "" then Some(EmptyText)
    else if |TrimSpace(d.text)| > cfg.maxArgumentChars then Some(TextTooLong)
    else None
  }

  /** A malformed decision costs an attempt, and the last attempt costs the turn. */
  function AttemptSpent(s: State, t: nat): State
    requires t < |s.turns|
  {
    var remaining := s.turns[t].attemptsRemaining - 1;
    var s' := s.(turns := s.turns[t := s.turns[t].(attemptsRemaining := remaining)]);
    if remaining == 0 then TurnCompleted(s', t, TurnFailed(AttemptsExhausted(s.turns[t].role))) else s'
  }

  function ArgumentSubmitted(s: State, cfg: Config, role: string, opportunityID: string, d: Decision, now: nat,
                             transcriptWritten: bool, eventWritten: bool): (State, Option<Complaint>) {
    if TurnComplaint(s, role, opportunityID).Some? then (s, TurnComplaint(s, role, opportunityID))
    else
      var t := s.active.value;
      if Expired(s.turns[t], now) then (TurnCompleted(s, t, TurnFailed(TimedOut(role))), Some(Late(TimedOut(role))))
      else if DecisionComplaint(cfg, d).Some? then (AttemptSpent(s, t), DecisionComplaint(cfg, d))
      else
        var argument := Argument(role, TrimSpace(d.text), opportunityID);
        var (s', error) := RecordKept(s, Argued(argument), transcriptWritten, eventWritten);
        if error.Some? then (TurnCompleted(s', t, TurnFailed(error.value)), Some(NotRecorded(error.value)))
        else (TurnCompleted(s', t, Submitted), None)
  }

  /** The message of a failure report. */
  function FailureMessage(reason: string, message: string): string {
    if TrimSpace(message) != "" then TrimSpace(message)
    else if TrimSpace(reason) != "" then TrimSpace(reason)
    else "lawyer agent failed"
  }

  function FailureReported(s: State, role: string, opportunityID: string, reason: string, message: string, now: nat): (State, Option<Complaint>) {
    if TurnComplaint(s, role, opportunityID).Some? then (s, TurnComplaint(s, role, opportunityID))
    else
      var t := s.active.value;
      if Expired(s.turns[t], now) then (TurnCompleted(s, t, TurnFailed(TimedOut(role))), Some(Late(TimedOut(role))))
      else (TurnCompleted(s, t, TurnFailed(LawyerFailed(role, FailureMessage(reason, message)))), None)
  }

  // ---------- Phases ----------

  function CouncilEntered(s: State): State {
    Broadcast(s.(phase := "council", version := s.version + 1))
  }

  function TerminalSet(s: State, errors: Errors): State {
    Broadcast(s.(terminal := true, terminalError := errors, phase := if errors != [] then "failed" else "complete",
                 active := None, version := s.version + 1))
  }

  // ---------- The verdict ----------

  function CountVotes(votes: seq<Vote>, value: string): nat {
    if votes == [] then 0 else CountVotes(votes[..|votes| - 1], value) + if votes[|votes| - 1].vote == value then 1 else 0
  }

  predicate CouncilComplete(t: Transcript, size: nat) {
    |t.votes| + |t.failures| == size
  }

  function ResolutionFor(votesFor: nat, votesAgainst: nat, required: nat, complete: bool): string {
    if !complete then ""
    else if votesFor >= required then "demonstrated"
    else if votesAgainst >= required then "not_demonstrated"
    else "no_majority"
  }

  function Resolution(t: Transcript, cfg: Config): string {
    ResolutionFor(CountVotes(t.votes, "demonstrated"), CountVotes(t.votes, "not_demonstrated"), cfg.required,
                  CouncilComplete(t, cfg.size))
  }

  method CountBoth(votes: seq<Vote>) returns (votesFor: nat, votesAgainst: nat)
    ensures votesFor == CountVotes(votes, "demonstrated") && votesAgainst == CountVotes(votes, "not_demonstrated")
  {
    votesFor, votesAgainst := 0, 0;
    for i := 0 to |votes|
      invariant votesFor == CountVotes(votes[..i], "demonstrated") && votesAgainst == CountVotes(votes[..i], "not_demonstrated")
    {
      assert votes[..i + 1][..i] == votes[..i];
      if votes[i].vote == "demonstrated" {
        votesFor := votesFor + 1;
      } else if votes[i].vote == "not_demonstrated" {
        votesAgainst := votesAgainst + 1;
      }
    }
    assert votes[..|votes|] == votes;
  }

  lemma {:induction false} SidesWithinVotes(votes: seq<Vote>)
    ensures CountVotes(votes, "demonstrated") + CountVotes(votes, "not_demonstrated") <= |votes|
  {
    if votes != [] { SidesWithinVotes(votes[..|votes| - 1]); }
  }

  /** The seats that voted for a value, by the position of their vote. */
  ghost function Supporters(votes: seq<Vote>, value: string): set<nat> {
    set i: nat | i < |votes| && votes[i].vote == value
  }

  lemma {:induction false} VotesAreSupporters(votes: seq<Vote>, value: string)
    ensures CountVotes(votes, value) == |Supporters(votes, value)|
  {
    if votes != [] {
      var front, last := votes[..|votes| - 1], |votes| - 1;
      VotesAreSupporters(front, value);
      assert Supporters(votes, value) == Supporters(front, value) + if votes[last].vote == value then {last} else {};
    }
  }

  ghost predicate HasMajority(t: Transcript, cfg: Config, value: string) {
    |Supporters(t.votes, value)| >= cfg.required
  }

  /** A majority is required, so the two sides cannot both reach it, however many seats are still open. There is a
      verdict as soon as every seat is recorded: that of the side with the majority, or that there is none. */
  lemma OneSideAtMost(t: Transcript, cfg: Config)
    requires Acceptable(cfg) && |t.votes| + |t.failures| <= cfg.size
    ensures !(HasMajority(t, cfg, "demonstrated") && HasMajority(t, cfg, "not_demonstrated"))
    ensures Resolution(t, cfg) == "" <==> |t.votes| + |t.failures| < cfg.size
    ensures Resolution(t, cfg) == "demonstrated" <==> |t.votes| + |t.failures| == cfg.size && HasMajority(t, cfg, "demonstrated")
    ensures Resolution(t, cfg) == "not_demonstrated" <==> |t.votes| + |t.failures| == cfg.size && HasMajority(t, cfg, "not_demonstrated")
    ensures Resolution(t, cfg) == "no_majority" <==>
      |t.votes| + |t.failures| == cfg.size && !HasMajority(t, cfg, "demonstrated") && !HasMajority(t, cfg, "not_demonstrated")
  {
    SidesWithinVotes(t.votes);
    VotesAreSupporters(t.votes, "demonstrated");
    VotesAreSupporters(t.votes, "not_demonstrated");
  }
}
