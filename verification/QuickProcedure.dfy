/**
 The quick procedure as a state machine: the main procedure steps through the two lawyer turns, the council, in
 either of its two modes, and the closing of the case, while submissions, failure reports, timers, cancellations and
 waiting requests arrive in any order.
 */
module QuickProcedure {
  import opened QuickCouncil
  import opened QuickState
  import opened Results
  import Text

  const ROLES := ["plaintiff", "defendant"]

  /** Where the main procedure stands. */
  datatype Control =
    | Starting(k: nat)
    | Awaiting(k: nat)
    | Holding(k: nat, result: TurnResult)
    | CouncilOpen
    // one member after the other
    | Voting(seat: nat)
    // all members at once
    | Collecting
    | Recalling(seat: nat, outcomes: seq<Outcome>, requestErrors: Errors, recordErrors: Errors)
    | Stopping(errors: Errors)
    | Ending(errors: Errors)
    | Ended(errors: Errors)
    | Closed(errors: Errors)

  datatype World = World(s: State, control: Control)

  datatype Setting = Setting(cfg: Config, roster: seq<string>, parallel: bool)

  datatype Action =
    // requests, timers and clients
    | Submit(role: string, opportunityID: string, decision: Decision, now: nat, transcriptWritten: bool, eventWritten: bool)
    | Report(role: string, opportunityID: string, reason: string, message: string, now: nat)
    | Fire(turn: nat, error: RunError)
    | Wait(waiter: Waiter)
    | TimeOut(request: nat)
    | HangUp(request: nat)
    | Notice(request: nat)
    // the main procedure
    | Note(kind: string, eventWritten: bool)
    | BeginTurn(now: nat, promptRendered: bool, cancelled: bool, eventWritten: bool)
    | ReceiveResult
    | EndTurn
    | EnterCouncil
    | OpenCouncil(eventWritten: bool)
    | RecordSeat(outcome: Outcome, writes: (bool, bool), asked: bool, before: bool, after: bool)
    | Collect(answers: seq<Outcome>, arrivals: seq<nat>, cancelled: bool)
    | RecordCollected(writes: (bool, bool), before: bool, after: bool)
    | EndCouncil(cancelled: bool)
    | SetTerminal
    | RecordEnd(listenerClosed: bool, eventWritten: bool, failureWritten: bool)

  function Continue(s: State, errors: Errors, next: Control): World {
    World(s, if errors != [] then Stopping(errors) else next)
  }

  function ErrorOf(error: Option<RunError>): Errors {
    if error.Some? then [error.value] else []
  }

  function Unwritten(written: bool): Errors {
    if written then [] else [EventNotWritten]
  }

  /** One action; an action that is not due leaves the world as it is. */
  function Next(g: Setting, w: World, a: Action): World {
    match a
    case Submit(role, id, decision, now, tw, ew) => w.(s := ArgumentSubmitted(w.s, g.cfg, role, id, decision, now, tw, ew).0)
    case Report(role, id, reason, message, now) => w.(s := FailureReported(w.s, role, id, reason, message, now).0)
    case Fire(turn, error) => w.(s := TurnCompleted(w.s, turn, TurnFailed(error)))
    case Wait(waiter) => w.(s := Waited(w.s, waiter))
    case TimeOut(request) => w.(s := TimerFired(w.s, request))
    case HangUp(request) => w.(s := ClientGone(w.s, request))
    case Notice(request) => w.(s := ClientMissed(w.s, request))
    case _ => MainNext(g, w, a)
  }

  function MainNext(g: Setting, w: World, a: Action): World {
    match w.control
    case Starting(_) => LawyerNext(g, w, a)
    case Awaiting(_) => LawyerNext(g, w, a)
    case Holding(_, _) => LawyerNext(g, w, a)
    case CouncilOpen => CouncilNext(g, w, a)
    case Voting(_) => CouncilNext(g, w, a)
    case Collecting => CouncilNext(g, w, a)
    case Recalling(_, _, _, _) => CouncilNext(g, w, a)
    case _ => ClosingNext(g, w, a)
  }

  /** One lawyer's turn after the other, and on to the council. */
  function LawyerNext(g: Setting, w: World, a: Action): World {
    match w.control
    case Starting(k) => StartingNext(g, w.s, k, a)
    case Awaiting(k) =>
      if a.ReceiveResult? && k < |w.s.turns| && w.s.turns[k].done != [] then
        World(TurnReceived(w.s, k), Holding(k, w.s.turns[k].done[0]))
      else w
    case Holding(k, result) =>
      if a.EndTurn? then Continue(TurnCleared(w.s, k), if result.TurnFailed? then [result.error] else [], Starting(k + 1)) else w
    case _ => w
  }

  function StartingNext(g: Setting, s: State, k: nat, a: Action): World {
    match a
    case Note(kind, ew) =>
      if k == 0 then Continue(EventAppended(s, OtherEvent(kind), ew), Unwritten(ew), Starting(k)) else World(s, Starting(k))
    case BeginTurn(now, promptRendered, cancelled, ew) =>
      if k >= |ROLES| then World(s, Starting(k)) else
        var (s', error) := TurnBegun(s, g.cfg, ROLES[k], now, promptRendered, cancelled, ew);
        Continue(s', ErrorOf(error), Awaiting(k))
    case EnterCouncil => if k == |ROLES| then World(CouncilEntered(s), CouncilOpen) else World(s, Starting(k))
    case _ => World(s, Starting(k))
  }

  /** The council, opened in the mode configured. */
  function CouncilNext(g: Setting, w: World, a: Action): World {
    match w.control
    case CouncilOpen =>
      if a.OpenCouncil? then
        Continue(EventAppended(w.s, CouncilStarted(|g.roster|), a.eventWritten), Unwritten(a.eventWritten), if g.parallel then Collecting else Voting(0))
      else w
    case Voting(seat) => VotingNext(g, w.s, seat, a)
    case Collecting =>
      if a.Collect? && |a.answers| == |g.roster| && Permutation(a.arrivals, |g.roster|) then
        w.(control := Recalling(0, a.answers, RequestErrors(g.roster, a.answers, a.arrivals) + Cause(a.cancelled), []))
      else w
    case Recalling(seat, outcomes, requestErrors, recordErrors) => RecallingNext(g, w.s, seat, outcomes, requestErrors, recordErrors, a)
    case _ => w
  }

  function VotingNext(g: Setting, s: State, seat: nat, a: Action): World {
    match a
    case RecordSeat(outcome, writes, asked, before, after) =>
      if seat >= |g.roster| then World(s, Voting(seat)) else
        var (s', errors) := SeatRun(s, g.roster[seat], outcome, writes, asked, before, after);
        Continue(s', errors, Voting(seat + 1))
    case EndCouncil(cancelled) => World(s, if seat == |g.roster| then Stopping(Cause(cancelled)) else Voting(seat))
    case _ => World(s, Voting(seat))
  }

  function RecallingNext(g: Setting, s: State, seat: nat, outcomes: seq<Outcome>, requestErrors: Errors, recordErrors: Errors, a: Action): World {
    match a
    case RecordCollected(writes, before, after) =>
      if recordErrors != [] || seat >= |g.roster| || seat >= |outcomes| then World(s, Recalling(seat, outcomes, requestErrors, recordErrors))
      else if outcomes[seat].Broken? then World(s, Recalling(seat + 1, outcomes, requestErrors, []))
      else
        var (s', errors) := OutcomeKept(s, SeatRecord(g.roster[seat], outcomes[seat]).value, writes, before, after);
        World(s', Recalling(seat + 1, outcomes, requestErrors, errors))
    case EndCouncil(cancelled) =>
      World(s, if seat == |g.roster| || recordErrors != [] then Stopping(requestErrors + recordErrors + Cause(cancelled))
               else Recalling(seat, outcomes, requestErrors, recordErrors))
    case _ => World(s, Recalling(seat, outcomes, requestErrors, recordErrors))
  }

  /** The terminal state is set, the listener closed, the terminal event recorded, and the terminal state set again. */
  function ClosingNext(g: Setting, w: World, a: Action): World {
    match w.control
    case Stopping(errors) => if a.SetTerminal? then World(TerminalSet(w.s, errors), Ending(errors)) else w
    case Ending(errors) =>
      if a.RecordEnd? then
        var (s, errors') := EndRecorded(g.cfg, w.s, errors + CloseError(a.listenerClosed), a.eventWritten, a.failureWritten);
        World(s, Ended(errors'))
      else w
    case Ended(errors) => if a.SetTerminal? then World(TerminalSet(w.s, errors), Closed(errors)) else w
    case _ => w
  }

  function CloseError(listenerClosed: bool): Errors {
    if listenerClosed then [] else [ListenerNotClosed]
  }

  /** A completed run whose event cannot be written has failed, and that is recorded if it can be. */
  function EndRecorded(cfg: Config, s: State, errors: Errors, eventWritten: bool, failureWritten: bool): (State, Errors) {
    if errors != [] then (EventAppended(s, RunFailed, eventWritten), errors + Unwritten(eventWritten))
    else if eventWritten then (EventAppended(s, RunCompleted(Resolution(s.transcript, cfg)), true), [])
    else (EventAppended(s, RunFailed, failureWritten), [EventNotWritten] + Unwritten(failureWritten))
  }

  function Steps(g: Setting, w: World, actions: seq<Action>): World {
    if actions == [] then w else Next(g, Steps(g, w, actions[..|actions| - 1]), actions[|actions| - 1])
  }

  function Run(g: Setting, actions: seq<Action>): World {
    Steps(g, World(INITIAL, Starting(0)), actions)
  }

  // ---------- Invariants ----------

  /** A turn sends its result exactly once: at completion, into an empty channel. */
  predicate TurnSound(turn: Turn) {
    && |turn.done| <= 1
    && (turn.completed <==> turn.done != [] || turn.received)
    && (turn.received ==> turn.done == [])
    && (!turn.completed ==> turn.attemptsRemaining > 0)
  }

  /** The turns belong to the roles in order, each under the opportunity of its role. */
  predicate TurnOf(turn: Turn, t: nat) {
    t < |ROLES| && turn.role == ROLES[t] && turn.opportunityID == OpportunityID(ROLES[t])
  }

  predicate TurnsSound(s: State) {
    && (s.active.Some? ==> s.active.value == |s.turns| - 1)
    && forall t :: 0 <= t < |s.turns| ==> TurnSound(s.turns[t]) && TurnOf(s.turns[t], t)
  }

  /** The arguments of the first k roles, under the opportunity of their turn. */
  predicate ArgumentsOf(s: State, k: nat) {
    |s.transcript.arguments| == k <= |ROLES| && forall j :: 0 <= j < k ==> ArgumentFor(s.transcript.arguments[j], ROLES[j])
  }

  predicate ArgumentFor(a: Argument, role: string) {
    a.role == role && a.opportunityID == OpportunityID(role) && a.text != ""
  }

  /** The argument of turn k is in the transcript as soon as its result says so, and not before. */
  predicate TurnArgument(s: State, k: nat, result: Option<TurnResult>) {
    match result
    case None => ArgumentsOf(s, k)
    case Some(Submitted) => ArgumentsOf(s, k + 1)
    case Some(TurnFailed(_)) => true
  }

  predicate TurnRuns(s: State, k: nat) {
    k < |ROLES| && |s.turns| == k + 1 && s.active == Some(k)
  }

  /** Both arguments are in and no turn is active. */
  predicate Heard(s: State) {
    s.active == None && ArgumentsOf(s, |ROLES|)
  }

  /** A run without errors has heard both sides and recorded every seat; seats are recorded in order in any case. */
  ghost predicate StoppedSound(g: Setting, s: State, errors: Errors) {
    && s.active == None && SeatsInOrder(g.roster, Outcomes(s.events))
    && (errors == [] ==> ArgumentsOf(s, |ROLES|) && Outcomes(s.events) == g.roster)
  }

  ghost predicate RecallingSound(g: Setting, s: State, seat: nat, outcomes: seq<Outcome>, requestErrors: Errors, recordErrors: Errors) {
    && seat <= |g.roster| == |outcomes| && (requestErrors == [] ==> NoneBroken(outcomes))
    && SeatsInOrder(g.roster, Outcomes(s.events))
    && (recordErrors == [] ==> Outcomes(s.events) == Answered(g.roster, outcomes, seat))
  }

  ghost predicate ControlSound(g: Setting, w: World) {
    match w.control
    case Starting(k) => k <= |ROLES| && |w.s.turns| == k && w.s.active == None && ArgumentsOf(w.s, k) && Outcomes(w.s.events) == []
    case Awaiting(k) =>
      && TurnRuns(w.s, k) && !w.s.turns[k].received
      && TurnArgument(w.s, k, if w.s.turns[k].done == [] then None else Some(w.s.turns[k].done[0]))
      && Outcomes(w.s.events) == []
    case Holding(k, result) => TurnRuns(w.s, k) && w.s.turns[k].received && TurnArgument(w.s, k, Some(result)) && Outcomes(w.s.events) == []
    case CouncilOpen => Heard(w.s) && Outcomes(w.s.events) == []
    case Collecting => Heard(w.s) && Outcomes(w.s.events) == []
    case Voting(seat) => Heard(w.s) && seat <= |g.roster| && Outcomes(w.s.events) == g.roster[..seat]
    case Recalling(seat, outcomes, requestErrors, recordErrors) => Heard(w.s) && RecallingSound(g, w.s, seat, outcomes, requestErrors, recordErrors)
    case Stopping(errors) => StoppedSound(g, w.s, errors)
    case Ending(errors) => StoppedSound(g, w.s, errors)
    case Ended(errors) => StoppedSound(g, w.s, errors)
    case Closed(errors) => StoppedSound(g, w.s, errors)
  }

  /** A record was not kept, or the run is bound to fail once the main procedure notices. */
  predicate Failing(w: World) {
    match w.control
    case Awaiting(k) => k < |w.s.turns| && w.s.turns[k].done != [] && w.s.turns[k].done[0].TurnFailed?
    case Holding(k, result) => result.TurnFailed?
    case Recalling(_, _, _, recordErrors) => recordErrors != []
    case Stopping(errors) => errors != []
    case Ending(errors) => errors != []
    case Ended(errors) => errors != []
    case Closed(errors) => errors != []
    case _ => false
  }

  /** How many turns the main procedure has left behind. */
  function Passed(w: World): nat {
    if w.control.Awaiting? then w.control.k else |w.s.turns|
  }

  predicate PassedReceived(w: World) {
    forall t :: 0 <= t < Passed(w) && t < |w.s.turns| ==> w.s.turns[t].received
  }

  /** Nobody sleeps through what it waits for, and whoever sleeps after its client left will be woken. */
  ghost predicate NobodyMissed(s: State) {
    forall waiter :: waiter in s.sleeping ==> Unready(s, waiter)
  }

  predicate Unready(s: State, waiter: Waiter) {
    !Ready(s, waiter) && (waiter.request in s.gone ==> waiter.request in s.hangups)
  }

  ghost predicate Sound(g: Setting, w: World) {
    && InStepUnless(w.s, Failing(w))
    && TurnsSound(w.s) && PassedReceived(w)
    && ControlSound(g, w)
    && NobodyMissed(w.s)
  }

  // ---------- Waiting ----------

  /** Nothing a waiting request looks at has changed. */
  predicate SameNews(s: State, s': State) {
    && s'.terminal == s.terminal && s'.active == s.active && s'.version == s.version && s'.sleeping == s.sleeping
    && s'.timedOut == s.timedOut && s'.gone == s.gone && s'.hangups == s.hangups
    && |s'.turns| == |s.turns|
    && forall t :: 0 <= t < |s.turns| ==> SameTurn(s.turns[t], s'.turns[t])
  }

  predicate SameTurn(turn: Turn, turn': Turn) {
    turn'.completed == turn.completed && turn'.role == turn.role && turn'.opportunityID == turn.opportunityID
  }

  lemma StillUnready(s: State, s': State)
    requires NobodyMissed(s) && SameNews(s, s')
    ensures NobodyMissed(s')
  {
    forall waiter | waiter in s'.sleeping ensures Unready(s', waiter) {
      assert Unready(s, waiter);
      if s.active.Some? && s.active.value < |s.turns| { assert SameTurn(s.turns[s.active.value], s'.turns[s.active.value]); }
    }
  }

  /** Only who sleeps and what waiting requests look at may change, as long as nobody misses it. */
  lemma OnlyWaiting(g: Setting, w: World, s': State)
    requires Sound(g, w) && NobodyMissed(s')
    requires s' == w.s.(sleeping := s'.sleeping, timedOut := s'.timedOut, gone := s'.gone, hangups := s'.hangups)
    ensures Sound(g, w.(s := s'))
  {
    hide InStepUnless, TurnsSound, StoppedSound, RecallingSound, ArgumentsOf, Outcomes, NobodyMissed;
    SameRecords(w.s, s', Failing(w));
    SameTurns(w.s, s');
    SameSeats(g, w.s, s');
    SameArguments(w.s, s');
  }

  lemma WaitedSound(g: Setting, w: World, waiter: Waiter)
    requires Sound(g, w)
    ensures Sound(g, Next(g, w, Wait(waiter)))
  {
    hide InStepUnless, TurnsSound, ControlSound, PassedReceived, Ready;
    var s' := Waited(w.s, waiter);
    forall x | x in s'.sleeping ensures Unready(s', x) {
      if x in w.s.sleeping { assert Unready(w.s, x); }
      ReadyWhoever(w.s, s', x);
    }
    OnlyWaiting(g, w, s');
  }

  lemma ReadyWhoever(s: State, s': State, x: Waiter)
    requires s' == s.(sleeping := s'.sleeping, gone := s'.gone, hangups := s'.hangups)
    ensures Ready(s', x) == Ready(s, x)
  {
  }

  lemma NewsSound(g: Setting, w: World, request: nat)
    requires Sound(g, w)
    ensures Sound(g, Next(g, w, TimeOut(request))) && Sound(g, Next(g, w, Notice(request)))
  {
    hide InStepUnless, TurnsSound, ControlSound, PassedReceived;
    OnlyWaiting(g, w, TimerFired(w.s, request));
    if request in w.s.hangups { OnlyWaiting(g, w, ClientMissed(w.s, request)); }
  }

  lemma GoneSound(g: Setting, w: World, request: nat)
    requires Sound(g, w)
    ensures Sound(g, Next(g, w, HangUp(request)))
  {
    hide InStepUnless, TurnsSound, ControlSound, PassedReceived, Ready;
    var s' := ClientGone(w.s, request);
    forall x | x in s'.sleeping ensures Unready(s', x) {
      assert Unready(w.s, x);
      ReadyWhoever(w.s, s', x);
    }
    OnlyWaiting(g, w, s');
  }

  // ---------- What does not change ----------

  lemma SameRecords(s: State, s': State, failing: bool)
    requires InStepUnless(s, failing)
    requires s'.transcript == s.transcript && s'.durable == s.durable && s'.sequence == s.sequence && s'.events == s.events
    ensures InStepUnless(s', failing)
  {
    if failing && OneAhead(s) {
      var r :| s.transcript == WithRecord(Projection(s.events), r);
      assert s'.transcript == WithRecord(Projection(s'.events), r);
    }
  }

  lemma SameTurns(s: State, s': State)
    requires TurnsSound(s) && s'.turns == s.turns && (s'.active == s.active || s'.active == None)
    ensures TurnsSound(s')
  {
  }

  lemma SameArguments(s: State, s': State)
    requires s'.transcript.arguments == s.transcript.arguments
    ensures forall k :: ArgumentsOf(s', k) == ArgumentsOf(s, k)
  {
  }

  lemma SameSeats(g: Setting, s: State, s': State)
    requires Outcomes(s'.events) == Outcomes(s.events) && s'.transcript.arguments == s.transcript.arguments && (s'.active == s.active || s'.active == None)
    ensures forall errors :: StoppedSound(g, s, errors) ==> StoppedSound(g, s', errors)
    ensures forall seat, outcomes, requestErrors, recordErrors ::
      RecallingSound(g, s, seat, outcomes, requestErrors, recordErrors) ==> RecallingSound(g, s', seat, outcomes, requestErrors, recordErrors)
  {
    hide Outcomes, ArgumentsOf, SeatsInOrder, NoneBroken;
    SameArguments(s, s');
  }

  // ---------- Completion ----------

  /** Completing the active turn: exactly then does the channel receive its one value. */
  lemma CompletedTurn(s: State, t: nat, result: TurnResult)
    requires TurnsSound(s) && NobodyMissed(s)
    ensures var s' := TurnCompleted(s, t, result);
            && TurnsSound(s') && NobodyMissed(s')
            && s' == s.(turns := s'.turns, version := s'.version, sleeping := s'.sleeping)
            && (if s.active == Some(t) && !s.turns[t].completed then
                  && s.turns[t].done == []
                  && s'.turns == s.turns[t := s.turns[t].(completed := true, done := [result])]
                  && s'.version == s.version + 1 && s'.sleeping == {}
                else s' == s)
  {
    var s' := TurnCompleted(s, t, result);
    if s.active == Some(t) && !s.turns[t].completed {
      assert TurnSound(s.turns[t]);
      assert s.turns[t].done + [result] == [result];
      forall u | 0 <= u < |s'.turns| ensures TurnSound(s'.turns[u]) && TurnOf(s'.turns[u], u) {
        assert TurnSound(s.turns[u]);
      }
    }
  }

  /** While a turn accepts submissions the main procedure is waiting for exactly that turn. */
  lemma OpenTurn(g: Setting, w: World, t: nat)
    requires Sound(g, w) && w.s.active == Some(t) && t < |w.s.turns| && !w.s.turns[t].completed
    ensures w.control == Awaiting(t) && TurnRuns(w.s, t)
    ensures w.s.turns[t].done == [] && !w.s.turns[t].received && TurnOf(w.s.turns[t], t)
    ensures ArgumentsOf(w.s, t) && InStep(w.s) && Outcomes(w.s.events) == []
  {
    hide Numbered, Projection, Outcomes, NobodyMissed, OneAhead, SeatsInOrder;
    assert TurnSound(w.s.turns[t]) && TurnOf(w.s.turns[t], t);
  }

  /** The world after the active turn was completed by a failure, or not at all. */
  lemma FailedTurnSound(g: Setting, w: World, t: nat, error: RunError)
    requires Sound(g, w)
    ensures Sound(g, w.(s := TurnCompleted(w.s, t, TurnFailed(error))))
  {
    hide NobodyMissed, InStepUnless, Outcomes, TurnsSound;
    var s' := TurnCompleted(w.s, t, TurnFailed(error));
    CompletedTurn(w.s, t, TurnFailed(error));
    if s' != w.s {
      OpenTurn(g, w, t);
      InStepRegardless(s', w.s);
    }
  }

  lemma InStepRegardless(s': State, s: State)
    requires InStep(s) && s'.transcript == s.transcript && s'.durable == s.durable && s'.sequence == s.sequence && s'.events == s.events
    ensures InStepUnless(s', true)
  {
    SameRecords(s, s', true);
  }

  // ---------- Submissions and reports ----------

  lemma SubmittedSound(g: Setting, w: World, role: string, opportunityID: string, d: Decision, now: nat, tw: bool, ew: bool)
    requires Sound(g, w)
    ensures Sound(g, Next(g, w, Submit(role, opportunityID, d, now, tw, ew)))
  {
    hide Sound, TurnRuns, RecordKept, TurnCompleted, AttemptSpent;
    if TurnComplaint(w.s, role, opportunityID).None? {
      var t := w.s.active.value;
      OpenTurn(g, w, t);
      if Expired(w.s.turns[t], now) {
        FailedTurnSound(g, w, t, TimedOut(role));
      } else if DecisionComplaint(g.cfg, d).Some? {
        AttemptSpentSound(g, w, t);
      } else {
        ArgumentKeptSound(g, w, t, Text.TrimSpace(d.text), tw, ew);
      }
    }
  }

  lemma AttemptSpentSound(g: Setting, w: World, t: nat)
    requires Sound(g, w) && w.s.active == Some(t) && t < |w.s.turns| && !w.s.turns[t].completed
    ensures Sound(g, w.(s := AttemptSpent(w.s, t)))
  {
    hide InStepUnless, InStep, Outcomes, NobodyMissed, ArgumentsOf;
    OpenTurn(g, w, t);
    var turn := w.s.turns[t];
    assert TurnSound(turn);
    var s' := w.s.(turns := w.s.turns[t := turn.(attemptsRemaining := turn.attemptsRemaining - 1)]);
    SameArguments(w.s, s');
    SameRecords(w.s, s', false);
    if turn.attemptsRemaining > 1 {
      forall u | 0 <= u < |s'.turns| ensures TurnSound(s'.turns[u]) && TurnOf(s'.turns[u], u) { assert TurnSound(w.s.turns[u]); }
      StillUnready(w.s, s');
    } else {
      var s'' := AttemptSpent(w.s, t);
      assert s''.turns[t].done == [TurnFailed(AttemptsExhausted(turn.role))];
      forall u | 0 <= u < |s''.turns| ensures TurnSound(s''.turns[u]) && TurnOf(s''.turns[u], u) { assert TurnSound(w.s.turns[u]); }
      InStepRegardless(s'', w.s);
      NobodyLeft(s'');
    }
  }

  lemma NobodyLeft(s: State)
    requires s.sleeping == {}
    ensures NobodyMissed(s)
  {
  }

  /** An accepted argument completes its turn with success exactly when transcript and event are written. */
  lemma ArgumentKeptSound(g: Setting, w: World, t: nat, text: string, tw: bool, ew: bool)
    requires Sound(g, w) && w.s.active == Some(t) && t < |w.s.turns| && !w.s.turns[t].completed && text != ""
    ensures var role := w.s.turns[t].role;
            var (s', error) := RecordKept(w.s, Argued(Argument(role, text, w.s.turns[t].opportunityID)), tw, ew);
            Sound(g, w.(s := TurnCompleted(s', t, if error.Some? then TurnFailed(error.value) else Submitted)))
  {
    hide Projection, Outcomes, Numbered, NobodyMissed, TurnsSound, OneAhead, RecordKept, TurnCompleted;
    OpenTurn(g, w, t);
    var argument := Argument(w.s.turns[t].role, text, w.s.turns[t].opportunityID);
    KeptRecord(w.s, Argued(argument), tw, ew);
    var (s', error) := RecordKept(w.s, Argued(argument), tw, ew);
    SameTurns(w.s, s');
    StillUnready(w.s, s');
    CompletedTurn(s', t, if error.Some? then TurnFailed(error.value) else Submitted);
    var s'' := TurnCompleted(s', t, if error.Some? then TurnFailed(error.value) else Submitted);
    SameRecords(s', s'', error.Some?);
    if error.None? { OneMoreArgument(w.s, s'', t, argument); }
  }

  lemma OneMoreArgument(s: State, s': State, k: nat, argument: Argument)
    requires ArgumentsOf(s, k) && k < |ROLES| && ArgumentFor(argument, ROLES[k])
    requires s'.transcript.arguments == s.transcript.arguments + [argument]
    ensures ArgumentsOf(s', k + 1)
  {
  }

  lemma ReportedSound(g: Setting, w: World, role: string, opportunityID: string, reason: string, message: string, now: nat)
    requires Sound(g, w)
    ensures Sound(g, Next(g, w, Report(role, opportunityID, reason, message, now)))
  {
    hide Sound, FailureMessage, TurnCompleted;
    if TurnComplaint(w.s, role, opportunityID).None? {
      var t := w.s.active.value;
      FailedTurnSound(g, w, t, TimedOut(role));
      FailedTurnSound(g, w, t, LawyerFailed(role, FailureMessage(reason, message)));
    }
  }

  lemma FiredSound(g: Setting, w: World, turn: nat, error: RunError)
    requires Sound(g, w)
    ensures Sound(g, Next(g, w, Fire(turn, error)))
  {
    hide Sound, TurnCompleted;
    FailedTurnSound(g, w, turn, error);
  }

  // ---------- The main procedure ----------

  lemma BegunSound(g: Setting, w: World, now: nat, promptRendered: bool, cancelled: bool, ew: bool)
    requires Acceptable(g.cfg) && Sound(g, w)
    ensures Sound(g, Next(g, w, BeginTurn(now, promptRendered, cancelled, ew)))
  {
    hide Projection, Outcomes, NobodyMissed, Numbered, OneAhead, SeatsInOrder;
    if w.control.Starting? && w.control.k < |ROLES| {
      var k := w.control.k;
      var (s', error) := TurnBegun(w.s, g.cfg, ROLES[k], now, promptRendered, cancelled, ew);
      PrefixInOrder(g.roster, 0);
      assert g.roster[..0] == [];
      if error.None? {
        AppendedEvent(w.s, TurnStarted(OpportunityID(ROLES[k])), true);
        SameNumbers(EventAppended(w.s, TurnStarted(OpportunityID(ROLES[k])), true), s');
        forall t | 0 <= t < |s'.turns| ensures TurnSound(s'.turns[t]) && TurnOf(s'.turns[t], t) {
          if t < k { assert TurnSound(w.s.turns[t]) && TurnOf(w.s.turns[t], t); }
        }
        NobodyLeft(s');
      }
    }
  }

  lemma ReceivedSound(g: Setting, w: World)
    requires Sound(g, w)
    ensures Sound(g, Next(g, w, ReceiveResult))
  {
    hide InStepUnless, Outcomes, NobodyMissed, ArgumentsOf;
    if w.control.Awaiting? && w.control.k < |w.s.turns| && w.s.turns[w.control.k].done != [] {
      var k := w.control.k;
      var s' := TurnReceived(w.s, k);
      assert TurnSound(w.s.turns[k]);
      forall t | 0 <= t < |s'.turns| ensures TurnSound(s'.turns[t]) && TurnOf(s'.turns[t], t) { assert TurnSound(w.s.turns[t]) && TurnOf(w.s.turns[t], t); }
      SameArguments(w.s, s');
      SameRecords(w.s, s', Failing(w));
      StillUnready(w.s, s');
    }
  }

  lemma EndedSound(g: Setting, w: World)
    requires Sound(g, w)
    ensures Sound(g, Next(g, w, EndTurn)) && Sound(g, Next(g, w, EnterCouncil))
  {
    hide InStepUnless, Outcomes, TurnsSound, NobodyMissed, ArgumentsOf, SeatsInOrder;
    PrefixInOrder(g.roster, 0);
    assert g.roster[..0] == [];
    if w.control.Holding? {
      var s' := TurnCleared(w.s, w.control.k);
      SameArguments(w.s, s');
      SameRecords(w.s, s', Failing(w));
      SameTurns(w.s, s');
      NobodyLeft(s');
    } else if w.control == Starting(|ROLES|) {
      var s' := CouncilEntered(w.s);
      SameArguments(w.s, s');
      SameRecords(w.s, s', false);
      SameTurns(w.s, s');
      NobodyLeft(s');
    }
  }

  /** Recording an event other than a record. */
  lemma EventSound(s: State, payload: Payload, written: bool, failing: bool)
    requires InStepUnless(s, failing) && TurnsSound(s) && NobodyMissed(s) && !payload.Recorded?
    ensures var s' := EventAppended(s, payload, written);
            && InStepUnless(s', failing) && TurnsSound(s') && NobodyMissed(s') && Outcomes(s'.events) == Outcomes(s.events)
            && s' == s.(sequence := s'.sequence, events := s'.events)
  {
    hide Projection, Outcomes, NobodyMissed, Numbered, TurnsSound;
    var s' := EventAppended(s, payload, written);
    AppendedEvent(s, payload, written);
    SameTurns(s, s');
    StillUnready(s, s');
    if failing && OneAhead(s) {
      var r :| s.transcript == WithRecord(Projection(s.events), r);
      assert s'.transcript == WithRecord(Projection(s'.events), r);
    }
  }

  lemma OpenedSound(g: Setting, w: World, kind: string, ew: bool)
    requires Sound(g, w)
    ensures Sound(g, Next(g, w, OpenCouncil(ew))) && Sound(g, Next(g, w, Note(kind, ew)))
  {
    hide InStepUnless, Outcomes, NobodyMissed, TurnsSound, ArgumentsOf, SeatsInOrder, EventAppended;
    PrefixInOrder(g.roster, 0);
    assert g.roster[..0] == [];
    if w.control.CouncilOpen? {
      EventSound(w.s, CouncilStarted(|g.roster|), ew, false);
      SameArguments(w.s, EventAppended(w.s, CouncilStarted(|g.roster|), ew));
      Regardless(EventAppended(w.s, CouncilStarted(|g.roster|), ew));
    } else if w.control == Starting(0) {
      EventSound(w.s, OtherEvent(kind), ew, false);
      SameArguments(w.s, EventAppended(w.s, OtherEvent(kind), ew));
      Regardless(EventAppended(w.s, OtherEvent(kind), ew));
    }
  }

  lemma Regardless(s: State)
    requires InStepUnless(s, false)
    ensures InStepUnless(s, true)
  {
  }

  // ---------- The council ----------

  lemma RecordedTurns(s: State, s': State)
    requires TurnsSound(s) && NobodyMissed(s) && OnlyRecords(s, s')
    ensures TurnsSound(s') && NobodyMissed(s') && (forall k :: ArgumentsOf(s', k) == ArgumentsOf(s, k))
  {
    hide TurnsSound, NobodyMissed, ArgumentsOf;
    SameTurns(s, s');
    StillUnready(s, s');
    SameArguments(s, s');
  }

  /** Each seat is recorded once, in roster order, as a vote or as a removal. */
  lemma SeatSound(g: Setting, w: World, outcome: Outcome, writes: (bool, bool), asked: bool, before: bool, after: bool)
    requires Sound(g, w)
    ensures Sound(g, Next(g, w, RecordSeat(outcome, writes, asked, before, after)))
  {
    hide Projection, Outcomes, Numbered, OneAhead, TurnsSound, NobodyMissed, ArgumentsOf, SeatsInOrder, OutcomeKept;
    if w.control.Voting? && w.control.seat < |g.roster| {
      var seat := w.control.seat;
      var (s', errors) := SeatRun(w.s, g.roster[seat], outcome, writes, asked, before, after);
      assert g.roster[..seat + 1] == g.roster[..seat] + [g.roster[seat]];
      PrefixInOrder(g.roster, seat);
      PrefixInOrder(g.roster, seat + 1);
      if !asked && !outcome.Broken? {
        OutcomeKeptSound(w.s, g.roster[seat], outcome, writes, before, after);
        RecordedTurns(w.s, s');
      }
    }
  }

  /** All answers are in: there are errors unless every member answered or failed by itself. */
  lemma CollectedSound(g: Setting, w: World, outcomes: seq<Outcome>, arrivals: seq<nat>, cancelled: bool)
    requires Sound(g, w)
    ensures Sound(g, Next(g, w, Collect(outcomes, arrivals, cancelled)))
  {
    hide InStepUnless, Outcomes, TurnsSound, NobodyMissed, ArgumentsOf, SeatsInOrder, RequestErrors, Permutation;
    if w.control.Collecting? && |outcomes| == |g.roster| && Permutation(arrivals, |g.roster|) {
      NoRequestErrors(g.roster, outcomes, arrivals);
      PrefixInOrder(g.roster, 0);
      assert g.roster[..0] == [];
    }
  }

  /** Broken answers are skipped, the others recorded in roster order until the first error. */
  lemma RecalledSound(g: Setting, w: World, writes: (bool, bool), before: bool, after: bool)
    requires Sound(g, w)
    ensures Sound(g, Next(g, w, RecordCollected(writes, before, after)))
  {
    hide Projection, Outcomes, Numbered, OneAhead, TurnsSound, NobodyMissed, ArgumentsOf, SeatsInOrder, OutcomeKept, NoneBroken;
    if w.control.Recalling? && w.control.recordErrors == [] && w.control.seat < |g.roster| {
      var seat, outcomes := w.control.seat, w.control.outcomes;
      AnsweredInOrder(g.roster, outcomes, seat);
      AnsweredInOrder(g.roster, outcomes, seat + 1);
      if !outcomes[seat].Broken? {
        OutcomeKeptSound(w.s, g.roster[seat], outcomes[seat], writes, before, after);
        RecordedTurns(w.s, OutcomeKept(w.s, SeatRecord(g.roster[seat], outcomes[seat]).value, writes, before, after).0);
      }
    }
  }

  lemma AnsweredInOrder(roster: seq<string>, outcomes: seq<Outcome>, n: nat)
    requires n <= |roster| == |outcomes|
    ensures SeatsInOrder(roster, Answered(roster, outcomes, n))
  {
  }

  lemma CouncilEndedSound(g: Setting, w: World, cancelled: bool)
    requires Sound(g, w)
    ensures Sound(g, Next(g, w, EndCouncil(cancelled)))
  {
    hide Projection, Outcomes, Numbered, OneAhead, TurnsSound, NobodyMissed, ArgumentsOf, SeatsInOrder, NoneBroken;
    assert g.roster[..|g.roster|] == g.roster;
    PrefixInOrder(g.roster, |g.roster|);
    if w.control.Recalling? && w.control.requestErrors == [] && w.control.seat == |g.roster| {
      AllAnswered(g.roster, w.control.outcomes, |g.roster|);
    }
  }

  // ---------- Closing ----------

  lemma TerminalSetSound(g: Setting, w: World)
    requires Sound(g, w)
    ensures Sound(g, Next(g, w, SetTerminal))
  {
    hide InStepUnless, Outcomes, TurnsSound, NobodyMissed, StoppedSound;
    if w.control.Stopping? || w.control.Ended? {
      var s' := TerminalSet(w.s, w.control.errors);
      SameRecords(w.s, s', Failing(w));
      SameTurns(w.s, s');
      SameSeats(g, w.s, s');
      NobodyLeft(s');
    }
  }

  lemma EndRecordedSound(g: Setting, w: World, listenerClosed: bool, ew: bool, fw: bool)
    requires Sound(g, w)
    ensures Sound(g, Next(g, w, RecordEnd(listenerClosed, ew, fw)))
  {
    hide InStepUnless, Outcomes, TurnsSound, NobodyMissed, Resolution, ArgumentsOf, SeatsInOrder, EventAppended;
    if w.control.Ending? {
      EventSound(w.s, RunFailed, ew, Failing(w));
      EventSound(w.s, RunFailed, fw, Failing(w));
      EventSound(w.s, RunCompleted(Resolution(w.s.transcript, g.cfg)), true, Failing(w));
      var s' := Next(g, w, RecordEnd(listenerClosed, ew, fw)).s;
      SameArguments(w.s, s');
      if !Failing(w) { Regardless(s'); }
    }
  }

  // ---------- All runs ----------

  lemma NextSound(g: Setting, w: World, a: Action)
    requires Acceptable(g.cfg) && Sound(g, w)
    ensures Sound(g, Next(g, w, a))
  {
    hide Sound, Next;
    match a
    case Submit(role, id, decision, now, tw, ew) => SubmittedSound(g, w, role, id, decision, now, tw, ew);
    case Report(role, id, reason, message, now) => ReportedSound(g, w, role, id, reason, message, now);
    case Fire(turn, error) => FiredSound(g, w, turn, error);
    case Wait(waiter) => WaitedSound(g, w, waiter);
    case TimeOut(request) => NewsSound(g, w, request);
    case HangUp(request) => GoneSound(g, w, request);
    case Notice(request) => NewsSound(g, w, request);
    case Note(kind, ew) => OpenedSound(g, w, kind, ew);
    case BeginTurn(now, promptRendered, cancelled, ew) => BegunSound(g, w, now, promptRendered, cancelled, ew);
    case ReceiveResult => ReceivedSound(g, w);
    case EndTurn => EndedSound(g, w);
    case EnterCouncil => EndedSound(g, w);
    case OpenCouncil(ew) => OpenedSound(g, w, "", ew);
    case RecordSeat(outcome, writes, asked, before, after) => SeatSound(g, w, outcome, writes, asked, before, after);
    case Collect(outcomes, arrivals, cancelled) => CollectedSound(g, w, outcomes, arrivals, cancelled);
    case RecordCollected(writes, before, after) => RecalledSound(g, w, writes, before, after);
    case EndCouncil(cancelled) => CouncilEndedSound(g, w, cancelled);
    case SetTerminal => TerminalSetSound(g, w);
    case RecordEnd(listenerClosed, ew, fw) => EndRecordedSound(g, w, listenerClosed, ew, fw);
  }

  /** The invariant holds in every world that any interleaving of actions reaches. */
  lemma {:induction false} RunSound(g: Setting, actions: seq<Action>)
    requires Acceptable(g.cfg)
    ensures Sound(g, Run(g, actions))
  {
    hide Next, TurnsSound, NobodyMissed, ControlSound, PassedReceived, InStepUnless;
    if actions != [] {
      RunSound(g, actions[..|actions| - 1]);
      NextSound(g, Run(g, actions[..|actions| - 1]), actions[|actions| - 1]);
    } else {
      InitiallySound(g);
    }
  }

  lemma InitiallySound(g: Setting)
    ensures Sound(g, World(INITIAL, Starting(0)))
  {
  }
}
