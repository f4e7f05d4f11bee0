/**
 The runner of a quick procedure as it works on its fields. Each method is one locked region and is proved to
 compute the corresponding function of QuickState; the council methods compute the councils of QuickCouncil; and a
 runner driven by any schedule of actions follows the state machine of QuickProcedure.
 */
module QuickRunner {
  import opened QuickCouncil
  import opened QuickProcedure
  import opened QuickState
  import opened Results
  import opened Text

  class Runner {
    const cfg: Config
    const roster: seq<string>
    const parallel: bool
    var phase: string
    var version: nat
    var terminal: bool
    var terminalError: Errors
    var active: Option<nat>
    var turns: seq<Turn>
    var transcript: Transcript
    var durable: Transcript
    var sequence: nat
    var events: seq<Event>
    var sleeping: set<Waiter>
    var timedOut: set<nat>
    var gone: set<nat>
    var hangups: set<nat>

    ghost function View(): State
      reads this
    {
      State(phase, version, terminal, terminalError, active, turns, transcript, durable, sequence, events, sleeping, timedOut,
            gone, hangups)
    }

    ghost function Setup(): Setting {
      Setting(cfg, roster, parallel)
    }

    constructor (cfg: Config, roster: seq<string>, parallel: bool)
      ensures View() == INITIAL && Setup() == Setting(cfg, roster, parallel)
    {
      this.cfg, this.roster, this.parallel := cfg, roster, parallel;
      phase, version, terminal, terminalError := "initializing", 0, false, [];
      active, turns := None, [];
      transcript, durable, sequence, events := NO_RECORDS, NO_RECORDS, 0, [];
      sleeping, timedOut, gone, hangups := {}, {}, {}, {};
    }

    method WakeAll()
      modifies this`sleeping
      ensures View() == Broadcast(old(View()))
    {
      sleeping := {};
    }

    /** One pass of the loop of a waiting request. */
    method Await(w: Waiter) returns (answered: bool)
      modifies this`sleeping
      ensures View() == Waited(old(View()), w)
      ensures answered == (w.request in old(gone) || Ready(old(View()), w))
    {
      if w.request in gone { return true; }
      answered := terminal;
      if !answered && active.Some? && active.value < |turns| {
        var turn := turns[active.value];
        answered := !turn.completed && turn.role == w.role && (w.after == "" || w.after != turn.opportunityID);
      }
      answered := answered || version != w.baseline || w.request in timedOut;
      if !answered { sleeping := sleeping + {w}; }
    }

    method FireTimer(request: nat)
      modifies this`timedOut, this`sleeping
      ensures View() == TimerFired(old(View()), request)
    {
      timedOut := timedOut + {request};
      WakeAll();
    }

    /** The client's departure, and what is done about it once the lock is taken. */
    method LoseClient(request: nat)
      modifies this`gone, this`hangups
      ensures View() == ClientGone(old(View()), request)
    {
      gone, hangups := gone + {request}, hangups + {request};
    }

    method MissClient(request: nat)
      modifies this`hangups, this`sleeping
      ensures View() == ClientMissed(old(View()), request)
    {
      if request in hangups {
        hangups := hangups - {request};
        WakeAll();
      }
    }

    method AppendEvent(payload: Payload, written: bool) returns (error: Option<RunError>)
      modifies this`sequence, this`events
      ensures View() == EventAppended(old(View()), payload, written)
      ensures error == if written then None else Some(EventNotWritten)
    {
      if !written { return Some(EventNotWritten); }
      sequence := sequence + 1;
      events := events + [Event(sequence, payload)];
      return None;
    }

    /** Append to the transcript and write it, taking the record out again if that fails; then the event. */
    method Keep(r: Record, transcriptWritten: bool, eventWritten: bool) returns (error: Option<RunError>)
      modifies this`transcript, this`durable, this`sequence, this`events
      ensures (View(), error) == RecordKept(old(View()), r, transcriptWritten, eventWritten)
    {
      transcript := WithRecord(transcript, r);
      if !transcriptWritten {
        match r {
          case Argued(_) => transcript := transcript.(arguments := transcript.arguments[..|transcript.arguments| - 1]);
          case Voted(_) => transcript := transcript.(votes := transcript.votes[..|transcript.votes| - 1]);
          case Removed(_) => transcript := transcript.(failures := transcript.failures[..|transcript.failures| - 1]);
        }
        assert transcript == old(transcript);
        return Some(TranscriptNotWritten);
      }
      durable := transcript;
      error := AppendEvent(Recorded(r), eventWritten);
    }

    method CompleteTurn(t: nat, result: TurnResult) returns (completed: bool)
      modifies this`turns, this`version, this`sleeping
      ensures View() == TurnCompleted(old(View()), t, result)
      ensures completed == (old(active) == Some(t) && t < |old(turns)| && !old(turns)[t].completed)
    {
      if active != Some(t) || t >= |turns| || turns[t].completed { return false; }
      turns := turns[t := turns[t].(completed := true, done := turns[t].done + [result])];
      version := version + 1;
      WakeAll();
      return true;
    }

    method BeginTurn(role: string, now: nat, promptRendered: bool, cancelled: bool, eventWritten: bool) returns (error: Option<RunError>)
      modifies this
      ensures (View(), error) == TurnBegun(old(View()), cfg, role, now, promptRendered, cancelled, eventWritten)
    {
      if active.Some? && active.value < |turns| && !turns[active.value].completed { return Some(TurnActive); }
      if !promptRendered { return Some(PromptFailed); }
      var turn := Turn(role, OpportunityID(role), now + cfg.timeout, cfg.attemptLimit, false, [], false);
      if cancelled { return Some(Cancelled); }
      error := AppendEvent(TurnStarted(turn.opportunityID), eventWritten);
      if error.Some? { return; }
      phase := "arguments";
      turns, active := turns + [turn], Some(|turns|);
      version := version + 1;
      WakeAll();
    }

    /** The main procedure takes the result out of the turn's channel. */
    method ReceiveResult(t: nat) returns (result: TurnResult)
      requires t < |turns| && turns[t].done != []
      modifies this`turns
      ensures View() == TurnReceived(old(View()), t) && result == old(turns)[t].done[0]
    {
      result := turns[t].done[0];
      turns := turns[t := turns[t].(done := turns[t].done[1..], received := true)];
    }

    method ClearTurn(t: nat)
      modifies this`active, this`version, this`sleeping
      ensures View() == TurnCleared(old(View()), t)
    {
      if active == Some(t) {
        active, version := None, version + 1;
        WakeAll();
      }
    }

    method SubmitArgument(role: string, opportunityID: string, d: Decision, now: nat, transcriptWritten: bool, eventWritten: bool)
      returns (complaint: Option<Complaint>)
      modifies this
      ensures (View(), complaint) == ArgumentSubmitted(old(View()), cfg, role, opportunityID, d, now, transcriptWritten, eventWritten)
    {
      if active.None? || active.value >= |turns| || turns[active.value].completed { return Some(NoActiveTurn); }
      var t := active.value;
      if turns[t].role != role { return Some(OtherRole(turns[t].role)); }
      if opportunityID == "" || opportunityID != turns[t].opportunityID { return Some(StaleOpportunity); }
      if Expired(turns[t], now) {
        var _ := CompleteTurn(t, TurnFailed(TimedOut(role)));
        return Some(Late(TimedOut(role)));
      }
      complaint := DecisionComplaint(cfg, d);
      if complaint.Some? {
        var turn := turns[t].(attemptsRemaining := turns[t].attemptsRemaining - 1);
        turns := turns[t := turn];
        if turn.attemptsRemaining == 0 { var _ := CompleteTurn(t, TurnFailed(AttemptsExhausted(role))); }
        return;
      }
      var error := Keep(Argued(Argument(role, TrimSpace(d.text), opportunityID)), transcriptWritten, eventWritten);
      if error.Some? {
        var _ := CompleteTurn(t, TurnFailed(error.value));
        return Some(NotRecorded(error.value));
      }
      var _ := CompleteTurn(t, Submitted);
      return None;
    }

    method ReportFailure(role: string, opportunityID: string, reason: string, message: string, now: nat)
      returns (complaint: Option<Complaint>)
      modifies this
      ensures (View(), complaint) == FailureReported(old(View()), role, opportunityID, reason, message, now)
    {
      if active.None? || active.value >= |turns| || turns[active.value].completed { return Some(NoActiveTurn); }
      var t := active.value;
      if turns[t].role != role { return Some(OtherRole(turns[t].role)); }
      if opportunityID == "" || opportunityID != turns[t].opportunityID { return Some(StaleOpportunity); }
      if Expired(turns[t], now) {
        var _ := CompleteTurn(t, TurnFailed(TimedOut(role)));
        return Some(Late(TimedOut(role)));
      }
      var _ := CompleteTurn(t, TurnFailed(LawyerFailed(role, FailureMessage(reason, message))));
      return None;
    }

    method EnterCouncil()
      modifies this
      ensures View() == CouncilEntered(old(View()))
    {
      phase, version := "council", version + 1;
      WakeAll();
    }

    method SetTerminal(errors: Errors)
      modifies this
      ensures View() == TerminalSet(old(View()), errors)
    {
      terminal, terminalError := true, errors;
      phase := if errors != [] then "failed" else "complete";
      active, version := None, version + 1;
      WakeAll();
    }

    /** The terminal event; a completion that cannot be written is itself a failure, which is written if it can be. */
    method RecordEnd(errors: Errors, eventWritten: bool, failureWritten: bool) returns (errors': Errors)
      modifies this`sequence, this`events
      ensures (View(), errors') == EndRecorded(cfg, old(View()), errors, eventWritten, failureWritten)
    {
      if errors != [] {
        var error := AppendEvent(RunFailed, eventWritten);
        return errors + ErrorOf(error);
      }
      var votesFor, votesAgainst := CountBoth(transcript.votes);
      var complete := |transcript.votes| + |transcript.failures| == cfg.size;
      var error := AppendEvent(RunCompleted(ResolutionFor(votesFor, votesAgainst, cfg.required, complete)), eventWritten);
      if error.None? { return []; }
      var failureError := AppendEvent(RunFailed, failureWritten);
      return [error.value] + ErrorOf(failureError);
    }

    /** recordCouncilOutcome around recordCouncilVote or recordCouncilFailure. */
    method RecordOutcome(seat: nat, outcome: Outcome, writes: (bool, bool), before: bool, after: bool) returns (errors: Errors)
      requires seat < |roster| && !outcome.Broken?
      modifies this`transcript, this`durable, this`sequence, this`events
      ensures (View(), errors) == OutcomeKept(old(View()), SeatRecord(roster[seat], outcome).value, writes, before, after)
    {
      if before { return [Cancelled]; }
      var error := Keep(SeatRecord(roster[seat], outcome).value, writes.0, writes.1);
      return (if error.Some? then [error.value] else []) + Cause(after);
    }

    /** One member after the other. */
    method RunCouncil(outcomes: seq<Outcome>, writes: Writes, checks: Checks) returns (errors: Errors)
      requires |outcomes| == |roster|
      modifies this`transcript, this`durable, this`sequence, this`events
      ensures var (s, recorded) := Sequential(old(View()), roster, outcomes, writes, checks, |roster|);
              View() == s && errors == if recorded != [] then recorded else Cause(checks(3 * |roster|))
    {
      hide SeatRun;
      ghost var s := View();
      for i := 0 to |roster|
        invariant Sequential(s, roster, outcomes, writes, checks, i) == (View(), [])
      {
        errors := RunSeat(i, outcomes[i], writes(i), checks(3 * i), checks(3 * i + 1), checks(3 * i + 2));
        if errors != [] {
          SequentialStops(s, roster, outcomes, writes, checks, i + 1, |roster|);
          return;
        }
      }
      return Cause(checks(3 * |roster|));
    }

    method RunSeat(i: nat, outcome: Outcome, writes: (bool, bool), asked: bool, before: bool, after: bool) returns (errors: Errors)
      requires i < |roster|
      modifies this`transcript, this`durable, this`sequence, this`events
      ensures (View(), errors) == SeatRun(old(View()), roster[i], outcome, writes, asked, before, after)
    {
      if asked { return [Cancelled]; }
      if outcome.Broken? { return [MemberBroken(roster[i])]; }
      errors := RecordOutcome(i, outcome, writes, before, after);
    }

    /** All members at once: answers come in any order and are recorded in roster order. */
    method RunCouncilParallel(results: seq<Outcome>, arrivals: seq<nat>, writes: Writes, checks: Checks) returns (errors: Errors)
      requires |results| == |roster| && Permutation(arrivals, |roster|)
      modifies this`transcript, this`durable, this`sequence, this`events
      ensures var (s, recorded) := Recording(old(View()), roster, results, writes, checks, |roster|);
              View() == s &&
              errors == RequestErrors(roster, results, arrivals) + Cause(checks(0)) + recorded + Cause(checks(2 * |roster| + 1))
    {
      hide OutcomeKept, SeatRecord;
      var requestErrors, outcomes := CollectOutcomes(results, arrivals);
      requestErrors := requestErrors + Cause(checks(0));
      var recordErrors: Errors := [];
      ghost var s := View();
      var i := 0;
      while i < |roster| && recordErrors == []
        invariant i <= |roster| && outcomes == results
        invariant Recording(s, roster, results, writes, checks, i) == (View(), recordErrors)
      {
        if !outcomes[i].Broken? {
          recordErrors := RecordOutcome(i, outcomes[i], writes(i), checks(2 * i + 1), checks(2 * i + 2));
        }
        i := i + 1;
      }
      RecordingStops(s, roster, results, writes, checks, i, |roster|);
      return requestErrors + recordErrors + Cause(checks(2 * |roster| + 1));
    }

    /** The answers as they arrive, each put in its seat's place. */
    method CollectOutcomes(results: seq<Outcome>, arrivals: seq<nat>) returns (errors: Errors, outcomes: seq<Outcome>)
      requires |results| == |roster| && Permutation(arrivals, |roster|)
      ensures outcomes == results && errors == RequestErrors(roster, results, arrivals)
    {
      errors, outcomes := [], seq(|roster|, i => Broken(true));
      for k := 0 to |arrivals|
        invariant |outcomes| == |roster|
        invariant forall j :: 0 <= j < k ==> outcomes[arrivals[j]] == results[arrivals[j]]
        invariant errors == RequestErrors(roster, results, arrivals[..k])
      {
        assert arrivals[..k + 1][..k] == arrivals[..k];
        var i := arrivals[k];
        outcomes := outcomes[i := results[i]];
        if outcomes[i].Broken? && (errors == [] || !outcomes[i].interrupted) { errors := errors + [MemberBroken(roster[i])]; }
      }
      assert arrivals[..|arrivals|] == arrivals;
      forall i | 0 <= i < |roster| ensures outcomes[i] == results[i] {
        assert i in arrivals;
      }
    }

    // ---------- Driven by a schedule ----------

    /** One action of requests, timers or clients. */
    method Serve(a: Action, ghost c: Control)
      requires a.Submit? || a.Report? || a.Fire? || a.Wait? || a.TimeOut? || a.HangUp? || a.Notice?
      modifies this
      ensures World(View(), c) == Next(Setup(), World(old(View()), c), a)
    {
      match a {
        case Submit(role, id, decision, now, tw, ew) => var _ := SubmitArgument(role, id, decision, now, tw, ew);
        case Report(role, id, reason, message, now) => var _ := ReportFailure(role, id, reason, message, now);
        case Fire(turn, error) => var _ := CompleteTurn(turn, TurnFailed(error));
        case Wait(waiter) => var _ := Await(waiter);
        case TimeOut(request) => FireTimer(request);
        case HangUp(request) => LoseClient(request);
        case Notice(request) => MissClient(request);
      }
    }

    /** One step of the lawyer turns. */
    method StepLawyer(c: Control, a: Action) returns (c': Control)
      modifies this
      ensures World(View(), c') == LawyerNext(Setup(), World(old(View()), c), a)
    {
      hide StartingNext;
      c' := c;
      match c {
        case Starting(k) => c' := StepStart(k, a);
        case Awaiting(k) =>
          if a.ReceiveResult? && k < |turns| && turns[k].done != [] {
            var result := this.ReceiveResult(k);
            c' := Holding(k, result);
          }
        case Holding(k, result) =>
          if a.EndTurn? {
            ClearTurn(k);
            c' := if result.TurnFailed? then Stopping([result.error]) else Starting(k + 1);
          }
        case _ =>
      }
    }

    method StepStart(k: nat, a: Action) returns (c': Control)
      modifies this
      ensures World(View(), c') == StartingNext(Setup(), old(View()), k, a)
    {
      hide Runner.View, TurnBegun, EventAppended, CouncilEntered;
      c' := Starting(k);
      match a {
        case Note(kind, ew) =>
          if k == 0 {
            var error := AppendEvent(OtherEvent(kind), ew);
            if error.Some? { c' := Stopping([error.value]); }
          }
        case BeginTurn(now, promptRendered, cancelled, ew) =>
          if k < |ROLES| {
            var error := this.BeginTurn(ROLES[k], now, promptRendered, cancelled, ew);
            c' := if error.Some? then Stopping([error.value]) else Awaiting(k);
          }
        case EnterCouncil =>
          if k == |ROLES| {
            this.EnterCouncil();
            c' := CouncilOpen;
          }
        case _ =>
      }
    }

    /** One step of the council. */
    method StepCouncil(c: Control, a: Action) returns (c': Control)
      modifies this
      ensures World(View(), c') == CouncilNext(Setup(), World(old(View()), c), a)
    {
      hide VotingNext, RecallingNext, EventAppended, Permutation, RequestErrors, Runner.View;
      c' := c;
      match c {
        case CouncilOpen =>
          if a.OpenCouncil? {
            var error := AppendEvent(CouncilStarted(|roster|), a.eventWritten);
            c' := if error.Some? then Stopping([error.value]) else if parallel then Collecting else Voting(0);
          }
        case Voting(seat) => c' := StepVoting(seat, a);
        case Collecting =>
          if a.Collect? && |a.answers| == |roster| && Permutation(a.arrivals, |roster|) {
            var requestErrors, outcomes := CollectOutcomes(a.answers, a.arrivals);
            c' := Recalling(0, outcomes, requestErrors + Cause(a.cancelled), []);
          }
        case Recalling(seat, outcomes, requestErrors, recordErrors) =>
          c' := StepRecalling(seat, outcomes, requestErrors, recordErrors, a);
        case _ =>
      }
    }

    method StepVoting(seat: nat, a: Action) returns (c': Control)
      modifies this
      ensures World(View(), c') == VotingNext(Setup(), old(View()), seat, a)
    {
      hide SeatRun, Runner.View;
      c' := Voting(seat);
      match a {
        case RecordSeat(outcome, writes, asked, before, after) =>
          if seat < |roster| {
            var errors := RunSeat(seat, outcome, writes, asked, before, after);
            c' := if errors != [] then Stopping(errors) else Voting(seat + 1);
          }
        case EndCouncil(cancelled) =>
          if seat == |roster| { c' := Stopping(Cause(cancelled)); }
        case _ =>
      }
    }

    method StepRecalling(seat: nat, outcomes: seq<Outcome>, requestErrors: Errors, recordErrors: Errors, a: Action) returns (c': Control)
      modifies this
      ensures World(View(), c') == RecallingNext(Setup(), old(View()), seat, outcomes, requestErrors, recordErrors, a)
    {
      hide OutcomeKept, SeatRecord, Runner.View;
      c' := Recalling(seat, outcomes, requestErrors, recordErrors);
      match a {
        case RecordCollected(writes, before, after) =>
          if recordErrors == [] && seat < |roster| && seat < |outcomes| {
            var errors: Errors := [];
            if !outcomes[seat].Broken? { errors := RecordOutcome(seat, outcomes[seat], writes, before, after); }
            c' := Recalling(seat + 1, outcomes, requestErrors, errors);
          }
        case EndCouncil(cancelled) =>
          if seat == |roster| || recordErrors != [] { c' := Stopping(requestErrors + recordErrors + Cause(cancelled)); }
        case _ =>
      }
    }

    /** One step of closing the case. */
    method StepClosing(c: Control, a: Action) returns (c': Control)
      modifies this
      ensures World(View(), c') == ClosingNext(Setup(), World(old(View()), c), a)
    {
      hide EndRecorded, TerminalSet, Runner.View;
      c' := c;
      match c {
        case Stopping(errors) =>
          if a.SetTerminal? {
            this.SetTerminal(errors);
            c' := Ending(errors);
          }
        case Ending(errors) =>
          if a.RecordEnd? {
            var errors' := this.RecordEnd(errors + CloseError(a.listenerClosed), a.eventWritten, a.failureWritten);
            c' := Ended(errors');
          }
        case Ended(errors) =>
          if a.SetTerminal? {
            this.SetTerminal(errors);
            c' := Closed(errors);
          }
        case _ =>
      }
    }

    method Perform(c: Control, a: Action) returns (c': Control)
      modifies this
      ensures World(View(), c') == Next(Setup(), World(old(View()), c), a)
    {
      hide LawyerNext, CouncilNext, ClosingNext, ArgumentSubmitted, FailureReported, TurnCompleted, Waited, Broadcast, Runner.View;
      c' := c;
      if a.Submit? || a.Report? || a.Fire? || a.Wait? || a.TimeOut? || a.HangUp? || a.Notice? {
        Serve(a, c);
      } else if c.Starting? || c.Awaiting? || c.Holding? {
        c' := StepLawyer(c, a);
      } else if c.CouncilOpen? || c.Voting? || c.Collecting? || c.Recalling? {
        c' := StepCouncil(c, a);
      } else {
        c' := StepClosing(c, a);
      }
    }

    /** A fresh runner driven by a schedule ends where the state machine does, so what holds of every run of the
        machine holds of it. */
    method Follow(schedule: seq<Action>) returns (c: Control)
      requires View() == INITIAL
      modifies this
      ensures World(View(), c) == Run(Setup(), schedule)
    {
      hide Next;
      c := Starting(0);
      for i := 0 to |schedule|
        invariant World(View(), c) == Run(Setup(), schedule[..i])
      {
        assert schedule[..i + 1][..i] == schedule[..i];
        c := Perform(c, schedule[i]);
      }
      assert schedule[..|schedule|] == schedule;
    }
  }
}
