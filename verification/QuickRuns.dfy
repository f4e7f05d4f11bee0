/**
 What holds in every run of the quick procedure, whatever the interleaving; and that the councils of QuickCouncil
 are exactly the steps its machine takes.
 */
module QuickRuns {
  import opened QuickProcedure
  import opened QuickCouncil
  import opened QuickState
  import opened Results
  import Text

  // ---------- What the main procedure leaves alone ----------

  predicate SameButRecords(s: State, s': State) {
    s' == s.(transcript := s'.transcript, durable := s'.durable, sequence := s'.sequence, events := s'.events)
  }

  lemma CouncilFrame(g: Setting, w: World, a: Action)
    ensures var w' := CouncilNext(g, w, a);
            && SameButRecords(w.s, w'.s)
            && (w' == w || w'.control.Voting? || w'.control.Collecting? || w'.control.Recalling? || w'.control.Stopping?)
  {
    hide SeatRecord, WithRecord, Permutation, RequestErrors;
  }

  /** Versions do not go back, and sleepers stay unless everybody is woken. */
  predicate NewsKept(s: State, s': State) {
    s'.version >= s.version && (s'.sleeping == {} || s.sleeping <= s'.sleeping)
  }

  predicate TerminalKept(s: State, s': State) {
    s'.terminal == s.terminal && s'.terminalError == s.terminalError
  }

  lemma ClosingFrame(g: Setting, w: World, a: Action)
    ensures ClosingNext(g, w, a).s.turns == w.s.turns && NewsKept(w.s, ClosingNext(g, w, a).s)
  {
    hide Resolution;
  }

  lemma CompletionFrame(s: State, t: nat, result: TurnResult)
    ensures NewsKept(s, TurnCompleted(s, t, result)) && TerminalKept(s, TurnCompleted(s, t, result))
  {
  }

  lemma SubmissionFrame(s: State, cfg: Config, role: string, id: string, d: Decision, now: nat, tw: bool, ew: bool)
    ensures var s' := ArgumentSubmitted(s, cfg, role, id, d, now, tw, ew).0; NewsKept(s, s') && TerminalKept(s, s')
  {
    hide DecisionComplaint, WithRecord;
  }

  lemma ReportFrame(s: State, role: string, id: string, reason: string, message: string, now: nat)
    ensures var s' := FailureReported(s, role, id, reason, message, now).0; NewsKept(s, s') && TerminalKept(s, s')
  {
    hide FailureMessage;
  }

  /** Whatever requests, timers and clients do. */
  lemma OutsideFrame(g: Setting, w: World, a: Action)
    requires a.Submit? || a.Report? || a.Fire? || a.Wait? || a.TimeOut? || a.HangUp? || a.Notice?
    ensures var w' := Next(g, w, a); NewsKept(w.s, w'.s) && TerminalKept(w.s, w'.s) && w'.control == w.control
  {
    hide ArgumentSubmitted, FailureReported, TurnCompleted;
    match a
    case Submit(role, id, decision, now, tw, ew) => SubmissionFrame(w.s, g.cfg, role, id, decision, now, tw, ew);
    case Report(role, id, reason, message, now) => ReportFrame(w.s, role, id, reason, message, now);
    case Fire(turn, error) => CompletionFrame(w.s, turn, TurnFailed(error));
    case _ =>
  }

  lemma MainFrame(g: Setting, w: World, a: Action)
    ensures NewsKept(w.s, MainNext(g, w, a).s)
  {
    hide CouncilNext, ClosingNext;
    CouncilFrame(g, w, a);
    ClosingFrame(g, w, a);
  }

  // ---------- Arguments, seats and the verdict ----------

  /** The council only ever sits with exactly the plaintiff's and then the defendant's argument before it. */
  lemma CouncilHearsBothSides(g: Setting, actions: seq<Action>)
    requires Acceptable(g.cfg)
    requires var c := Run(g, actions).control; c.CouncilOpen? || c.Voting? || c.Collecting? || c.Recalling? || c == Closed([])
    ensures var arguments := Run(g, actions).s.transcript.arguments;
            && |arguments| == 2
            && ArgumentFor(arguments[0], "plaintiff") && ArgumentFor(arguments[1], "defendant")
  {
    hide TurnsSound, NobodyMissed, InStepUnless, PassedReceived, SeatsInOrder, Outcomes;
    RunSound(g, actions);
    var s := Run(g, actions).s;
    assert ArgumentFor(s.transcript.arguments[0], ROLES[0]);
    assert ArgumentFor(s.transcript.arguments[1], ROLES[1]);
  }

  /** However a run goes, seats are recorded in roster order and none of them twice. */
  lemma SeatsOnce(g: Setting, actions: seq<Action>)
    requires Acceptable(g.cfg)
    ensures SeatsInOrder(g.roster, Outcomes(Run(g, actions).s.events))
    ensures Distinct(g.roster) ==> Distinct(Outcomes(Run(g, actions).s.events))
  {
    hide TurnsSound, NobodyMissed, InStepUnless, PassedReceived, SeatsInOrder, Outcomes, ArgumentsOf, Run;
    RunSound(g, actions);
    PrefixInOrder(g.roster, 0);
    assert g.roster[..0] == [];
    var w := Run(g, actions);
    if w.control.Voting? { PrefixInOrder(g.roster, w.control.seat); }
    InOrderOnce(g.roster, Outcomes(w.s.events));
  }

  lemma {:induction false} OutcomesCounted(events: seq<Event>)
    ensures |Outcomes(events)| == |Projection(events).votes| + |Projection(events).failures|
  {
    if events != [] { OutcomesCounted(events[..|events| - 1]); }
  }

  /** As long as records are kept there is a resolution exactly when every seat is recorded. A run completed without
      error has one, its events say the same as its transcript, and that is the one on disk. */
  lemma VerdictAtTheLastSeat(g: Setting, actions: seq<Action>)
    requires Acceptable(g.cfg) && |g.roster| == g.cfg.size
    ensures var w := Run(g, actions);
            && (!Failing(w) ==> InStep(w.s))
            && (InStep(w.s) ==> (Resolution(w.s.transcript, g.cfg) != "" <==> Outcomes(w.s.events) == g.roster))
            && (w.control == Closed([]) ==> Outcomes(w.s.events) == g.roster && w.s.terminal && w.s.terminalError == [])
  {
    hide Resolution, TurnsSound, NobodyMissed, Numbered, Projection, Outcomes, OneAhead, ArgumentsOf, SeatsInOrder, Run, Distinct;
    RunSound(g, actions);
    TerminalAgrees(g, actions);
    SeatsOnce(g, actions);
    var w := Run(g, actions);
    OutcomesCounted(w.s.events);
    InOrderOnce(g.roster, Outcomes(w.s.events));
    if InStep(w.s) { OneSideAtMost(w.s.transcript, g.cfg); }
  }

  lemma {:induction false} TerminalAgrees(g: Setting, actions: seq<Action>)
    ensures var w := Run(g, actions);
            && (w.s.terminal <==> w.control.Ending? || w.control.Ended? || w.control.Closed?)
            && (w.control.Ending? || w.control.Closed? ==> w.s.terminalError == w.control.errors)
  {
    hide Resolution, DecisionComplaint, FailureMessage, SeatRun, OutcomeKept;
    if actions != [] {
      TerminalAgrees(g, actions[..|actions| - 1]);
      TerminalStep(g, Run(g, actions[..|actions| - 1]), actions[|actions| - 1]);
    }
  }

  predicate TerminalRight(w: World) {
    && (w.s.terminal <==> w.control.Ending? || w.control.Ended? || w.control.Closed?)
    && (w.control.Ending? || w.control.Closed? ==> w.s.terminalError == w.control.errors)
  }

  lemma TerminalStep(g: Setting, w: World, a: Action)
    requires TerminalRight(w)
    ensures TerminalRight(Next(g, w, a))
  {
    hide MainNext;
    if a.Submit? || a.Report? || a.Fire? || a.Wait? || a.TimeOut? || a.HangUp? || a.Notice? {
      OutsideFrame(g, w, a);
    } else {
      MainTerminalStep(g, w, a);
    }
  }

  lemma MainTerminalStep(g: Setting, w: World, a: Action)
    requires TerminalRight(w)
    ensures TerminalRight(MainNext(g, w, a))
  {
    hide Resolution, CouncilNext;
    CouncilFrame(g, w, a);
  }

  // ---------- Waiting ----------

  lemma VersionGrows(g: Setting, w: World, a: Action)
    ensures Next(g, w, a).s.version >= w.s.version
  {
    hide MainNext;
    if a.Submit? || a.Report? || a.Fire? || a.Wait? || a.TimeOut? || a.HangUp? || a.Notice? {
      OutsideFrame(g, w, a);
    } else {
      MainFrame(g, w, a);
    }
  }

  /** The run is not over, the version is the one seen, the timer has not fired, and no open turn of the role awaits an
      argument under an opportunity that the request has not seen. */
  predicate NothingFor(s: State, waiter: Waiter) {
    && !s.terminal && s.version == waiter.baseline && waiter.request !in s.timedOut
    && (s.active.Some? && s.active.value < |s.turns| ==>
         var turn := s.turns[s.active.value];
         !turn.completed && turn.role == waiter.role ==> waiter.after == turn.opportunityID != "")
  }

  /** A waiting request stays asleep only while its condition is false, its timer has not fired, and its client is
      there or about to be missed; whatever changes that wakes everybody. */
  lemma NoLostWakeup(g: Setting, actions: seq<Action>, a: Action, waiter: Waiter)
    requires Acceptable(g.cfg) && waiter in Run(g, actions).s.sleeping
    ensures var s := Run(g, actions + [a]).s;
            s.sleeping == {} || (waiter in s.sleeping && NothingFor(s, waiter) && (waiter.request in s.gone ==> waiter.request in s.hangups))
  {
    hide Run, Next, TurnsSound, ControlSound, InStepUnless, PassedReceived;
    RunSound(g, actions + [a]);
    OneMoreStep(g, actions, a);
    SleepersStay(g, Run(g, actions), a);
    var s := Run(g, actions + [a]).s;
    if waiter in s.sleeping { assert Unready(s, waiter); }
  }

  lemma OneMoreStep(g: Setting, actions: seq<Action>, a: Action)
    ensures Run(g, actions + [a]) == Next(g, Run(g, actions), a)
  {
    hide Next;
    assert (actions + [a])[..|actions|] == actions;
  }

  lemma SleepersStay(g: Setting, w: World, a: Action)
    ensures Next(g, w, a).s.sleeping == {} || w.s.sleeping <= Next(g, w, a).s.sleeping
  {
    hide MainNext;
    if a.Submit? || a.Report? || a.Fire? || a.Wait? || a.TimeOut? || a.HangUp? || a.Notice? {
      OutsideFrame(g, w, a);
    } else {
      MainFrame(g, w, a);
    }
  }

  // ---------- Turns ----------

  /** Late news of an earlier turn, or of one already completed, changes nothing: neither a timer or cancellation, nor
      what a lawyer submits or reports under its opportunity. */
  lemma LateNewsIgnored(g: Setting, actions: seq<Action>, turn: nat, a: Action)
    requires Acceptable(g.cfg) && turn < |Run(g, actions).s.turns|
    requires turn < |Run(g, actions).s.turns| - 1 || Run(g, actions).s.turns[turn].completed
    requires match a
             case Fire(t, _) => t == turn
             case Submit(_, opportunityID, _, _, _, _) => opportunityID == Run(g, actions).s.turns[turn].opportunityID
             case Report(_, opportunityID, _, _, _) => opportunityID == Run(g, actions).s.turns[turn].opportunityID
             case _ => false
    ensures Run(g, actions + [a]) == Run(g, actions)
  {
    hide Run, NobodyMissed, ControlSound, InStepUnless, PassedReceived, TurnSound, DecisionComplaint, RecordKept, FailureMessage, Expired;
    RunSound(g, actions);
    OneMoreStep(g, actions, a);
    var s := Run(g, actions).s;
    assert TurnOf(s.turns[turn], turn);
    if s.active.Some? {
      assert TurnOf(s.turns[s.active.value], s.active.value);
      if turn != s.active.value { OpportunitiesDiffer(); }
    }
  }

  lemma OpportunitiesDiffer()
    ensures OpportunityID(ROLES[0]) != OpportunityID(ROLES[1])
  {
    assert OpportunityID(ROLES[0])[10] == 'p' && OpportunityID(ROLES[1])[10] == 'd';
  }

  /** What may happen to a turn: it is completed by one result sent into an empty channel, or a result already
      sent is received. */
  predicate TurnKept(before: Turn, after: seq<Turn>, t: nat) {
    && t < |after| && after[t].role == before.role && after[t].opportunityID == before.opportunityID
    && (before.completed ==> after[t].completed && (after[t].done == before.done || (after[t].done == [] && after[t].received)))
    && (!before.completed && after[t].completed ==> before.done == [] && |after[t].done| == 1)
  }

  lemma CompletionKeepsTurn(s: State, active: nat, result: TurnResult, t: nat)
    requires TurnsSound(s) && t < |s.turns|
    ensures TurnKept(s.turns[t], TurnCompleted(s, active, result).turns, t)
  {
    assert TurnSound(s.turns[t]);
  }

  lemma KeptTurns(s: State, r: Record, tw: bool, ew: bool)
    requires TurnsSound(s)
    ensures RecordKept(s, r, tw, ew).0.turns == s.turns && TurnsSound(RecordKept(s, r, tw, ew).0)
  {
    hide WithRecord;
  }

  lemma AttemptKeepsTurn(s: State, active: nat, t: nat)
    requires TurnsSound(s) && t < |s.turns| && active < |s.turns|
    ensures TurnKept(s.turns[t], AttemptSpent(s, active).turns, t)
  {
    assert TurnSound(s.turns[t]) && TurnSound(s.turns[active]);
  }

  lemma SubmissionKeepsTurn(s: State, cfg: Config, role: string, id: string, d: Decision, now: nat, tw: bool, ew: bool, t: nat)
    requires TurnsSound(s) && t < |s.turns|
    ensures TurnKept(s.turns[t], ArgumentSubmitted(s, cfg, role, id, d, now, tw, ew).0.turns, t)
  {
    hide DecisionComplaint, RecordKept, TurnSound;
    assert TurnSound(s.turns[t]);
    if TurnComplaint(s, role, id).None? {
      var (s', error) := RecordKept(s, Argued(Argument(role, Text.TrimSpace(d.text), id)), tw, ew);
      KeptTurns(s, Argued(Argument(role, Text.TrimSpace(d.text), id)), tw, ew);
      CompletionKeepsTurn(s', s.active.value, Submitted, t);
      if error.Some? { CompletionKeepsTurn(s', s.active.value, TurnFailed(error.value), t); }
      CompletionKeepsTurn(s, s.active.value, TurnFailed(TimedOut(role)), t);
      AttemptKeepsTurn(s, s.active.value, t);
    }
  }

  lemma ReportKeepsTurn(s: State, role: string, id: string, reason: string, message: string, now: nat, t: nat)
    requires TurnsSound(s) && t < |s.turns|
    ensures TurnKept(s.turns[t], FailureReported(s, role, id, reason, message, now).0.turns, t)
  {
    hide FailureMessage;
    assert TurnSound(s.turns[t]);
  }

  lemma LawyerKeepsTurn(g: Setting, w: World, a: Action, t: nat)
    requires TurnsSound(w.s) && t < |w.s.turns|
    ensures TurnKept(w.s.turns[t], LawyerNext(g, w, a).s.turns, t)
  {
    assert TurnSound(w.s.turns[t]);
  }

  lemma MainKeepsTurn(g: Setting, w: World, a: Action, t: nat)
    requires TurnsSound(w.s) && t < |w.s.turns|
    ensures TurnKept(w.s.turns[t], MainNext(g, w, a).s.turns, t)
  {
    hide LawyerNext, CouncilNext, ClosingNext, TurnsSound, TurnKept;
    UntouchedTurn(w.s, t);
    CouncilFrame(g, w, a);
    ClosingFrame(g, w, a);
    LawyerKeepsTurn(g, w, a, t);
  }

  lemma UntouchedTurn(s: State, t: nat)
    requires TurnsSound(s) && t < |s.turns|
    ensures TurnKept(s.turns[t], s.turns, t)
  {
    assert TurnSound(s.turns[t]);
  }

  /** One action: the turn is left alone, or completed by one result sent when its channel was empty. */
  lemma TurnsKept(g: Setting, actions: seq<Action>, a: Action, t: nat)
    requires Acceptable(g.cfg) && t < |Run(g, actions).s.turns|
    ensures TurnKept(Run(g, actions).s.turns[t], Run(g, actions + [a]).s.turns, t)
  {
    hide InStepUnless, NobodyMissed, PassedReceived, ControlSound, TurnSound, TurnOf, ArgumentSubmitted, FailureReported, MainNext,
         TurnCompleted, Run;
    RunSound(g, actions);
    OneMoreStep(g, actions, a);
    var w := Run(g, actions);
    match a
    case Submit(role, id, decision, now, tw, ew) => SubmissionKeepsTurn(w.s, g.cfg, role, id, decision, now, tw, ew, t);
    case Report(role, id, reason, message, now) => ReportKeepsTurn(w.s, role, id, reason, message, now, t);
    case Fire(turn, error) => CompletionKeepsTurn(w.s, turn, TurnFailed(error), t);
    case Wait(_) => UntouchedTurn(w.s, t);
    case TimeOut(_) => UntouchedTurn(w.s, t);
    case HangUp(_) => UntouchedTurn(w.s, t);
    case Notice(_) => UntouchedTurn(w.s, t);
    case _ => MainKeepsTurn(g, w, a, t);
  }

  predicate Complete(s: State, t: nat) {
    t < |s.turns| && s.turns[t].completed
  }

  /** How often turn t has been completed in a run. */
  function Completions(g: Setting, actions: seq<Action>, t: nat): nat {
    if actions == [] then 0 else
      var before := actions[..|actions| - 1];
      Completions(g, before, t) + if Complete(Run(g, actions).s, t) && !Complete(Run(g, before).s, t) then 1 else 0
  }

  /** A turn is completed at most once in a whole run, and exactly once when the main procedure has gone past it:
      it then has received the turn's one result. */
  lemma {:induction false} TurnsCompleteOnce(g: Setting, actions: seq<Action>, t: nat)
    requires Acceptable(g.cfg)
    ensures Completions(g, actions, t) == if Complete(Run(g, actions).s, t) then 1 else 0
    ensures t < Passed(Run(g, actions)) && t < |Run(g, actions).s.turns| ==>
              Completions(g, actions, t) == 1 && Run(g, actions).s.turns[t].received && Run(g, actions).s.turns[t].done == []
  {
    hide Run, Next, ControlSound, InStepUnless, NobodyMissed, TurnOf;
    if actions == [] {
      NoTurnsYet(g);
    } else {
      var before, a := actions[..|actions| - 1], actions[|actions| - 1];
      TurnsCompleteOnce(g, before, t);
      assert actions == before + [a];
      if t < |Run(g, before).s.turns| { TurnsKept(g, before, a, t); }
    }
    RunSound(g, actions);
    if t < |Run(g, actions).s.turns| { assert TurnSound(Run(g, actions).s.turns[t]); }
  }

  lemma NoTurnsYet(g: Setting)
    ensures |Run(g, []).s.turns| == 0
  {
  }

  // ---------- The councils, step by step ----------

  function SeatActions(outcomes: seq<Outcome>, writes: Writes, checks: Checks, n: nat): seq<Action>
    requires n <= |outcomes|
  {
    if n == 0 then [] else
      var i := n - 1;
      SeatActions(outcomes, writes, checks, i) + [RecordSeat(outcomes[i], writes(i), checks(3 * i), checks(3 * i + 1), checks(3 * i + 2))]
  }

  function RecallActions(writes: Writes, checks: Checks, n: nat): seq<Action> {
    if n == 0 then [] else
      var i := n - 1;
      RecallActions(writes, checks, i) + [RecordCollected(writes(i), checks(2 * i + 1), checks(2 * i + 2))]
  }

  lemma LastStep(g: Setting, w: World, actions: seq<Action>, a: Action)
    ensures Steps(g, w, actions + [a]) == Next(g, Steps(g, w, actions), a)
  {
    hide Next;
    assert (actions + [a])[..|actions|] == actions;
  }

  /** A machine that has stopped takes no further council step. */
  lemma StoppedStays(g: Setting, s: State, errors: Errors, a: Action)
    requires a.RecordSeat? || a.RecordCollected? || a.EndCouncil?
    ensures Next(g, World(s, Stopping(errors)), a) == World(s, Stopping(errors))
  {
  }

  lemma SeatStep(g: Setting, s: State, seat: nat, outcome: Outcome, writes: (bool, bool), asked: bool, before: bool, after: bool)
    requires seat < |g.roster|
    ensures var (s', errors) := SeatRun(s, g.roster[seat], outcome, writes, asked, before, after);
            Next(g, World(s, Voting(seat)), RecordSeat(outcome, writes, asked, before, after)) == Continue(s', errors, Voting(seat + 1))
  {
    hide SeatRun;
  }

  lemma SequentialLast(s: State, roster: seq<string>, outcomes: seq<Outcome>, writes: Writes, checks: Checks, i: nat)
    requires i < |roster| == |outcomes|
    ensures var (s', errors) := Sequential(s, roster, outcomes, writes, checks, i);
            Sequential(s, roster, outcomes, writes, checks, i + 1) ==
            if errors != [] then (s', errors)
            else SeatRun(s', roster[i], outcomes[i], writes(i), checks(3 * i), checks(3 * i + 1), checks(3 * i + 2))
  {
    hide SeatRun;
  }

  lemma SeatActionsLast(outcomes: seq<Outcome>, writes: Writes, checks: Checks, i: nat)
    requires i < |outcomes|
    ensures SeatActions(outcomes, writes, checks, i + 1) ==
            SeatActions(outcomes, writes, checks, i) + [RecordSeat(outcomes[i], writes(i), checks(3 * i), checks(3 * i + 1), checks(3 * i + 2))]
  {
  }

  lemma NothingSequential(g: Setting, s: State, outcomes: seq<Outcome>, writes: Writes, checks: Checks)
    requires |g.roster| == |outcomes|
    ensures Sequential(s, g.roster, outcomes, writes, checks, 0) == (s, []) && SeatActions(outcomes, writes, checks, 0) == []
    ensures Steps(g, World(s, Voting(0)), []) == World(s, Voting(0))
  {
  }

  lemma {:induction false} SequentialSteps(g: Setting, s: State, outcomes: seq<Outcome>, writes: Writes, checks: Checks, n: nat)
    requires n <= |g.roster| == |outcomes|
    ensures var (s', errors) := Sequential(s, g.roster, outcomes, writes, checks, n);
            Steps(g, World(s, Voting(0)), SeatActions(outcomes, writes, checks, n)) == World(s', if errors != [] then Stopping(errors) else Voting(n))
  {
    hide SeatRun, Next, Steps, Sequential, SeatActions;
    if n == 0 {
      NothingSequential(g, s, outcomes, writes, checks);
    } else {
      SequentialSteps(g, s, outcomes, writes, checks, n - 1);
      var i := n - 1;
      SequentialLast(s, g.roster, outcomes, writes, checks, i);
      SeatActionsLast(outcomes, writes, checks, i);
      var a := RecordSeat(outcomes[i], writes(i), checks(3 * i), checks(3 * i + 1), checks(3 * i + 2));
      LastStep(g, World(s, Voting(0)), SeatActions(outcomes, writes, checks, i), a);
      var (s1, errors1) := Sequential(s, g.roster, outcomes, writes, checks, i);
      if errors1 != [] {
        StoppedStays(g, s1, errors1, a);
      } else {
        SeatStep(g, s1, i, outcomes[i], writes(i), checks(3 * i), checks(3 * i + 1), checks(3 * i + 2));
      }
    }
  }

  /** Recording after all answers are in: where it stands, as the machine sees it. */
  predicate RecallStands(w: World, s: State, outcomes: seq<Outcome>, requestErrors: Errors, recordErrors: Errors, n: nat) {
    && w.s == s && w.control.Recalling? && w.control.outcomes == outcomes
    && w.control.requestErrors == requestErrors && w.control.recordErrors == recordErrors
    && (recordErrors == [] ==> w.control.seat == n)
  }

  lemma RecallStep(g: Setting, w: World, s: State, outcomes: seq<Outcome>, requestErrors: Errors, i: nat, writes: (bool, bool), before: bool, after: bool)
    requires i < |g.roster| == |outcomes| && RecallStands(w, s, outcomes, requestErrors, [], i)
    ensures var (s', errors) := if outcomes[i].Broken? then (s, []) else OutcomeKept(s, SeatRecord(g.roster[i], outcomes[i]).value, writes, before, after);
            RecallStands(Next(g, w, RecordCollected(writes, before, after)), s', outcomes, requestErrors, errors, i + 1)
  {
    hide OutcomeKept;
  }

  lemma RecallHalted(g: Setting, w: World, writes: (bool, bool), before: bool, after: bool)
    requires w.control.Recalling? && w.control.recordErrors != []
    ensures Next(g, w, RecordCollected(writes, before, after)) == w
  {
  }

  lemma RecordingLast(s: State, roster: seq<string>, outcomes: seq<Outcome>, writes: Writes, checks: Checks, i: nat)
    requires i < |roster| == |outcomes|
    ensures var (s', errors) := Recording(s, roster, outcomes, writes, checks, i);
            Recording(s, roster, outcomes, writes, checks, i + 1) ==
            if errors != [] then (s', errors)
            else if outcomes[i].Broken? then (s', [])
            else OutcomeKept(s', SeatRecord(roster[i], outcomes[i]).value, writes(i), checks(2 * i + 1), checks(2 * i + 2))
  {
    hide OutcomeKept;
  }

  lemma RecallActionsLast(writes: Writes, checks: Checks, i: nat)
    ensures RecallActions(writes, checks, i + 1) == RecallActions(writes, checks, i) + [RecordCollected(writes(i), checks(2 * i + 1), checks(2 * i + 2))]
  {
  }

  lemma NothingRecalled(g: Setting, s: State, outcomes: seq<Outcome>, requestErrors: Errors, writes: Writes, checks: Checks)
    requires |g.roster| == |outcomes|
    ensures Recording(s, g.roster, outcomes, writes, checks, 0) == (s, []) && RecallActions(writes, checks, 0) == []
    ensures Steps(g, World(s, Recalling(0, outcomes, requestErrors, [])), []) == World(s, Recalling(0, outcomes, requestErrors, []))
  {
  }

  lemma {:induction false} RecordingSteps(g: Setting, s: State, outcomes: seq<Outcome>, requestErrors: Errors, writes: Writes, checks: Checks, n: nat)
    requires n <= |g.roster| == |outcomes|
    ensures var (s', errors) := Recording(s, g.roster, outcomes, writes, checks, n);
            RecallStands(Steps(g, World(s, Recalling(0, outcomes, requestErrors, [])), RecallActions(writes, checks, n)), s', outcomes, requestErrors, errors, n)
  {
    hide OutcomeKept, SeatRecord, Next, Steps, Recording, RecallActions;
    if n == 0 {
      NothingRecalled(g, s, outcomes, requestErrors, writes, checks);
    } else {
      RecordingSteps(g, s, outcomes, requestErrors, writes, checks, n - 1);
      var i := n - 1;
      RecordingLast(s, g.roster, outcomes, writes, checks, i);
      RecallActionsLast(writes, checks, i);
      var start := World(s, Recalling(0, outcomes, requestErrors, []));
      var w := Steps(g, start, RecallActions(writes, checks, i));
      LastStep(g, start, RecallActions(writes, checks, i), RecordCollected(writes(i), checks(2 * i + 1), checks(2 * i + 2)));
      var (s1, errors1) := Recording(s, g.roster, outcomes, writes, checks, i);
      if errors1 != [] {
        RecallHalted(g, w, writes(i), checks(2 * i + 1), checks(2 * i + 2));
      } else {
        RecallStep(g, w, s1, outcomes, requestErrors, i, writes(i), checks(2 * i + 1), checks(2 * i + 2));
      }
    }
  }

  lemma CouncilOver(g: Setting, s: State, cancelled: bool)
    ensures Next(g, World(s, Voting(|g.roster|)), EndCouncil(cancelled)) == World(s, Stopping(Cause(cancelled)))
  {
  }

  /** The sequential council is what the machine does from its first seat until it stops, with the same error. */
  lemma SequentialCouncilSteps(g: Setting, s: State, outcomes: seq<Outcome>, writes: Writes, checks: Checks)
    requires |g.roster| == |outcomes|
    ensures var (s', errors) := Sequential(s, g.roster, outcomes, writes, checks, |g.roster|);
            Steps(g, World(s, Voting(0)), SeatActions(outcomes, writes, checks, |g.roster|) + [EndCouncil(checks(3 * |g.roster|))])
            == World(s', Stopping(if errors != [] then errors else Cause(checks(3 * |g.roster|))))
  {
    hide Sequential, SeatActions, Steps, Next;
    SequentialSteps(g, s, outcomes, writes, checks, |g.roster|);
    var (s', errors) := Sequential(s, g.roster, outcomes, writes, checks, |g.roster|);
    if errors != [] {
      StoppedStays(g, s', errors, EndCouncil(checks(3 * |g.roster|)));
    } else {
      CouncilOver(g, s', checks(3 * |g.roster|));
    }
    LastStep(g, World(s, Voting(0)), SeatActions(outcomes, writes, checks, |g.roster|), EndCouncil(checks(3 * |g.roster|)));
  }

  /** The parallel council is what the machine does from the last answer until it stops, with the same errors. */
  lemma ParallelCouncilSteps(g: Setting, s: State, outcomes: seq<Outcome>, arrivals: seq<nat>, writes: Writes, checks: Checks)
    requires |g.roster| == |outcomes| && Permutation(arrivals, |g.roster|)
    ensures var n := |g.roster|;
            var (s', recorded) := Recording(s, g.roster, outcomes, writes, checks, n);
            var collected := Next(g, World(s, Collecting), Collect(outcomes, arrivals, checks(0)));
            Steps(g, collected, RecallActions(writes, checks, n) + [EndCouncil(checks(2 * n + 1))])
            == World(s', Stopping(RequestErrors(g.roster, outcomes, arrivals) + Cause(checks(0)) + recorded + Cause(checks(2 * n + 1))))
  {
    hide Recording, RecallActions, Steps, RequestErrors;
    var requestErrors := RequestErrors(g.roster, outcomes, arrivals) + Cause(checks(0));
    RecordingSteps(g, s, outcomes, requestErrors, writes, checks, |g.roster|);
    LastStep(g, World(s, Recalling(0, outcomes, requestErrors, [])), RecallActions(writes, checks, |g.roster|), EndCouncil(checks(2 * |g.roster| + 1)));
  }
}
