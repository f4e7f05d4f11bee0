/**
 What the records of a quick procedure say (quick/run.go, quick/lawyerapi.go): which argument is recorded for a
 submission, which votes and removals for the council's answers, and which verdict closes the case.
 */
module QuickRecords {
  import opened QuickRuns
  import opened QuickProcedure
  import opened QuickCouncil
  import opened QuickState
  import opened Results
  import Text

  // ---------- Arguments ----------

  /** The decision is one call of the argument tool with a text that is neither blank nor too long. */
  predicate WellFormed(cfg: Config, d: Decision) {
    && d.fields == 3 && d.payloadFields == 1
    && Text.TrimSpace(d.kind) == "tool" && Text.TrimSpace(d.toolName) == "submit_argument"
    && 0 < |Text.TrimSpace(d.text)| <= cfg.maxArgumentChars
  }

  /** The turn of this role and opportunity is open, and its time is not over. */
  predicate OpenFor(s: State, role: string, id: string, now: nat) {
    && s.active.Some? && s.active.value < |s.turns|
    && var turn := s.turns[s.active.value];
       !turn.completed && turn.role == role && turn.opportunityID == id != "" && now < turn.deadline
  }

  /** The records of s' are those of s and one more. */
  predicate RecordAdded(s: State, s': State, r: Record) {
    && s'.events == s.events + [Event(s.sequence + 1, Recorded(r))]
    && s'.transcript == s'.durable
    && s'.transcript.arguments == s.transcript.arguments + (if r.Argued? then [r.argument] else [])
    && s'.transcript.votes == s.transcript.votes + (if r.Voted? then [r.vote] else [])
    && s'.transcript.failures == s.transcript.failures + (if r.Removed? then [r.failure] else [])
  }

  /** In any run a submission is accepted exactly when it is well formed, in its turn and in time, and can be
      written; the argument recorded then is the submitted text without the white space around it, under the role
      and opportunity of the turn, which ends with success. Otherwise no event is recorded, and the transcript
      changes at most because the event could not follow it. */
  lemma ArgumentRecorded(g: Setting, actions: seq<Action>, role: string, id: string, d: Decision, now: nat, tw: bool, ew: bool)
    requires Acceptable(g.cfg)
    ensures var s, s' := Run(g, actions).s, Run(g, actions + [Submit(role, id, d, now, tw, ew)]).s;
            var complaint := ArgumentSubmitted(s, g.cfg, role, id, d, now, tw, ew).1;
            var accepted := OpenFor(s, role, id, now) && WellFormed(g.cfg, d);
            && (complaint.None? <==> accepted && tw && ew)
            && (complaint.None? ==>
                 && RecordAdded(s, s', Argued(Argument(role, Text.TrimSpace(d.text), id)))
                 && |s'.turns| == |s.turns|
                 && s'.turns[s.active.value] == s.turns[s.active.value].(completed := true, done := [Submitted]))
            && (complaint.Some? ==> s'.events == s.events && (s'.transcript == s.transcript || (accepted && tw && !ew)))
  {
    hide Run, Next, Sound, OpenFor, WellFormed, ArgumentSubmitted, RecordAdded;
    var w, a := Run(g, actions), Submit(role, id, d, now, tw, ew);
    RunSound(g, actions);
    OneMoreStep(g, actions, a);
    SubmissionStep(g, w, a);
    var t := if w.s.active.Some? then w.s.active.value else 0;
    if t < |w.s.turns| && !w.s.turns[t].completed { OpenTurnQuiet(g, w, t); }
    SubmissionRecorded(w.s, g.cfg, role, id, d, now, tw, ew);
  }

  lemma SubmissionStep(g: Setting, w: World, a: Action)
    requires a.Submit?
    ensures Next(g, w, a).s == ArgumentSubmitted(w.s, g.cfg, a.role, a.opportunityID, a.decision, a.now, a.transcriptWritten, a.eventWritten).0
  {
    hide ArgumentSubmitted;
  }

  lemma SubmissionRecorded(s: State, cfg: Config, role: string, id: string, d: Decision, now: nat, tw: bool, ew: bool)
    requires s.active.Some? && s.active.value < |s.turns| && !s.turns[s.active.value].completed ==> s.turns[s.active.value].done == []
    ensures var (s', complaint) := ArgumentSubmitted(s, cfg, role, id, d, now, tw, ew);
            var accepted := OpenFor(s, role, id, now) && WellFormed(cfg, d);
            && (complaint.None? <==> accepted && tw && ew)
            && (complaint.None? ==>
                 && RecordAdded(s, s', Argued(Argument(role, Text.TrimSpace(d.text), id)))
                 && |s'.turns| == |s.turns|
                 && s'.turns[s.active.value] == s.turns[s.active.value].(completed := true, done := [Submitted]))
            && (complaint.Some? ==> s'.events == s.events && (s'.transcript == s.transcript || (accepted && tw && !ew)))
  {
    hide Text.TrimSpace;
  }

  // ---------- Turns and phases ----------

  /** A lawyer's turn is opened exactly when it is due, its prompt can be rendered, the run is not cancelled and the event
      can be written: for the next role, with the whole time and all attempts ahead. */
  lemma TurnOpened(g: Setting, actions: seq<Action>, now: nat, promptRendered: bool, cancelled: bool, ew: bool)
    requires Acceptable(g.cfg)
    ensures var w, w' := Run(g, actions), Run(g, actions + [BeginTurn(now, promptRendered, cancelled, ew)]);
            var n := |w.s.turns|;
            var due := w.control == Starting(n) && n < 2;
            && (|w'.s.turns| == n + 1 <==> due && promptRendered && !cancelled && ew)
            && (|w'.s.turns| != n + 1 ==> w'.s.turns == w.s.turns && w'.s.events == w.s.events)
            && (|w'.s.turns| == n + 1 ==>
                 && var turn := w'.s.turns[n];
                 && turn.role == (if n == 0 then "plaintiff" else "defendant") && turn.opportunityID == "arguments:" + turn.role
                 && turn.deadline == now + g.cfg.timeout && turn.attemptsRemaining == g.cfg.attemptLimit
                 && !turn.completed && turn.done == [] && w'.s.active == Some(n) && w'.control == Awaiting(n)
                 && w'.s.turns[..n] == w.s.turns
                 && w'.s.events == w.s.events + [Event(w.s.sequence + 1, TurnStarted(turn.opportunityID))])
  {
    hide Run, NobodyMissed, InStepUnless, PassedReceived, TurnSound, TurnOf, ArgumentsOf, Outcomes, StoppedSound, RecallingSound;
    RunSound(g, actions);
    OneMoreStep(g, actions, BeginTurn(now, promptRendered, cancelled, ew));
    CouncilFrame(g, Run(g, actions), BeginTurn(now, promptRendered, cancelled, ew));
  }

  /** What everybody is told about where the run stands. */
  predicate PhaseRight(w: World) {
    match w.control
    case Starting(k) => w.s.phase == if k == 0 then "initializing" else "arguments"
    case Awaiting(_) => w.s.phase == "arguments"
    case Holding(_, _) => w.s.phase == "arguments"
    case Stopping(_) => true
    case Ending(errors) => w.s.phase == if errors == [] then "complete" else "failed"
    case Ended(_) => w.s.phase == "complete" || w.s.phase == "failed"
    case Closed(errors) => w.s.phase == if errors == [] then "complete" else "failed"
    case _ => w.s.phase == "council"
  }

  lemma OutsidePhase(g: Setting, w: World, a: Action)
    requires a.Submit? || a.Report? || a.Fire? || a.Wait? || a.TimeOut? || a.HangUp? || a.Notice?
    ensures Next(g, w, a).s.phase == w.s.phase && Next(g, w, a).control == w.control
  {
    hide DecisionComplaint, FailureMessage, WithRecord, Expired;
  }

  lemma LawyerPhase(g: Setting, w: World, a: Action)
    requires PhaseRight(w) && (w.control.Starting? || w.control.Awaiting? || w.control.Holding?)
    ensures PhaseRight(LawyerNext(g, w, a))
  {
  }

  lemma ClosingPhase(g: Setting, w: World, a: Action)
    requires PhaseRight(w) && !w.control.Starting? && !w.control.Awaiting? && !w.control.Holding?
    ensures PhaseRight(ClosingNext(g, w, a))
  {
    hide Resolution;
  }

  lemma MainPhase(g: Setting, w: World, a: Action)
    requires PhaseRight(w)
    ensures PhaseRight(MainNext(g, w, a))
  {
    hide LawyerNext, CouncilNext, ClosingNext;
    if w.control.Starting? || w.control.Awaiting? || w.control.Holding? {
      LawyerPhase(g, w, a);
    } else if w.control.CouncilOpen? || w.control.Voting? || w.control.Collecting? || w.control.Recalling? {
      CouncilFrame(g, w, a);
    } else {
      ClosingPhase(g, w, a);
    }
  }

  /** The phase says where the run stands: before and in the arguments, in the council, complete, or failed with its errors. */
  lemma {:induction false} PhaseTold(g: Setting, actions: seq<Action>)
    ensures PhaseRight(Run(g, actions))
  {
    hide Next, PhaseRight;
    if actions == [] {
      PhaseAtFirst();
    } else {
      var w, a := Run(g, actions[..|actions| - 1]), actions[|actions| - 1];
      PhaseTold(g, actions[..|actions| - 1]);
      PhaseStep(g, w, a);
    }
  }

  lemma PhaseAtFirst()
    ensures PhaseRight(World(INITIAL, Starting(0)))
  {
  }

  lemma PhaseStep(g: Setting, w: World, a: Action)
    requires PhaseRight(w)
    ensures PhaseRight(Next(g, w, a))
  {
    hide MainNext, ArgumentSubmitted, FailureReported, TurnCompleted;
    if a.Submit? || a.Report? || a.Fire? || a.Wait? || a.TimeOut? || a.HangUp? || a.Notice? {
      OutsidePhase(g, w, a);
    } else {
      MainPhase(g, w, a);
    }
  }

  // ---------- News ----------

  /** Nothing that clients are told has changed: the phase, the open turn, who has completed it, and whether the run is over. */
  predicate NoNews(s: State, s': State) {
    && s'.phase == s.phase && s'.active == s.active && s'.terminal == s.terminal && |s'.turns| == |s.turns|
    && forall t :: 0 <= t < |s.turns| ==> s'.turns[t].completed == s.turns[t].completed
  }

  predicate Announced(s: State, s': State) {
    NoNews(s, s') || (s'.version == s.version + 1 && s'.sleeping == {})
  }

  lemma SubmissionNews(s: State, cfg: Config, role: string, id: string, d: Decision, now: nat, tw: bool, ew: bool)
    ensures Announced(s, ArgumentSubmitted(s, cfg, role, id, d, now, tw, ew).0)
  {
    hide DecisionComplaint, RecordKept, TurnCompleted, Expired, Announced, AttemptSpent;
    QuietRecords(s, s);
    if TurnComplaint(s, role, id).None? {
      var t, argument := s.active.value, Argument(role, Text.TrimSpace(d.text), id);
      var (s', error) := RecordKept(s, Argued(argument), tw, ew);
      RecordOnly(s, Argued(argument), tw, ew);
      CompletionNews(s, s, t, TurnFailed(TimedOut(role)));
      CompletionNews(s, s', t, if error.Some? then TurnFailed(error.value) else Submitted);
      AttemptNews(s, t);
    }
  }

  lemma RecordOnly(s: State, r: Record, tw: bool, ew: bool)
    ensures SameButRecords(s, RecordKept(s, r, tw, ew).0)
  {
    hide WithRecord;
  }

  lemma CompletionNews(s: State, s': State, t: nat, result: TurnResult)
    requires SameButRecords(s, s')
    ensures Announced(s, TurnCompleted(s', t, result))
  {
  }

  lemma AttemptNews(s: State, t: nat)
    requires t < |s.turns|
    ensures Announced(s, AttemptSpent(s, t))
  {
  }

  lemma ReportNews(s: State, role: string, id: string, reason: string, message: string, now: nat)
    ensures Announced(s, FailureReported(s, role, id, reason, message, now).0)
  {
    hide FailureMessage, Expired;
  }

  lemma OutsideNews(g: Setting, w: World, a: Action)
    requires a.Submit? || a.Report? || a.Fire? || a.Wait? || a.TimeOut? || a.HangUp? || a.Notice?
    ensures Announced(w.s, Next(g, w, a).s)
  {
    hide ArgumentSubmitted, FailureReported;
    match a
    case Submit(role, id, decision, now, tw, ew) => SubmissionNews(w.s, g.cfg, role, id, decision, now, tw, ew);
    case Report(role, id, reason, message, now) => ReportNews(w.s, role, id, reason, message, now);
    case _ =>
  }

  lemma LawyerNews(g: Setting, w: World, a: Action)
    ensures Announced(w.s, LawyerNext(g, w, a).s)
  {
  }

  lemma ClosingNews(g: Setting, w: World, a: Action)
    ensures Announced(w.s, ClosingNext(g, w, a).s)
  {
    hide Resolution;
  }

  lemma MainNews(g: Setting, w: World, a: Action)
    ensures Announced(w.s, MainNext(g, w, a).s)
  {
    hide LawyerNext, CouncilNext, ClosingNext, Announced;
    LawyerNews(g, w, a);
    ClosingNews(g, w, a);
    CouncilFrame(g, w, a);
    QuietRecords(w.s, CouncilNext(g, w, a).s);
  }

  lemma QuietRecords(s: State, s': State)
    requires SameButRecords(s, s')
    ensures Announced(s, s')
  {
  }

  /** Whatever changes the phase, the open turn, its completion or the end of the run raises the version by one and wakes
      everybody who waits. */
  lemma NewsAnnounced(g: Setting, w: World, a: Action)
    ensures Announced(w.s, Next(g, w, a).s)
  {
    hide MainNext, Announced;
    if a.Submit? || a.Report? || a.Fire? || a.Wait? || a.TimeOut? || a.HangUp? || a.Notice? {
      OutsideNews(g, w, a);
    } else {
      MainNews(g, w, a);
    }
  }

  // ---------- Attempts ----------

  /** The action is a malformed submission for turn t while that is open and its time is not over. */
  predicate Spoils(g: Setting, s: State, a: Action, t: nat) {
    a.Submit? && s.active == Some(t) && OpenFor(s, a.role, a.opportunityID, a.now) && !WellFormed(g.cfg, a.decision)
  }

  /** How many malformed submissions a run has seen for turn t. */
  function Spoiled(g: Setting, actions: seq<Action>, t: nat): nat {
    if actions == [] then 0 else
      var before := actions[..|actions| - 1];
      Spoiled(g, before, t) + if Spoils(g, Run(g, before).s, actions[|actions| - 1], t) then 1 else 0
  }

  /** The turns go on with the attempts they had, except that a malformed submission costs its turn one. */
  predicate AttemptsKept(g: Setting, s: State, a: Action, s': State) {
    && |s.turns| <= |s'.turns|
    && (forall t :: 0 <= t < |s.turns| ==> AttemptKept(g, s, a, s', t))
    && forall t :: |s.turns| <= t < |s'.turns| ==> s'.turns[t].attemptsRemaining == g.cfg.attemptLimit
  }

  predicate AttemptKept(g: Setting, s: State, a: Action, s': State, t: nat) {
    && t < |s.turns| && t < |s'.turns|
    && s'.turns[t].attemptsRemaining == s.turns[t].attemptsRemaining - (if Spoils(g, s, a, t) then 1 else 0)
  }

  lemma SubmissionAttempts(g: Setting, w: World, a: Action)
    requires a.Submit?
    ensures AttemptsKept(g, w.s, a, Next(g, w, a).s)
  {
    hide Next, Spoils;
    forall t | 0 <= t < |w.s.turns| ensures AttemptKept(g, w.s, a, Next(g, w, a).s, t) { SubmissionAttempt(g, w, a, t); }
    SameTurnCount(g, w, a);
  }

  lemma SubmissionAttempt(g: Setting, w: World, a: Action, t: nat)
    requires a.Submit? && t < |w.s.turns|
    ensures AttemptKept(g, w.s, a, Next(g, w, a).s, t)
  {
    hide ArgumentSubmitted, WellFormed;
    SameTurnCount(g, w, a);
    if w.s.active == Some(t) {
      ActiveTurnSpent(w.s, g.cfg, a.role, a.opportunityID, a.decision, a.now, a.transcriptWritten, a.eventWritten);
    } else {
      OtherTurnSame(w.s, g.cfg, a.role, a.opportunityID, a.decision, a.now, a.transcriptWritten, a.eventWritten, t);
    }
  }

  lemma OtherTurnSame(s: State, cfg: Config, role: string, id: string, d: Decision, now: nat, tw: bool, ew: bool, t: nat)
    requires t < |s.turns| && s.active != Some(t)
    ensures var turns' := ArgumentSubmitted(s, cfg, role, id, d, now, tw, ew).0.turns; t < |turns'| && turns'[t] == s.turns[t]
  {
    hide DecisionComplaint, Expired, RecordKept;
    RecordKeepsTurns(s, Argued(Argument(role, Text.TrimSpace(d.text), id)), tw, ew);
  }

  lemma ActiveTurnSpent(s: State, cfg: Config, role: string, id: string, d: Decision, now: nat, tw: bool, ew: bool)
    requires s.active.Some? && s.active.value < |s.turns|
    ensures var t, turns' := s.active.value, ArgumentSubmitted(s, cfg, role, id, d, now, tw, ew).0.turns;
            && t < |turns'|
            && turns'[t].attemptsRemaining == s.turns[t].attemptsRemaining - if OpenFor(s, role, id, now) && !WellFormed(cfg, d) then 1 else 0
  {
    hide RecordKept, DecisionComplaint, WellFormed;
    DecisionJudged(cfg, d);
    RecordKeepsTurns(s, Argued(Argument(role, Text.TrimSpace(d.text), id)), tw, ew);
  }

  lemma DecisionJudged(cfg: Config, d: Decision)
    ensures DecisionComplaint(cfg, d).None? <==> WellFormed(cfg, d)
  {
    hide Text.TrimSpace;
  }

  lemma RecordKeepsTurns(s: State, r: Record, tw: bool, ew: bool)
    ensures RecordKept(s, r, tw, ew).0.turns == s.turns && RecordKept(s, r, tw, ew).0.active == s.active
  {
    hide WithRecord;
  }

  lemma SameTurnCount(g: Setting, w: World, a: Action)
    requires a.Submit?
    ensures |Next(g, w, a).s.turns| == |w.s.turns|
  {
    hide DecisionComplaint, WithRecord, Expired;
  }

  lemma OutsideAttempts(g: Setting, w: World, a: Action)
    requires a.Report? || a.Fire? || a.Wait? || a.TimeOut? || a.HangUp? || a.Notice?
    ensures AttemptsKept(g, w.s, a, Next(g, w, a).s)
  {
    hide FailureMessage, TurnComplaint, Expired;
    forall t | 0 <= t < |w.s.turns| ensures AttemptKept(g, w.s, a, Next(g, w, a).s, t) { }
  }

  lemma LawyerAttempts(g: Setting, w: World, a: Action)
    requires !a.Submit?
    ensures AttemptsKept(g, w.s, a, LawyerNext(g, w, a).s)
  {
    forall t | 0 <= t < |w.s.turns| ensures AttemptKept(g, w.s, a, LawyerNext(g, w, a).s, t) { }
  }

  lemma MainAttempts(g: Setting, w: World, a: Action)
    requires !a.Submit?
    ensures AttemptsKept(g, w.s, a, MainNext(g, w, a).s)
  {
    hide LawyerNext, CouncilNext, ClosingNext;
    CouncilFrame(g, w, a);
    ClosingFrame(g, w, a);
    LawyerAttempts(g, w, a);
    if !w.control.Starting? && !w.control.Awaiting? && !w.control.Holding? {
      forall t | 0 <= t < |w.s.turns| ensures AttemptKept(g, w.s, a, MainNext(g, w, a).s, t) { }
    }
  }

  lemma NextAttempts(g: Setting, w: World, a: Action)
    ensures AttemptsKept(g, w.s, a, Next(g, w, a).s)
  {
    hide AttemptsKept, MainNext, ArgumentSubmitted, FailureReported, TurnCompleted;
    if a.Submit? {
      SubmissionAttempts(g, w, a);
    } else if a.Report? || a.Fire? || a.Wait? || a.TimeOut? || a.HangUp? || a.Notice? {
      OutsideAttempts(g, w, a);
    } else {
      MainAttempts(g, w, a);
    }
  }

  /** In every run each malformed submission costs its turn one attempt, and nothing else does; a turn is over at the
      latest when it has cost as many as there are. */
  lemma {:induction false} AttemptsCounted(g: Setting, actions: seq<Action>, t: nat)
    requires Acceptable(g.cfg)
    ensures var turns := Run(g, actions).s.turns;
            && (t < |turns| ==> turns[t].attemptsRemaining == g.cfg.attemptLimit - Spoiled(g, actions, t))
            && (t < |turns| && Spoiled(g, actions, t) >= g.cfg.attemptLimit ==> turns[t].completed)
            && (t >= |turns| ==> Spoiled(g, actions, t) == 0)
  {
    hide Run, Next, Spoils, ControlSound, InStepUnless, NobodyMissed, TurnOf, PassedReceived;
    if actions == [] {
      NoTurnsYet(g);
    } else {
      var before, a := actions[..|actions| - 1], actions[|actions| - 1];
      AttemptsCounted(g, before, t);
      assert actions == before + [a];
      OneMoreStep(g, before, a);
      NextAttempts(g, Run(g, before), a);
      SpoilsItsTurn(g, Run(g, before).s, a, t);
      var s := Run(g, before).s;
      if t < |s.turns| { assert AttemptKept(g, s, a, Run(g, actions).s, t); }
    }
    RunSound(g, actions);
    if t < |Run(g, actions).s.turns| { assert TurnSound(Run(g, actions).s.turns[t]); }
  }

  lemma SpoilsItsTurn(g: Setting, s: State, a: Action, t: nat)
    ensures Spoils(g, s, a, t) ==> t < |s.turns|
  {
  }

  /** How an open turn fails: with the last malformed submission, by being late, or by the lawyer's own report, whose
      message is the message given, or else the reason, or else a standing one. */
  lemma FailuresTold(g: Setting, actions: seq<Action>, a: Action, t: nat)
    requires Acceptable(g.cfg) && var s := Run(g, actions).s; s.active == Some(t) && t < |s.turns| && !s.turns[t].completed
    requires (a.Submit? || a.Report?) && var turn := Run(g, actions).s.turns[t]; a.role == turn.role && a.opportunityID == turn.opportunityID
    ensures var turn, turns' := Run(g, actions).s.turns[t], Run(g, actions + [a]).s.turns;
            && t < |turns'|
            && (a.now >= turn.deadline ==> turns'[t].done == [TurnFailed(TimedOut(turn.role))])
            && (a.now < turn.deadline && a.Submit? && !WellFormed(g.cfg, a.decision) ==>
                 turns'[t].done == if turn.attemptsRemaining == 1 then [TurnFailed(AttemptsExhausted(turn.role))] else [])
            && (a.now < turn.deadline && a.Report? ==> ReportTold(a.reason, a.message, turn.role, turns'[t].done))
  {
    hide Run, Next, Sound, ArgumentSubmitted, FailureReported, WellFormed, Expired, ReportTold;
    RunSound(g, actions);
    OneMoreStep(g, actions, a);
    OpenTurnQuiet(g, Run(g, actions), t);
    if a.Submit? { SubmissionFails(g, Run(g, actions), a, t); } else { ReportFails(g, Run(g, actions), a, t); }
  }

  lemma OpenTurnQuiet(g: Setting, w: World, t: nat)
    requires Sound(g, w) && t < |w.s.turns| && !w.s.turns[t].completed
    ensures w.s.turns[t].done == [] && w.s.turns[t].opportunityID != "" && w.s.turns[t].attemptsRemaining > 0
  {
    hide ControlSound, NobodyMissed, InStepUnless, PassedReceived;
    assert TurnSound(w.s.turns[t]) && TurnOf(w.s.turns[t], t);
    OpportunityNotEmpty(w.s.turns[t].role);
  }

  lemma SubmissionFails(g: Setting, w: World, a: Action, t: nat)
    requires a.Submit? && w.s.active == Some(t) && t < |w.s.turns| && !w.s.turns[t].completed && w.s.turns[t].done == []
    requires a.role == w.s.turns[t].role && a.opportunityID == w.s.turns[t].opportunityID != ""
    ensures var turn, turns' := w.s.turns[t], Next(g, w, a).s.turns;
            && t < |turns'|
            && (a.now >= turn.deadline ==> turns'[t].done == [TurnFailed(TimedOut(turn.role))])
            && (a.now < turn.deadline && !WellFormed(g.cfg, a.decision) ==>
                 turns'[t].done == if turn.attemptsRemaining == 1 then [TurnFailed(AttemptsExhausted(turn.role))] else [])
  {
    hide Text.TrimSpace, WithRecord;
  }

  lemma ReportFails(g: Setting, w: World, a: Action, t: nat)
    requires a.Report? && w.s.active == Some(t) && t < |w.s.turns| && !w.s.turns[t].completed && w.s.turns[t].done == []
    requires a.role == w.s.turns[t].role && a.opportunityID == w.s.turns[t].opportunityID != ""
    ensures var turn, turns' := w.s.turns[t], Next(g, w, a).s.turns;
            && t < |turns'|
            && (a.now >= turn.deadline ==> turns'[t].done == [TurnFailed(TimedOut(turn.role))])
            && (a.now < turn.deadline ==> ReportTold(a.reason, a.message, turn.role, turns'[t].done))
  {
    hide Text.TrimSpace;
  }

  lemma OpportunityNotEmpty(role: string)
    ensures OpportunityID(role) != ""
  {
  }

  predicate ReportTold(reason: string, message: string, role: string, done: seq<TurnResult>) {
    if Text.TrimSpace(message) != "" then done == [TurnFailed(LawyerFailed(role, Text.TrimSpace(message)))]
    else if Text.TrimSpace(reason) != "" then done == [TurnFailed(LawyerFailed(role, Text.TrimSpace(reason)))]
    else done == [TurnFailed(LawyerFailed(role, "lawyer agent failed"))]
  }

  // ---------- Votes and removals ----------

  /** The votes of the first n seats that cast one, as they cast it. */
  function CastVotes(roster: seq<string>, outcomes: seq<Outcome>, n: nat): seq<Vote>
    requires n <= |roster| == |outcomes|
  {
    if n == 0 then [] else
      CastVotes(roster, outcomes, n - 1) +
      match outcomes[n - 1]
      case Cast(vote, rationale) => [Vote(roster[n - 1], vote, rationale)]
      case _ => []
  }

  /** The members among the first n seats that failed by themselves, with their reasons. */
  function Removals(roster: seq<string>, outcomes: seq<Outcome>, n: nat): seq<MemberFailure>
    requires n <= |roster| == |outcomes|
  {
    if n == 0 then [] else
      Removals(roster, outcomes, n - 1) +
      match outcomes[n - 1]
      case Absent(reason, message) => [MemberFailure(roster[n - 1], reason, message)]
      case _ => []
  }

  /** The transcript has grown by the answers of the first n seats. */
  predicate Took(s: State, s': State, roster: seq<string>, outcomes: seq<Outcome>, n: nat)
    requires n <= |roster| == |outcomes|
  {
    && s'.transcript.votes == s.transcript.votes + CastVotes(roster, outcomes, n)
    && s'.transcript.failures == s.transcript.failures + Removals(roster, outcomes, n)
  }

  lemma TookOne(s: State, s1: State, s': State, roster: seq<string>, outcomes: seq<Outcome>, n: nat)
    requires 0 < n <= |roster| == |outcomes| && Took(s, s1, roster, outcomes, n - 1)
    requires if outcomes[n - 1].Broken? then s' == s1
             else s'.transcript == WithRecord(s1.transcript, SeatRecord(roster[n - 1], outcomes[n - 1]).value)
    ensures Took(s, s', roster, outcomes, n)
  {
  }

  lemma KeptOrNot(s: State, r: Record, writes: (bool, bool), before: bool, after: bool)
    ensures var (s', errors) := OutcomeKept(s, r, writes, before, after);
            && (s'.transcript == s.transcript || s'.transcript == WithRecord(s.transcript, r))
            && (errors == [] ==> s'.transcript == WithRecord(s.transcript, r))
  {
  }

  /** Votes and removals go into the transcript as they were given, in roster order, until the first error. */
  lemma {:induction false} RecordingTakes(s: State, roster: seq<string>, outcomes: seq<Outcome>, writes: Writes, checks: Checks, n: nat)
    requires n <= |roster| == |outcomes|
    ensures var (s', errors) := Recording(s, roster, outcomes, writes, checks, n);
            && (errors == [] ==> Took(s, s', roster, outcomes, n))
            && (exists k: nat :: k <= n && Took(s, s', roster, outcomes, k))
  {
    hide OutcomeKept, WithRecord, Took;
    if n == 0 {
      NothingTaken(s, roster, outcomes);
      assert Took(s, s, roster, outcomes, 0);
    } else {
      RecordingTakes(s, roster, outcomes, writes, checks, n - 1);
      var (s1, errors1) := Recording(s, roster, outcomes, writes, checks, n - 1);
      if errors1 == [] {
        if outcomes[n - 1].Broken? {
          TookOne(s, s1, s1, roster, outcomes, n);
        } else {
          var r := SeatRecord(roster[n - 1], outcomes[n - 1]).value;
          var (s', errors) := OutcomeKept(s1, r, writes(n - 1), checks(2 * n - 1), checks(2 * n));
          KeptOrNot(s1, r, writes(n - 1), checks(2 * n - 1), checks(2 * n));
          if s'.transcript == WithRecord(s1.transcript, r) {
            TookOne(s, s1, s', roster, outcomes, n);
          } else {
            TookSame(s, s1, s', roster, outcomes, n - 1);
          }
        }
      }
    }
  }

  lemma NothingTaken(s: State, roster: seq<string>, outcomes: seq<Outcome>)
    requires |roster| == |outcomes|
    ensures Took(s, s, roster, outcomes, 0)
  {
  }

  lemma TookSame(s: State, s1: State, s': State, roster: seq<string>, outcomes: seq<Outcome>, n: nat)
    requires n <= |roster| == |outcomes| && Took(s, s1, roster, outcomes, n) && s'.transcript == s1.transcript
    ensures Took(s, s', roster, outcomes, n)
  {
  }

  lemma {:induction false} SequentialTakes(s: State, roster: seq<string>, outcomes: seq<Outcome>, writes: Writes, checks: Checks, n: nat)
    requires n <= |roster| == |outcomes|
    ensures var (s', errors) := Sequential(s, roster, outcomes, writes, checks, n);
            && (errors == [] ==> Took(s, s', roster, outcomes, n))
            && (exists k: nat :: k <= n && Took(s, s', roster, outcomes, k))
  {
    hide OutcomeKept, WithRecord, Took;
    if n == 0 {
      NothingTaken(s, roster, outcomes);
      assert Took(s, s, roster, outcomes, 0);
    } else {
      SequentialTakes(s, roster, outcomes, writes, checks, n - 1);
      var (s1, errors1) := Sequential(s, roster, outcomes, writes, checks, n - 1);
      if errors1 == [] && !outcomes[n - 1].Broken? && !checks(3 * n - 3) {
        var r := SeatRecord(roster[n - 1], outcomes[n - 1]).value;
        var (s', errors) := OutcomeKept(s1, r, writes(n - 1), checks(3 * n - 2), checks(3 * n - 1));
        KeptOrNot(s1, r, writes(n - 1), checks(3 * n - 2), checks(3 * n - 1));
        if s'.transcript == WithRecord(s1.transcript, r) {
          TookOne(s, s1, s', roster, outcomes, n);
        } else {
          TookSame(s, s1, s', roster, outcomes, n - 1);
        }
      }
    }
  }

  // ---------- The verdict ----------

  /** The verdicts recorded, in order. */
  function Verdicts(events: seq<Event>): seq<string> {
    if events == [] then [] else
      Verdicts(events[..|events| - 1]) +
      if events[|events| - 1].payload.RunCompleted? then [events[|events| - 1].payload.resolution] else []
  }

  /** At most one event more, and no verdict. */
  predicate NoVerdict(s: State, s': State) {
    && s.events <= s'.events && |s'.events| <= |s.events| + 1
    && (|s'.events| == |s.events| + 1 ==> !s'.events[|s.events|].payload.RunCompleted?)
  }

  lemma SameVerdicts(s: State, s': State)
    requires NoVerdict(s, s')
    ensures Verdicts(s'.events) == Verdicts(s.events)
  {
    if |s'.events| == |s.events| + 1 {
      assert s'.events[..|s.events|] == s.events;
    } else {
      assert s'.events == s.events;
    }
  }

  lemma OutsideNoVerdict(g: Setting, w: World, a: Action)
    requires a.Submit? || a.Report? || a.Fire? || a.Wait? || a.TimeOut? || a.HangUp? || a.Notice?
    ensures NoVerdict(w.s, Next(g, w, a).s)
  {
    hide TurnComplaint, DecisionComplaint, FailureMessage, WithRecord, Expired;
  }

  lemma LawyerNoVerdict(g: Setting, w: World, a: Action)
    ensures NoVerdict(w.s, LawyerNext(g, w, a).s)
  {
  }

  lemma CouncilNoVerdict(g: Setting, w: World, a: Action)
    ensures NoVerdict(w.s, CouncilNext(g, w, a).s)
  {
    hide SeatRecord, WithRecord, Permutation, RequestErrors;
  }

  predicate Completed(c: Control) {
    c == Ended([]) || c == Closed([])
  }

  /** A completed run has recorded one verdict, that of its transcript, as its last event; any other run has recorded none. */
  predicate VerdictStands(cfg: Config, w: World) {
    && Verdicts(w.s.events) == (if Completed(w.control) then [Resolution(w.s.transcript, cfg)] else [])
    && (Completed(w.control) ==>
         w.s.events != [] && w.s.events[|w.s.events| - 1].payload == RunCompleted(Resolution(w.s.transcript, cfg)))
    && ((w.control.Ended? || w.control.Closed?) && !Completed(w.control) ==> FailureStands(w.s, w.control.errors))
  }

  /** The failure is the last event, or one of the errors says that it could not be written. */
  predicate FailureStands(s: State, errors: Errors) {
    EventNotWritten in errors || (s.events != [] && s.events[|s.events| - 1].payload == RunFailed)
  }

  /** Once the run is completed no turn is open any more, and nothing from outside is recorded. */
  lemma NothingMoreRecorded(g: Setting, w: World, a: Action)
    requires a.Submit? || a.Report? || a.Fire? || a.Wait? || a.TimeOut? || a.HangUp? || a.Notice?
    requires w.s.active == None
    ensures var s' := Next(g, w, a).s; s'.events == w.s.events && s'.transcript == w.s.transcript
  {
    hide DecisionComplaint, FailureMessage, RecordKept, Expired;
  }

  lemma OutsideKeepsVerdict(g: Setting, w: World, a: Action)
    requires a.Submit? || a.Report? || a.Fire? || a.Wait? || a.TimeOut? || a.HangUp? || a.Notice?
    requires VerdictStands(g.cfg, w) && (w.control.Ended? || w.control.Closed? ==> w.s.active == None)
    ensures VerdictStands(g.cfg, Next(g, w, a))
  {
    hide Next, Resolution, Verdicts;
    OutsideFrame(g, w, a);
    OutsideNoVerdict(g, w, a);
    SameVerdicts(w.s, Next(g, w, a).s);
    if w.control.Ended? || w.control.Closed? { NothingMoreRecorded(g, w, a); }
  }

  lemma ClosingKeepsVerdict(g: Setting, w: World, a: Action)
    requires VerdictStands(g.cfg, w)
    ensures VerdictStands(g.cfg, ClosingNext(g, w, a))
  {
    hide Resolution, Verdicts;
    if w.control.Ending? && a.RecordEnd? {
      var errors := w.control.errors + CloseError(a.listenerClosed);
      if errors == [] && a.eventWritten {
        OneVerdict(w.s, Resolution(w.s.transcript, g.cfg));
      } else {
        SameVerdicts(w.s, EndRecorded(g.cfg, w.s, errors, a.eventWritten, a.failureWritten).0);
      }
    }
  }

  lemma OneVerdict(s: State, verdict: string)
    ensures Verdicts(EventAppended(s, RunCompleted(verdict), true).events) == Verdicts(s.events) + [verdict]
  {
    var s' := EventAppended(s, RunCompleted(verdict), true);
    assert s'.events[..|s.events|] == s.events;
  }

  lemma MainKeepsVerdict(g: Setting, w: World, a: Action)
    requires VerdictStands(g.cfg, w)
    ensures VerdictStands(g.cfg, MainNext(g, w, a))
  {
    hide LawyerNext, CouncilNext, ClosingNext, Resolution, Verdicts;
    if w.control.Starting? || w.control.Awaiting? || w.control.Holding? {
      LawyerNoVerdict(g, w, a);
      LawyerGoesOn(g, w, a);
      SameVerdicts(w.s, LawyerNext(g, w, a).s);
    } else if w.control.CouncilOpen? || w.control.Voting? || w.control.Collecting? || w.control.Recalling? {
      CouncilNoVerdict(g, w, a);
      CouncilFrame(g, w, a);
      SameVerdicts(w.s, CouncilNext(g, w, a).s);
    } else {
      ClosingKeepsVerdict(g, w, a);
    }
  }

  lemma LawyerGoesOn(g: Setting, w: World, a: Action)
    requires w.control.Starting? || w.control.Awaiting? || w.control.Holding?
    ensures !LawyerNext(g, w, a).control.Ended? && !LawyerNext(g, w, a).control.Closed?
  {
    hide TurnBegun, EventAppended, TurnReceived;
  }

  lemma {:induction false} VerdictKept(g: Setting, actions: seq<Action>)
    requires Acceptable(g.cfg)
    ensures VerdictStands(g.cfg, Run(g, actions))
  {
    hide VerdictStands, Next, Sound;
    if actions == [] {
      NoVerdictYet(g);
    } else {
      var before, a := actions[..|actions| - 1], actions[|actions| - 1];
      VerdictKept(g, before);
      RunSound(g, before);
      NextKeepsVerdict(g, Run(g, before), a);
    }
  }

  lemma NoVerdictYet(g: Setting)
    ensures VerdictStands(g.cfg, World(INITIAL, Starting(0)))
  {
  }

  lemma NextKeepsVerdict(g: Setting, w: World, a: Action)
    requires Sound(g, w) && VerdictStands(g.cfg, w)
    ensures VerdictStands(g.cfg, Next(g, w, a))
  {
    hide VerdictStands, MainNext, InStepUnless, TurnsSound, NobodyMissed, SeatsInOrder, Outcomes, ArgumentsOf, PassedReceived;
    if a.Submit? || a.Report? || a.Fire? || a.Wait? || a.TimeOut? || a.HangUp? || a.Notice? {
      OutsideKeepsVerdict(g, w, a);
    } else {
      MainKeepsVerdict(g, w, a);
    }
  }

  /** A verdict is recorded exactly when a run completes without error, once and as its last event. Every seat is
      recorded then, and the verdict is that of the side with enough votes in the transcript, or that neither has
      them. A run that ends with errors has its failure as the last event, unless that could not be written. */
  lemma VerdictRecorded(g: Setting, actions: seq<Action>)
    requires Acceptable(g.cfg) && |g.roster| == g.cfg.size
    ensures var w := Run(g, actions);
            var demonstrated := HasMajority(w.s.transcript, g.cfg, "demonstrated");
            var notDemonstrated := HasMajority(w.s.transcript, g.cfg, "not_demonstrated");
            && (Completed(w.control) <==> Verdicts(w.s.events) != [])
            && ((w.control.Ended? || w.control.Closed?) && w.control.errors != [] ==>
                 EventNotWritten in w.control.errors || (w.s.events != [] && w.s.events[|w.s.events| - 1].payload == RunFailed))
            && (Completed(w.control) ==>
                 && |w.s.transcript.votes| + |w.s.transcript.failures| == g.cfg.size
                 && !(demonstrated && notDemonstrated)
                 && var verdict := if demonstrated then "demonstrated" else if notDemonstrated then "not_demonstrated" else "no_majority";
                    Verdicts(w.s.events) == [verdict] && w.s.events[|w.s.events| - 1].payload == RunCompleted(verdict))
  {
    hide Run, Resolution, Verdicts, HasMajority, Outcomes, InStep;
    var w := Run(g, actions);
    VerdictKept(g, actions);
    if Completed(w.control) {
      EverySeatRecorded(g, actions);
      OneSideAtMost(w.s.transcript, g.cfg);
    }
  }

  lemma EverySeatRecorded(g: Setting, actions: seq<Action>)
    requires Acceptable(g.cfg) && |g.roster| == g.cfg.size && Completed(Run(g, actions).control)
    ensures var t := Run(g, actions).s.transcript; |t.votes| + |t.failures| == g.cfg.size
  {
    hide Run, Resolution, Outcomes, Projection, TurnsSound, NobodyMissed, PassedReceived, SeatsInOrder, ArgumentsOf, Numbered;
    RunSound(g, actions);
    VerdictAtTheLastSeat(g, actions);
    OutcomesCounted(Run(g, actions).s.events);
  }

  /** A run that is being closed completes exactly when it had no error, its listener closes and the event is written;
      every other outcome adds its reasons to the errors. */
  lemma CompletesExactly(g: Setting, actions: seq<Action>, listenerClosed: bool, ew: bool, fw: bool)
    requires Run(g, actions).control.Ending?
    ensures var errors, c := Run(g, actions).control.errors, Run(g, actions + [RecordEnd(listenerClosed, ew, fw)]).control;
            && c.Ended?
            && (Completed(c) <==> errors == [] && listenerClosed && ew)
            && (errors != [] || !listenerClosed ==>
                 c.errors == errors + (if listenerClosed then [] else [ListenerNotClosed]) + (if ew then [] else [EventNotWritten]))
            && (errors == [] && listenerClosed && !ew ==> c.errors == [EventNotWritten] + (if fw then [] else [EventNotWritten]))
  {
    hide Run, Resolution, EventAppended;
    OneMoreStep(g, actions, RecordEnd(listenerClosed, ew, fw));
  }
}
