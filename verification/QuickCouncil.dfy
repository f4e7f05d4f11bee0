/**
 Recording what the council answers (quick/run.go): the events and the transcript they describe, and the two ways
 of asking and recording a roster, one member after the other or all at once.
 */
module QuickCouncil {
  import opened QuickState
  import opened Results

  // ---------- What the records say ----------

  /** Events are numbered 1, 2, ... in the order recorded. */
  predicate Numbered(s: State) {
    s.sequence == |s.events| && forall i :: 0 <= i < |s.events| ==> s.events[i].sequence == i + 1
  }

  /** What the events say was recorded. */
  function Projection(events: seq<Event>): Transcript {
    if events == [] then NO_RECORDS else
      var t, p := Projection(events[..|events| - 1]), events[|events| - 1].payload;
      if p.Recorded? then WithRecord(t, p.record) else t
  }

  /** The members of the recorded council outcomes, in order. */
  function Outcomes(events: seq<Event>): seq<string> {
    if events == [] then [] else
      var earlier, p := Outcomes(events[..|events| - 1]), events[|events| - 1].payload;
      if p.Recorded? && !p.record.Argued? then earlier + [MemberOf(p.record)] else earlier
  }

  function MemberOf(r: Record): string {
    match r
    case Argued(_) => ""
    case Voted(vote) => vote.memberID
    case Removed(failure) => failure.memberID
  }

  /** The transcript is one record ahead of the events. */
  ghost predicate OneAhead(s: State) {
    exists r :: s.transcript == WithRecord(Projection(s.events), r)
  }

  /** Memory, disk and events agree. */
  predicate InStep(s: State) {
    Numbered(s) && s.transcript == s.durable == Projection(s.events)
  }

  /** Memory and disk agree; the events do too unless there are errors, and then they lack at most the last record. */
  ghost predicate InStepUnless(s: State, failing: bool) {
    Numbered(s) && s.transcript == s.durable && (s.transcript == Projection(s.events) || (failing && OneAhead(s)))
  }

  lemma AppendedEvent(s: State, payload: Payload, written: bool)
    requires Numbered(s)
    ensures var s' := EventAppended(s, payload, written);
            && Numbered(s')
            && Projection(s'.events) == (if written && payload.Recorded? then WithRecord(Projection(s.events), payload.record) else Projection(s.events))
            && Outcomes(s'.events) == (if written && payload.Recorded? && !payload.record.Argued? then Outcomes(s.events) + [MemberOf(payload.record)]
                                       else Outcomes(s.events))
  {
    var s' := EventAppended(s, payload, written);
    if written {
      assert s'.events[..|s'.events| - 1] == s.events;
    }
  }

  /** A record is either kept in both places, or the run fails: with both unchanged, or the transcript ahead. */
  lemma KeptRecord(s: State, r: Record, transcriptWritten: bool, eventWritten: bool)
    requires InStep(s)
    ensures var (s', error) := RecordKept(s, r, transcriptWritten, eventWritten);
            && Numbered(s') && s'.transcript == s'.durable
            && (error.None? <==> transcriptWritten && eventWritten)
            && (error.None? ==> s'.transcript == WithRecord(s.transcript, r) == Projection(s'.events))
            && (error.Some? ==> s'.events == s.events && (s'.transcript == Projection(s'.events) || OneAhead(s')))
            && Outcomes(s'.events) == (if error.None? && !r.Argued? then Outcomes(s.events) + [MemberOf(r)] else Outcomes(s.events))
            && s' == s.(transcript := s'.transcript, durable := s'.durable, sequence := s'.sequence, events := s'.events)
  {
    hide Projection, Outcomes, Numbered;
    if transcriptWritten {
      var t := WithRecord(s.transcript, r);
      SameNumbers(s, s.(transcript := t, durable := t));
      AppendedEvent(s.(transcript := t, durable := t), Recorded(r), eventWritten);
    }
  }

  lemma SameNumbers(s: State, s': State)
    requires Numbered(s) && s'.sequence == s.sequence && s'.events == s.events
    ensures Numbered(s')
  {
  }

  // ---------- Outcomes ----------

  /** What asking a council member came to; an error that is not the member's own breaks the procedure, and
      may itself come from interrupting the requests. */
  datatype Outcome = Cast(vote: string, rationale: string) | Absent(reason: string, message: string) | Broken(interrupted: bool)

  function SeatRecord(memberID: string, outcome: Outcome): Option<Record> {
    match outcome
    case Cast(vote, rationale) => Some(Voted(Vote(memberID, vote, rationale)))
    case Absent(reason, message) => Some(Removed(MemberFailure(memberID, reason, message)))
    case Broken(_) => None
  }

  /** The seats among the first n whose member answered or failed by itself. */
  function Answered(roster: seq<string>, outcomes: seq<Outcome>, n: nat): seq<string>
    requires n <= |roster| == |outcomes|
  {
    if n == 0 then [] else
      var earlier := Answered(roster, outcomes, n - 1);
      if outcomes[n - 1].Broken? then earlier else earlier + [roster[n - 1]]
  }

  predicate NoneBroken(outcomes: seq<Outcome>) {
    forall i :: 0 <= i < |outcomes| ==> !outcomes[i].Broken?
  }

  lemma {:induction false} AllAnswered(roster: seq<string>, outcomes: seq<Outcome>, n: nat)
    requires n <= |roster| == |outcomes| && NoneBroken(outcomes)
    ensures Answered(roster, outcomes, n) == roster[..n]
  {
    if n > 0 {
      AllAnswered(roster, outcomes, n - 1);
      assert roster[..n] == roster[..n - 1] + [roster[n - 1]];
    }
  }

  /** The members are the answered seats of a prefix of the roster: in roster order, no seat twice. */
  ghost predicate SeatsInOrder(roster: seq<string>, members: seq<string>) {
    exists outcomes, n: nat | n <= |roster| == |outcomes| :: members == Answered(roster, outcomes, n)
  }

  lemma PrefixInOrder(roster: seq<string>, n: nat)
    requires n <= |roster|
    ensures SeatsInOrder(roster, roster[..n])
  {
    var outcomes := seq(|roster|, _ => Cast("", ""));
    AllAnswered(roster, outcomes, n);
    assert roster[..n] == Answered(roster, outcomes, n);
  }

  lemma {:induction false} AnsweredBounds(roster: seq<string>, outcomes: seq<Outcome>, n: nat)
    requires n <= |roster| == |outcomes|
    ensures |Answered(roster, outcomes, n)| <= n
    ensures forall m :: m in Answered(roster, outcomes, n) ==> m in roster[..n]
    ensures |Answered(roster, outcomes, n)| == n ==> Answered(roster, outcomes, n) == roster[..n]
  {
    if n > 0 {
      AnsweredBounds(roster, outcomes, n - 1);
      assert roster[..n] == roster[..n - 1] + [roster[n - 1]];
    }
  }

  /** With distinct members, nobody is recorded twice; as many records as seats means every seat in order. */
  lemma InOrderOnce(roster: seq<string>, members: seq<string>)
    requires SeatsInOrder(roster, members)
    ensures |members| <= |roster|
    ensures |members| == |roster| ==> members == roster
    ensures Distinct(roster) ==> Distinct(members)
  {
    var outcomes, n: nat :| n <= |roster| == |outcomes| && members == Answered(roster, outcomes, n);
    AnsweredBounds(roster, outcomes, n);
    if |members| == |roster| { assert roster[..n] == roster; }
    if Distinct(roster) { AnsweredDistinct(roster, outcomes, n); }
  }

  predicate Distinct(members: seq<string>) {
    forall i, j :: 0 <= i < j < |members| ==> members[i] != members[j]
  }

  lemma {:induction false} AnsweredDistinct(roster: seq<string>, outcomes: seq<Outcome>, n: nat)
    requires n <= |roster| == |outcomes| && Distinct(roster)
    ensures Distinct(Answered(roster, outcomes, n))
  {
    if n > 0 {
      AnsweredDistinct(roster, outcomes, n - 1);
      AnsweredBounds(roster, outcomes, n - 1);
      assert roster[n - 1] !in roster[..n - 1];
    }
  }

  // ---------- Recording one outcome ----------

  function Cause(cancelled: bool): Errors {
    if cancelled then [Cancelled] else []
  }

  /** Recording one outcome, with a look at cancellation before and after; `writes` says whether the transcript and
      the event can be written. */
  function OutcomeKept(s: State, r: Record, writes: (bool, bool), before: bool, after: bool): (State, Errors) {
    if before then (s, [Cancelled]) else
      var (s', error) := RecordKept(s, r, writes.0, writes.1);
      (s', (if error.Some? then [error.value] else []) + Cause(after))
  }

  /** One seat of a sequential run, once its answer is in. */
  function SeatRun(s: State, memberID: string, outcome: Outcome, writes: (bool, bool), asked: bool, before: bool, after: bool): (State, Errors) {
    if asked then (s, [Cancelled])
    else if outcome.Broken? then (s, [MemberBroken(memberID)])
    else OutcomeKept(s, SeatRecord(memberID, outcome).value, writes, before, after)
  }

  /** Only the records change. */
  predicate OnlyRecords(s: State, s': State) {
    s' == s.(transcript := s'.transcript, durable := s'.durable, sequence := s'.sequence, events := s'.events)
    && s'.transcript.arguments == s.transcript.arguments
  }

  /** The seat is recorded without error, or not, or recorded and the cancellation noticed only afterwards. */
  lemma OutcomeKeptSound(s: State, memberID: string, outcome: Outcome, writes: (bool, bool), before: bool, after: bool)
    requires InStep(s) && !outcome.Broken?
    ensures var (s', errors) := OutcomeKept(s, SeatRecord(memberID, outcome).value, writes, before, after);
            && InStepUnless(s', errors != []) && OnlyRecords(s, s')
            && (if errors == [] then Outcomes(s'.events) == Outcomes(s.events) + [memberID]
                else Outcomes(s'.events) == Outcomes(s.events) || Outcomes(s'.events) == Outcomes(s.events) + [memberID])
            && (errors == [] <==> !before && writes == (true, true) && !after)
  {
    hide Projection, Outcomes, Numbered;
    if !before { KeptRecord(s, SeatRecord(memberID, outcome).value, writes.0, writes.1); }
  }

  // ---------- The two councils ----------

  /** Whether the transcript and the event can be written, for each seat. */
  type Writes = nat -> (bool, bool)

  /** Whether the run is found cancelled, at each check. */
  type Checks = nat -> bool

  /** The first n seats one after the other: ask, then record; the first error ends the run. */
  function Sequential(s: State, roster: seq<string>, outcomes: seq<Outcome>, writes: Writes, checks: Checks, n: nat): (State, Errors)
    requires n <= |roster| == |outcomes|
  {
    if n == 0 then (s, []) else
      var i := n - 1;
      var (s', errors) := Sequential(s, roster, outcomes, writes, checks, i);
      if errors != [] then (s', errors)
      else SeatRun(s', roster[i], outcomes[i], writes(i), checks(3 * i), checks(3 * i + 1), checks(3 * i + 2))
  }

  /** The outcomes of the first n seats recorded in roster order once all are in, broken ones left out. */
  function Recording(s: State, roster: seq<string>, outcomes: seq<Outcome>, writes: Writes, checks: Checks, n: nat): (State, Errors)
    requires n <= |roster| == |outcomes|
  {
    if n == 0 then (s, []) else
      var i := n - 1;
      var (s', errors) := Recording(s, roster, outcomes, writes, checks, i);
      if errors != [] then (s', errors)
      else if outcomes[i].Broken? then (s', [])
      else OutcomeKept(s', SeatRecord(roster[i], outcomes[i]).value, writes(i), checks(2 * i + 1), checks(2 * i + 2))
  }

  /** The procedure errors in the order in which the answers arrive; interruptions count only as the first. */
  function RequestErrors(roster: seq<string>, outcomes: seq<Outcome>, arrivals: seq<nat>): Errors
    requires |roster| == |outcomes| && forall k :: 0 <= k < |arrivals| ==> arrivals[k] < |roster|
  {
    if arrivals == [] then [] else
      var earlier, i := RequestErrors(roster, outcomes, arrivals[..|arrivals| - 1]), arrivals[|arrivals| - 1];
      if outcomes[i].Broken? && (earlier == [] || !outcomes[i].interrupted) then earlier + [MemberBroken(roster[i])] else earlier
  }

  /** Every seat answers exactly once. */
  predicate Permutation(arrivals: seq<nat>, n: nat) {
    && |arrivals| == n
    && (forall k :: 0 <= k < n ==> arrivals[k] < n)
    && (forall i :: 0 <= i < n ==> i in arrivals)
  }

  /** Exactly the broken requests make errors: there is one as soon as one of the arrivals is broken. */
  lemma {:induction false} RequestErrorsExactly(roster: seq<string>, outcomes: seq<Outcome>, arrivals: seq<nat>)
    requires |roster| == |outcomes| && forall k :: 0 <= k < |arrivals| ==> arrivals[k] < |roster|
    ensures RequestErrors(roster, outcomes, arrivals) == [] <==> forall k :: 0 <= k < |arrivals| ==> !outcomes[arrivals[k]].Broken?
  {
    if arrivals != [] {
      var front := arrivals[..|arrivals| - 1];
      RequestErrorsExactly(roster, outcomes, front);
      assert forall k :: 0 <= k < |front| ==> arrivals[k] == front[k];
    }
  }

  lemma NoRequestErrors(roster: seq<string>, outcomes: seq<Outcome>, arrivals: seq<nat>)
    requires |roster| == |outcomes| && Permutation(arrivals, |roster|)
    ensures RequestErrors(roster, outcomes, arrivals) == [] <==> NoneBroken(outcomes)
  {
    hide RequestErrors;
    RequestErrorsExactly(roster, outcomes, arrivals);
    if RequestErrors(roster, outcomes, arrivals) == [] {
      forall i | 0 <= i < |outcomes| ensures !outcomes[i].Broken? {
        assert i in arrivals;
      }
    }
  }

  // ---------- What they record ----------

  /** The members recorded since are the answered seats of a prefix of the first n. */
  ghost predicate ExtendedBy(s: State, s': State, roster: seq<string>, outcomes: seq<Outcome>, n: nat)
    requires n <= |roster| == |outcomes|
  {
    exists k: nat | k <= n :: Outcomes(s'.events) == Outcomes(s.events) + Answered(roster, outcomes, k)
  }

  /** Recording after all answers are in, whatever they are, whichever writes fail and whenever the run is found
      cancelled: seats are recorded in order with the broken ones left out, and memory, disk and events agree unless
      the run fails with the transcript one record ahead. */
  lemma {:induction false} RecordingSound(s: State, roster: seq<string>, outcomes: seq<Outcome>, writes: Writes, checks: Checks, n: nat)
    requires n <= |roster| == |outcomes| && InStep(s)
    ensures var (s', errors) := Recording(s, roster, outcomes, writes, checks, n);
            && InStepUnless(s', errors != []) && OnlyRecords(s, s')
            && ExtendedBy(s, s', roster, outcomes, n)
            && (errors == [] ==> Outcomes(s'.events) == Outcomes(s.events) + Answered(roster, outcomes, n))
  {
    hide Projection, Outcomes, Numbered, OutcomeKept, OneAhead, SeatRecord;
    if n > 0 {
      RecordingSound(s, roster, outcomes, writes, checks, n - 1);
      var (s1, errors1) := Recording(s, roster, outcomes, writes, checks, n - 1);
      if errors1 == [] {
        SeatExtends(s, s1, roster, outcomes, n, outcomes[n - 1].Broken?);
        if !outcomes[n - 1].Broken? {
          OutcomeKeptSound(s1, roster[n - 1], outcomes[n - 1], writes(n - 1), checks(2 * n - 1), checks(2 * n));
        }
      }
    } else {
      assert Outcomes(s.events) + Answered(roster, outcomes, 0) == Outcomes(s.events);
    }
  }

  lemma SeatExtends(s: State, s1: State, roster: seq<string>, outcomes: seq<Outcome>, n: nat, skipped: bool)
    requires 0 < n <= |roster| == |outcomes| && skipped == outcomes[n - 1].Broken?
    requires Outcomes(s1.events) == Outcomes(s.events) + Answered(roster, outcomes, n - 1)
    ensures (if skipped then Outcomes(s1.events) else Outcomes(s1.events) + [roster[n - 1]]) == Outcomes(s.events) + Answered(roster, outcomes, n)
  {
    hide Outcomes;
    if !skipped {
      assert Outcomes(s.events) + (Answered(roster, outcomes, n - 1) + [roster[n - 1]]) == Outcomes(s1.events) + [roster[n - 1]];
    }
  }

  /** The same for one seat after the other; a run without errors records every seat. */
  lemma {:induction false} SequentialSound(s: State, roster: seq<string>, outcomes: seq<Outcome>, writes: Writes, checks: Checks, n: nat)
    requires n <= |roster| == |outcomes| && InStep(s)
    ensures var (s', errors) := Sequential(s, roster, outcomes, writes, checks, n);
            && InStepUnless(s', errors != []) && OnlyRecords(s, s')
            && (exists k | 0 <= k <= n :: Outcomes(s'.events) == Outcomes(s.events) + roster[..k])
            && (errors == [] ==> Outcomes(s'.events) == Outcomes(s.events) + roster[..n])
  {
    hide Projection, Outcomes, Numbered, OutcomeKept, OneAhead, SeatRecord;
    if n > 0 {
      SequentialSound(s, roster, outcomes, writes, checks, n - 1);
      var (s1, errors1) := Sequential(s, roster, outcomes, writes, checks, n - 1);
      if errors1 == [] && !outcomes[n - 1].Broken? {
        OutcomeKeptSound(s1, roster[n - 1], outcomes[n - 1], writes(n - 1), checks(3 * n - 2), checks(3 * n - 1));
        assert Outcomes(s1.events) + [roster[n - 1]] == Outcomes(s.events) + roster[..n] by {
          assert roster[..n] == roster[..n - 1] + [roster[n - 1]];
          assert Outcomes(s.events) + (roster[..n - 1] + [roster[n - 1]]) == (Outcomes(s.events) + roster[..n - 1]) + [roster[n - 1]];
        }
      }
    } else {
      assert Outcomes(s.events) + roster[..0] == Outcomes(s.events);
    }
  }

  /** Without procedure errors and cancellation, recording after all answers are in gives exactly what asking
      and recording one seat after the other gives, even when writes fail. */
  lemma {:induction false} RecordingIsSequential(s: State, roster: seq<string>, outcomes: seq<Outcome>, writes: Writes, checks: Checks, n: nat)
    requires n <= |roster| == |outcomes|
    requires NoneBroken(outcomes) && forall t :: !checks(t)
    ensures Recording(s, roster, outcomes, writes, checks, n) == Sequential(s, roster, outcomes, writes, checks, n)
  {
    hide OutcomeKept;
    if n > 0 { RecordingIsSequential(s, roster, outcomes, writes, checks, n - 1); }
  }

  /** Parallel and sequential councils leave the same records and report the same errors, whatever the order of
      arrival, when no procedure error and no cancellation occurs. */
  lemma ParallelAgrees(s: State, roster: seq<string>, results: seq<Outcome>, arrivals: seq<nat>, writes: Writes, checks: Checks)
    requires |results| == |roster| && Permutation(arrivals, |roster|)
    requires NoneBroken(results) && forall t :: !checks(t)
    ensures var (parallelState, recorded) := Recording(s, roster, results, writes, checks, |roster|);
            var (sequentialState, errors) := Sequential(s, roster, results, writes, checks, |roster|);
            && parallelState == sequentialState
            && RequestErrors(roster, results, arrivals) + Cause(checks(0)) + recorded + Cause(checks(2 * |roster| + 1))
               == (if errors != [] then errors else Cause(checks(3 * |roster|)))
  {
    hide Recording, Sequential, RequestErrors;
    NoRequestErrors(roster, results, arrivals);
    RecordingIsSequential(s, roster, results, writes, checks, |roster|);
  }

  lemma {:induction false} SequentialStops(s: State, roster: seq<string>, outcomes: seq<Outcome>, writes: Writes, checks: Checks, k: nat, n: nat)
    requires k <= n <= |roster| == |outcomes| && Sequential(s, roster, outcomes, writes, checks, k).1 != []
    ensures Sequential(s, roster, outcomes, writes, checks, n) == Sequential(s, roster, outcomes, writes, checks, k)
  {
    if k < n { SequentialStops(s, roster, outcomes, writes, checks, k, n - 1); }
  }

  lemma {:induction false} RecordingStops(s: State, roster: seq<string>, outcomes: seq<Outcome>, writes: Writes, checks: Checks, k: nat, n: nat)
    requires k <= n <= |roster| == |outcomes|
    requires k == n || Recording(s, roster, outcomes, writes, checks, k).1 != []
    ensures Recording(s, roster, outcomes, writes, checks, n) == Recording(s, roster, outcomes, writes, checks, k)
  {
    if k < n { RecordingStops(s, roster, outcomes, writes, checks, k, n - 1); }
  }

  // ---------- Which requests are reported ----------

  /** The k-th arrival is reported: it is broken, and not merely interrupted after an earlier one broke. */
  predicate Reported(outcomes: seq<Outcome>, arrivals: seq<nat>, k: nat)
    requires k < |arrivals| && forall j :: 0 <= j < |arrivals| ==> arrivals[j] < |outcomes|
  {
    outcomes[arrivals[k]].Broken? &&
    (outcomes[arrivals[k]].interrupted ==> forall j :: 0 <= j < k ==> !outcomes[arrivals[j]].Broken?)
  }

  /** The positions of the reported arrivals, in order. */
  function ReportedArrivals(outcomes: seq<Outcome>, arrivals: seq<nat>, n: nat): seq<nat>
    requires n <= |arrivals| && forall j :: 0 <= j < |arrivals| ==> arrivals[j] < |outcomes|
  {
    if n == 0 then [] else
      ReportedArrivals(outcomes, arrivals, n - 1) + if Reported(outcomes, arrivals, n - 1) then [n - 1] else []
  }

  /** The errors name the members of these arrivals, one by one. */
  predicate ErrorsName(roster: seq<string>, arrivals: seq<nat>, reported: seq<nat>, errors: Errors) {
    |errors| == |reported| && forall k :: 0 <= k < |reported| ==> ErrorNames(roster, arrivals, reported[k], errors[k])
  }

  predicate ErrorNames(roster: seq<string>, arrivals: seq<nat>, position: nat, error: RunError) {
    position < |arrivals| && arrivals[position] < |roster| && error == MemberBroken(roster[arrivals[position]])
  }

  /** One error for each reported arrival, naming its member, in order of arrival. */
  lemma {:induction false} RequestErrorsAre(roster: seq<string>, outcomes: seq<Outcome>, arrivals: seq<nat>, n: nat)
    requires |roster| == |outcomes| && n <= |arrivals| && forall k :: 0 <= k < |arrivals| ==> arrivals[k] < |roster|
    ensures ErrorsName(roster, arrivals, ReportedArrivals(outcomes, arrivals, n), RequestErrors(roster, outcomes, arrivals[..n]))
  {
    hide ErrorNames, Reported, RequestErrors;
    if n > 0 {
      RequestErrorsAre(roster, outcomes, arrivals, n - 1);
      LastArrival(roster, outcomes, arrivals, n - 1);
    } else {
      NoArrivals(roster, outcomes);
      assert arrivals[..0] == [];
    }
  }

  lemma NoArrivals(roster: seq<string>, outcomes: seq<Outcome>)
    requires |roster| == |outcomes|
    ensures RequestErrors(roster, outcomes, []) == []
  {
  }

  /** The arrival at position k adds its error exactly if it is reported. */
  lemma LastArrival(roster: seq<string>, outcomes: seq<Outcome>, arrivals: seq<nat>, k: nat)
    requires |roster| == |outcomes| && k < |arrivals| && forall j :: 0 <= j < |arrivals| ==> arrivals[j] < |roster|
    ensures var before, after := RequestErrors(roster, outcomes, arrivals[..k]), RequestErrors(roster, outcomes, arrivals[..k + 1]);
            if Reported(outcomes, arrivals, k) then
              |after| == |before| + 1 && after[..|before|] == before && ErrorNames(roster, arrivals, k, after[|before|])
            else after == before
  {
    assert arrivals[..k + 1][..k] == arrivals[..k] && arrivals[..k + 1][k] == arrivals[k];
    EarlierBroken(roster, outcomes, arrivals, k);
  }

  lemma EarlierBroken(roster: seq<string>, outcomes: seq<Outcome>, arrivals: seq<nat>, k: nat)
    requires |roster| == |outcomes| && k <= |arrivals| && forall j :: 0 <= j < |arrivals| ==> arrivals[j] < |roster|
    ensures RequestErrors(roster, outcomes, arrivals[..k]) == [] <==> forall j :: 0 <= j < k ==> !outcomes[arrivals[j]].Broken?
  {
    hide RequestErrors;
    RequestErrorsExactly(roster, outcomes, arrivals[..k]);
    assert forall j :: 0 <= j < k ==> arrivals[..k][j] == arrivals[j];
    if forall j :: 0 <= j < k ==> !outcomes[arrivals[..k][j]].Broken? {
      forall j | 0 <= j < k ensures !outcomes[arrivals[j]].Broken? { assert arrivals[..k][j] == arrivals[j]; }
    }
  }

  // ---------- When a council succeeds ----------

  /** Nothing goes wrong with a seat: no cancellation is found, the member answers or fails by itself, and both writes succeed. */
  predicate SeatClean(outcome: Outcome, writes: (bool, bool), asked: bool, before: bool, after: bool) {
    !asked && !outcome.Broken? && !before && writes == (true, true) && !after
  }

  /** What a seat reports that does not go well: the first thing that went wrong, and a cancellation found afterwards. */
  lemma SeatErrors(s: State, memberID: string, outcome: Outcome, writes: (bool, bool), asked: bool, before: bool, after: bool)
    ensures var errors := SeatRun(s, memberID, outcome, writes, asked, before, after).1;
            && (errors == [] <==> SeatClean(outcome, writes, asked, before, after))
            && (asked ==> errors == [Cancelled])
            && (!asked && outcome.Broken? ==> errors == [MemberBroken(memberID)])
            && (!asked && !outcome.Broken? && before ==> errors == [Cancelled])
            && (!asked && !outcome.Broken? && !before ==>
                 errors == (if !writes.0 then [TranscriptNotWritten] else if !writes.1 then [EventNotWritten] else [])
                           + (if after then [Cancelled] else []))
  {
    hide WithRecord;
  }

  /** One member after the other: no error exactly when nothing goes wrong with any seat. */
  lemma {:induction false} SequentialSucceeds(s: State, roster: seq<string>, outcomes: seq<Outcome>, writes: Writes, checks: Checks, n: nat)
    requires n <= |roster| == |outcomes|
    ensures Sequential(s, roster, outcomes, writes, checks, n).1 == [] <==>
      forall i :: 0 <= i < n ==> SeatClean(outcomes[i], writes(i), checks(3 * i), checks(3 * i + 1), checks(3 * i + 2))
  {
    hide SeatRun, SeatClean;
    if n > 0 {
      var i := n - 1;
      SequentialSucceeds(s, roster, outcomes, writes, checks, i);
      SeatErrors(Sequential(s, roster, outcomes, writes, checks, i).0, roster[i], outcomes[i], writes(i), checks(3 * i), checks(3 * i + 1), checks(3 * i + 2));
    }
  }

  /** Recording after all answers are in: no error exactly when nothing goes wrong with a seat that answered. */
  lemma {:induction false} RecordingSucceeds(s: State, roster: seq<string>, outcomes: seq<Outcome>, writes: Writes, checks: Checks, n: nat)
    requires n <= |roster| == |outcomes|
    ensures Recording(s, roster, outcomes, writes, checks, n).1 == [] <==>
      forall i :: 0 <= i < n && !outcomes[i].Broken? ==> SeatClean(outcomes[i], writes(i), false, checks(2 * i + 1), checks(2 * i + 2))
  {
    hide OutcomeKept, SeatRecord, SeatClean;
    if n > 0 {
      var i := n - 1;
      RecordingSucceeds(s, roster, outcomes, writes, checks, i);
      if !outcomes[i].Broken? {
        SeatErrors(Recording(s, roster, outcomes, writes, checks, i).0, roster[i], outcomes[i], writes(i), false, checks(2 * i + 1), checks(2 * i + 2));
      }
    }
  }
}
