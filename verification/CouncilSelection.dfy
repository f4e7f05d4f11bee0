/**
 Seating a council from candidates that may turn out to be unavailable
 (selectAvailableCouncilWithOptions and loadCouncilWithOptions in quick/run.go).
 */
module CouncilSelection {
  import opened CouncilSample
  import opened Endpoints
  import opened Results
  import opened Text

  /** A candidate configuration; `requestEndpoint` and `modelEndpoint` are the endpoints named by its
      request specification and by its model reference, when it has them. */
  datatype CouncilMember = CouncilMember(
    memberID: string,
    requestEndpoint: Option<string>,
    modelEndpoint: Option<string>,
    configuration: string)

  function MemberEndpoint(member: CouncilMember): string {
    if member.requestEndpoint.Some? && Normalize(member.requestEndpoint.value) != "" then
      Normalize(member.requestEndpoint.value)
    else if member.modelEndpoint.Some? then Normalize(member.modelEndpoint.value)
    else ""
  }

  /** What checking a candidate reports. */
  datatype CheckOutcome = Available | Unavailable(cause: string) | CredentialFailure(endpoint: string, cause: string)

  /** The endpoint whose credential is missing, if the outcome says so (CredentialFailureEndpoint). */
  function FailedEndpoint(outcome: CheckOutcome): Option<string> {
    if outcome.CredentialFailure? && Normalize(outcome.endpoint) != "" then Some(Normalize(outcome.endpoint)) else None
  }

  /** Checking a candidate by asking the executor for a client of its endpoint. */
  function CheckEndpoint(endpoint: string, environment: map<string, string>): CheckOutcome {
    match ClientError(endpoint, environment)
    case None => Available
    case Some(Unsupported(name)) => Unavailable("unsupported model endpoint " + name)
    case Some(CredentialRequired(name)) => CredentialFailure(name, "credential is required")
  }

  /** A credential failure raised by the executor for a candidate names that candidate's endpoint. */
  lemma ExecutorNamesOwnEndpoint(member: CouncilMember, environment: map<string, string>)
    requires member.requestEndpoint.Some?
    ensures var failed := FailedEndpoint(CheckEndpoint(member.requestEndpoint.value, environment));
            failed.Some? ==> failed.value == MemberEndpoint(member)
  {
    hide EndpointConfiguration;
    NormalizeIdempotent(member.requestEndpoint.value);
  }

  /** Everything outside the procedure: the availability check (it may answer differently from call to
      call), cancellation, and the two random choices of each draw. */
  datatype Environment = Environment(
    check: (nat, CouncilMember) -> CheckOutcome,
    cancelled: nat -> bool,
    entropy: nat -> (bool, bool))

  /** Credential failures name the endpoint of the candidate that was checked. */
  ghost predicate NamesOwnEndpoint(env: Environment) {
    forall t, m :: FailedEndpoint(env.check(t, m)).Some? ==> FailedEndpoint(env.check(t, m)).value == MemberEndpoint(m)
  }

  ghost predicate RandomnessAvailable(env: Environment) {
    forall t :: env.entropy(t) == (true, true)
  }

  datatype Rejection = Rejection(
    memberID: string,
    unavailable: CouncilMember,
    replacement: Option<CouncilMember>,
    outcome: CheckOutcome)

  datatype SelectionError =
    | BadOptions(error: CouncilSample.Error)
    | Cancelled
    | CouldNotSeat(memberID: string, cause: CouncilSample.Error)
    | CouldNotReplace(memberID: string, attempts: nat, last: CheckOutcome)
    | RejectFailed(outcome: CheckOutcome, error: CouncilSample.Error)
    | Invalid(error: CouncilSample.Error)

  /** The lists the procedure builds, with the candidate index behind each seat, each rejection and each
      check, and the seat (from 0) each rejection was made for. */
  datatype Progress = Progress(
    seated: seq<CouncilMember>,
    rejections: seq<Rejection>,
    available: set<nat>,
    checked: seq<nat>,
    picks: seq<nat>,
    rejected: seq<nat>,
    seatOf: seq<nat>)

  /** Seats are named C1, C2, ... */
  function MemberID(seat: nat): string {
    "C" + Decimal(seat + 1)
  }

  /** The n-th seat's member is C and the number n, counted from 1. */
  lemma MemberIDNumbers(seat: nat)
    ensures |MemberID(seat)| > 1 && MemberID(seat)[0] == 'C' && NumberOf(MemberID(seat)[1..]) == seat + 1
  {
    assert MemberID(seat)[1..] == Decimal(seat + 1);
    DecimalStandsFor(seat + 1);
  }

  lemma MemberIDInjective(a: nat, b: nat)
    requires MemberID(a) == MemberID(b)
    ensures a == b
  {
    assert MemberID(a)[1..] == Decimal(a + 1) && MemberID(b)[1..] == Decimal(b + 1);
    DecimalInjective(a + 1, b + 1);
  }

  ghost predicate Distinct(s: seq<nat>) {
    forall i, j :: 0 <= i < j < |s| ==> s[i] != s[j]
  }

  /** The number of seats given to candidates of an endpoint. */
  function SeatCount(endpoints: seq<Endpoint>, picks: seq<nat>, e: Endpoint): nat
    requires forall k :: 0 <= k < |picks| ==> picks[k] < |endpoints|
  {
    if picks == [] then 0
    else SeatCount(endpoints, picks[..|picks| - 1], e) + if endpoints[picks[|picks| - 1]] == e then 1 else 0
  }

  /** The k-th seat is held by a checked candidate under the k-th name. */
  ghost predicate SeatFilled(c: seq<CouncilMember>, p: Progress, k: nat)
    requires k < |p.picks| == |p.seated|
  {
    p.picks[k] < |c| && p.picks[k] in p.available && p.seated[k] == c[p.picks[k]].(memberID := MemberID(k))
  }

  /** The r-th rejection describes a failed candidate and names the member seated in its place. */
  ghost predicate RejectionLinked(c: seq<CouncilMember>, p: Progress, r: nat)
    requires r < |p.rejected| == |p.rejections| == |p.seatOf|
  {
    && p.rejected[r] < |c|
    && p.rejections[r].memberID == MemberID(p.seatOf[r])
    && p.rejections[r].unavailable == c[p.rejected[r]].(memberID := MemberID(p.seatOf[r]))
    && p.rejections[r].replacement == (if p.seatOf[r] < |p.seated| then Some(p.seated[p.seatOf[r]]) else None)
    && !p.rejections[r].outcome.Available?
  }

  /** Candidate i was itself rejected, or its endpoint lost its credential. */
  ghost predicate Excluded(endpoints: seq<Endpoint>, p: Progress, i: nat)
    requires i < |endpoints|
  {
    || i in p.rejected
    || exists r :: 0 <= r < |p.rejections| && FailedEndpoint(p.rejections[r].outcome) == Some(endpoints[i].name)
  }

  /** What the lists say about one another, about the candidates, and about the environment. */
  ghost predicate Recorded(c: seq<CouncilMember>, p: Progress) {
    && |p.seated| == |p.picks| && |p.rejections| == |p.rejected| == |p.seatOf|
    && (forall k :: 0 <= k < |p.picks| ==> SeatFilled(c, p, k))
    && (forall r :: 0 <= r < |p.rejected| ==> RejectionLinked(c, p, r))
    && Distinct(p.checked) && Distinct(p.rejected)
    && (forall i :: i in p.checked <==> i in p.available || i in p.rejected)
    && (forall i :: !(i in p.available && i in p.rejected))
  }

  /** The selector agrees with the lists. */
  ghost predicate Agrees(initial: State, s: State, p: Progress) {
    && initial.Shaped() && s.Shaped() && s.endpoints == initial.endpoints
    && s.count == initial.count && s.minimum == initial.minimum
    && s.accepted == |p.picks|
    && (forall k :: 0 <= k < |p.picks| ==> p.picks[k] < |s.endpoints|)
    && (forall e :: SeatsCounted(s, p.picks, e))
    && (forall i :: i in p.rejected ==> i < |s.endpoints| && !s.eligible[i])
    && (forall i :: 0 <= i < |s.endpoints| ==> ExclusionExplained(initial, s, p, i))
  }

  ghost predicate SeatsCounted(s: State, picks: seq<nat>, e: Endpoint)
    requires forall k :: 0 <= k < |picks| ==> picks[k] < |s.endpoints|
  {
    s.Seats(e) == SeatCount(s.endpoints, picks, e)
  }

  /** A candidate loses its eligibility only by a rejection on record. */
  ghost predicate ExclusionExplained(initial: State, s: State, p: Progress, i: nat)
    requires initial.Shaped() && s.Shaped() && i < |s.endpoints| == |initial.endpoints|
  {
    initial.eligible[i] && !s.eligible[i] ==> Excluded(s.endpoints, p, i)
  }

  /** The selector itself is in order, and enough endpoints remain. */
  ghost predicate InOrder(s: State) {
    Invariant(s) && s.Enough()
  }

  // ---------- Updates of the lists ----------

  /** Candidate i failed its check for the seat that is being filled. */
  function WithRejection(c: seq<CouncilMember>, p: Progress, i: nat, outcome: CheckOutcome): Progress
    requires i < |c|
  {
    var memberID := MemberID(|p.seated|);
    p.(rejections := p.rejections + [Rejection(memberID, c[i].(memberID := memberID), None, outcome)],
       checked := p.checked + [i],
       rejected := p.rejected + [i],
       seatOf := p.seatOf + [|p.seated|])
  }

  /** Candidate i takes the seat that is being filled, replacing everyone rejected for it. */
  function WithSeat(c: seq<CouncilMember>, p: Progress, i: nat): Progress
    requires i < |c| && |p.rejections| == |p.seatOf|
  {
    var member := c[i].(memberID := MemberID(|p.seated|));
    p.(seated := p.seated + [member],
       picks := p.picks + [i],
       rejections := seq(|p.rejections|, r requires 0 <= r < |p.rejections| =>
         if p.seatOf[r] == |p.seated| then p.rejections[r].(replacement := Some(member)) else p.rejections[r]))
  }

  lemma WithRejectionRecorded(c: seq<CouncilMember>, p: Progress, i: nat, outcome: CheckOutcome)
    requires Recorded(c, p) && i < |c| && i !in p.checked && !outcome.Available?
    ensures Recorded(c, WithRejection(c, p, i, outcome))
  {
    var q := WithRejection(c, p, i, outcome);
    forall k | 0 <= k < |q.picks| ensures SeatFilled(c, q, k) { assert SeatFilled(c, p, k); }
    forall r | 0 <= r < |q.rejected| ensures RejectionLinked(c, q, r) {
      if r < |p.rejected| { assert RejectionLinked(c, p, r); }
    }
  }

  lemma WithSeatRecorded(c: seq<CouncilMember>, p: Progress, i: nat)
    requires Recorded(c, p) && i < |c| && i in p.available
    requires forall r :: 0 <= r < |p.seatOf| ==> p.seatOf[r] <= |p.seated|
    ensures Recorded(c, WithSeat(c, p, i))
  {
    var q := WithSeat(c, p, i);
    forall k | 0 <= k < |q.picks| ensures SeatFilled(c, q, k) {
      if k < |p.picks| { assert SeatFilled(c, p, k); }
    }
    forall r | 0 <= r < |q.rejected| ensures RejectionLinked(c, q, r) { assert RejectionLinked(c, p, r); }
  }

  lemma WithAvailableRecorded(c: seq<CouncilMember>, p: Progress, i: nat)
    requires Recorded(c, p) && i < |c| && i !in p.checked
    ensures Recorded(c, p.(available := p.available + {i}, checked := p.checked + [i]))
  {
    var q := p.(available := p.available + {i}, checked := p.checked + [i]);
    forall k | 0 <= k < |q.picks| ensures SeatFilled(c, q, k) { assert SeatFilled(c, p, k); }
    forall r | 0 <= r < |q.rejected| ensures RejectionLinked(c, q, r) { assert RejectionLinked(c, p, r); }
  }

  lemma {:induction false} SeatCountAppend(endpoints: seq<Endpoint>, picks: seq<nat>, i: nat, e: Endpoint)
    requires forall k :: 0 <= k < |picks| ==> picks[k] < |endpoints|
    requires i < |endpoints|
    ensures SeatCount(endpoints, picks + [i], e) ==
            SeatCount(endpoints, picks, e) + if endpoints[i] == e then 1 else 0
  {
    assert (picks + [i])[..|picks|] == picks;
  }

  lemma AcceptAgrees(initial: State, c: seq<CouncilMember>, s: State, p: Progress, i: nat)
    requires Agrees(initial, s, p) && |p.rejections| == |p.seatOf| && i < |c| == |s.endpoints|
    requires s.current == i
    ensures Agrees(initial, Accepted(s), WithSeat(c, p, i))
  {
    var s', q := Accepted(s), WithSeat(c, p, i);
    forall e ensures SeatsCounted(s', q.picks, e) {
      assert SeatsCounted(s, p.picks, e);
      SeatCountAppend(s.endpoints, p.picks, i, e);
    }
    forall x: nat | x < |s'.endpoints| ensures ExclusionExplained(initial, s', q, x) {
      assert ExclusionExplained(initial, s, p, x);
      if Excluded(s.endpoints, p, x) { KeepExcluded(s.endpoints, p, q, x); }
    }
  }

  lemma StepInOrder(s: State, op: Op, s': State)
    requires InOrder(s) && Step(s, op, s', None)
    ensures InOrder(s')
  {
    StepKeepsInvariant(s, op, s', None);
    StepEnough(s, op, s', None);
  }

  lemma KeepExcluded(endpoints: seq<Endpoint>, p: Progress, q: Progress, x: nat)
    requires x < |endpoints| && Excluded(endpoints, p, x)
    requires forall i :: i in p.rejected ==> i in q.rejected
    requires |p.rejections| <= |q.rejections|
    requires forall r :: 0 <= r < |p.rejections| ==> q.rejections[r].outcome == p.rejections[r].outcome
    ensures Excluded(endpoints, q, x)
  {
    if x !in p.rejected {
      var r :| 0 <= r < |p.rejections| && FailedEndpoint(p.rejections[r].outcome) == Some(endpoints[x].name);
      assert FailedEndpoint(q.rejections[r].outcome) == Some(endpoints[x].name);
    }
  }

  /** The operation that answers a failed check. */
  function Answer(i: nat, outcome: CheckOutcome): Op {
    var failed := FailedEndpoint(outcome);
    if failed.Some? then RejectEndpoint(failed.value) else Reject(i)
  }

  /** A failed check costs the candidate its eligibility, and at most its whole endpoint's. */
  lemma AnswerAgrees(initial: State, c: seq<CouncilMember>, s: State, s': State, p: Progress, i: nat, outcome: CheckOutcome,
                     error: Option<CouncilSample.Error>)
    requires Agrees(initial, s, p) && i < |c| == |s.endpoints|
    requires s.currentPending && s.current == i && s.endpoints[i] != NO_ENDPOINT
    requires FailedEndpoint(outcome).Some? ==>
               Named(FailedEndpoint(outcome).value) == s.endpoints[i] == Endpoint(FailedEndpoint(outcome).value)
    requires Step(s, Answer(i, outcome), s', error)
    ensures Agrees(initial, s', WithRejection(c, p, i, outcome)) && !s'.currentPending
    ensures s'.Shaped() && error == AvailabilityError(s')
    ensures forall x :: 0 <= x < |s'.eligible| && s'.eligible[x] ==> s.eligible[x] && x != i
  {
    hide ExclusionExplained, Excluded, WithoutEndpoint;
    var q := WithRejection(c, p, i, outcome);
    AnswerExcludes(s, i, outcome, s', error);
    forall e ensures SeatsCounted(s', q.picks, e) { assert SeatsCounted(s, p.picks, e); }
    forall x: nat | x < |s'.endpoints| ensures ExclusionExplained(initial, s', q, x) {
      AnswerExplained(initial, c, s, s', p, i, outcome, x);
    }
  }

  lemma AnswerExcludes(s: State, i: nat, outcome: CheckOutcome, s': State, error: Option<CouncilSample.Error>)
    requires s.Shaped() && s.currentPending && s.current == i < |s.endpoints| && s.endpoints[i] != NO_ENDPOINT
    requires FailedEndpoint(outcome).Some? ==> Named(FailedEndpoint(outcome).value) == s.endpoints[i]
    requires Step(s, Answer(i, outcome), s', error)
    ensures s' == s.(eligible := s'.eligible, currentPending := false)
    ensures s'.Shaped() && error == AvailabilityError(s')
    ensures forall x :: 0 <= x < |s.endpoints| ==>
      (s'.eligible[x] <==> s.eligible[x] && if FailedEndpoint(outcome).Some? then s.endpoints[x] != s.endpoints[i] else x != i)
  {
    hide AvailabilityError;
  }

  lemma AnswerExplained(initial: State, c: seq<CouncilMember>, s: State, s': State, p: Progress, i: nat, outcome: CheckOutcome, x: nat)
    requires Agrees(initial, s, p) && i < |c| == |s.endpoints| == |s'.eligible| && x < |s.endpoints|
    requires FailedEndpoint(outcome).Some? ==> s.endpoints[i] == Endpoint(FailedEndpoint(outcome).value)
    requires s' == s.(eligible := s'.eligible, currentPending := false)
    requires forall x :: 0 <= x < |s.endpoints| ==>
      (s'.eligible[x] <==> s.eligible[x] && if FailedEndpoint(outcome).Some? then s.endpoints[x] != s.endpoints[i] else x != i)
    ensures ExclusionExplained(initial, s', WithRejection(c, p, i, outcome), x)
  {
    var q := WithRejection(c, p, i, outcome);
    assert ExclusionExplained(initial, s, p, x);
    if Excluded(s.endpoints, p, x) {
      KeepExcluded(s.endpoints, p, q, x);
    } else if s.eligible[x] && !s'.eligible[x] && x != i {
      assert s.endpoints[x] == s.endpoints[i];
      assert FailedEndpoint(q.rejections[|p.rejections|].outcome) == Some(s.endpoints[x].name);
    }
  }

  // ---------- The procedure ----------

  /** The raw endpoints handed to the selector. */
  function MemberEndpoints(c: seq<CouncilMember>): seq<string> {
    seq(|c|, i requires 0 <= i < |c| => MemberEndpoint(c[i]))
  }

  /** The selector's endpoint of a candidate is the candidate's own, already normalized, endpoint. */
  lemma MemberEndpointNormalized(member: CouncilMember)
    ensures Normalize(MemberEndpoint(member)) == MemberEndpoint(member)
  {
    if member.requestEndpoint.Some? { NormalizeIdempotent(member.requestEndpoint.value); }
    if member.modelEndpoint.Some? { NormalizeIdempotent(member.modelEndpoint.value); }
  }

  ghost predicate FitsPool(c: seq<CouncilMember>, s: State) {
    && s.Shaped() && |c| == |s.endpoints|
    && (forall i :: 0 <= i < |c| ==> CandidateFits(c[i], s.endpoints[i]))
  }

  ghost predicate CandidateFits(member: CouncilMember, e: Endpoint) {
    e != NO_ENDPOINT && e == Named(MemberEndpoint(member)) && e == Endpoint(MemberEndpoint(member))
  }

  function EligibleIndexes(eligible: seq<bool>): set<nat> {
    set i | 0 <= i < |eligible| && eligible[i]
  }

  /** Everything that holds between two draws. */
  ghost predicate Between(c: seq<CouncilMember>, initial: State, s: State, p: Progress) {
    && FitsPool(c, s) && Recorded(c, p) && Agrees(initial, s, p) && InOrder(s) && !s.currentPending
  }

  /** The rejections for the seat being filled are those from position `first` on. */
  ghost predicate CurrentSeat(p: Progress, first: nat) {
    first <= |p.seatOf| && forall r :: 0 <= r < |p.seatOf| ==>
      p.seatOf[r] <= |p.seated| && (p.seatOf[r] == |p.seated| <==> first <= r)
  }

  /** Everything that holds while candidate i is drawn. */
  ghost predicate Drawn(c: seq<CouncilMember>, initial: State, s: State, p: Progress, i: nat) {
    && FitsPool(c, s) && Recorded(c, p) && Agrees(initial, s, p) && InOrder(s)
    && s.currentPending && s.current == i && i < |c| && s.eligible[i] && i !in p.rejected
  }

  lemma BetweenCounts(c: seq<CouncilMember>, initial: State, s: State, p: Progress)
    requires Between(c, initial, s, p)
    ensures |p.rejections| == |p.seatOf| && s.accepted == |p.seated| && s.count == initial.count && s.minimum == initial.minimum && Invariant(s)
  {
  }

  lemma AnswerShrinks(s: State, s': State, i: nat)
    requires |s.eligible| == |s'.eligible| && i < |s.eligible| && s.eligible[i]
    requires forall x :: 0 <= x < |s'.eligible| && s'.eligible[x] ==> s.eligible[x] && x != i
    ensures EligibleIndexes(s'.eligible) < EligibleIndexes(s.eligible)
  {
    assert i in EligibleIndexes(s.eligible) && i !in EligibleIndexes(s'.eligible);
  }

  lemma DrawnAfter(c: seq<CouncilMember>, initial: State, s: State, s': State, p: Progress, i: nat)
    requires Between(c, initial, s, p) && Step(s, Draw, s', None) && s'.current == i
    ensures Drawn(c, initial, s', p, i)
  {
    StepInOrder(s, Draw, s');
    forall e ensures SeatsCounted(s', p.picks, e) { assert SeatsCounted(s, p.picks, e); }
    forall x: nat | x < |s'.endpoints| ensures ExclusionExplained(initial, s', p, x) {
      assert ExclusionExplained(initial, s, p, x);
    }
  }

  /** Nobody is eligible any more, and every exclusion is on record. */
  ghost predicate Exhausted(initial: State, s: State, p: Progress) {
    Agrees(initial, s, p) && EligibleIndexes(s.eligible) == {}
  }

  /** Draws the next candidate. */
  method NextCandidate(selector: Selector, c: seq<CouncilMember>, ghost initial: State, p: Progress, entropy: (bool, bool))
    returns (draw: Result<nat, CouncilSample.Error>)
    requires Between(c, initial, selector.View(), p) && selector.Valid()
    modifies selector
    ensures draw.Success? ==> Drawn(c, initial, selector.View(), p, draw.value)
    ensures draw.Failure? ==> Between(c, initial, selector.View(), p)
    ensures draw.Failure? && entropy == (true, true) && (selector.count > 0 ==> selector.accepted < selector.count) ==>
              Exhausted(initial, selector.View(), p)
    ensures selector.accepted == old(selector.accepted) && selector.eligible[..] == old(selector.eligible[..])
  {
    ghost var s := selector.View();
    draw := selector.Draw(entropy.0, entropy.1);
    if draw.Success? {
      DrawnAfter(c, initial, s, selector.View(), p, draw.value);
    } else if draw.error == NoCandidateRemains {
      NobodyEligible(s);
    }
  }

  lemma NobodyEligible(s: State)
    requires s.Shaped() && s.EligibleEndpoints() == {}
    ensures EligibleIndexes(s.eligible) == {}
  {
    assert forall i :: 0 <= i < |s.eligible| && s.eligible[i] ==> s.endpoints[i] in s.EligibleEndpoints();
  }

  lemma RejectionCurrentSeat(c: seq<CouncilMember>, p: Progress, i: nat, outcome: CheckOutcome, first: nat)
    requires i < |c| && CurrentSeat(p, first)
    ensures CurrentSeat(WithRejection(c, p, i, outcome), first)
  {
  }

  lemma SeatCurrentSeat(c: seq<CouncilMember>, p: Progress, i: nat, first: nat)
    requires i < |c| && |p.rejections| == |p.seatOf| && CurrentSeat(p, first)
    ensures CurrentSeat(WithSeat(c, p, i), |p.seatOf|)
  {
  }

  /** Refusing a drawn candidate leaves everything in place for the next draw, with fewer candidates. */
  lemma RefusedBetween(c: seq<CouncilMember>, initial: State, s: State, s': State, p: Progress, i: nat, outcome: CheckOutcome)
    requires Drawn(c, initial, s, p, i) && i !in p.checked && !outcome.Available?
    requires FailedEndpoint(outcome).Some? ==> FailedEndpoint(outcome).value == MemberEndpoint(c[i])
    requires Step(s, Answer(i, outcome), s', None)
    ensures Between(c, initial, s', WithRejection(c, p, i, outcome))
    ensures EligibleIndexes(s'.eligible) < EligibleIndexes(s.eligible) && s'.accepted == s.accepted
  {
    WithRejectionRecorded(c, p, i, outcome);
    assert CandidateFits(c[i], s.endpoints[i]);
    StepInOrder(s, Answer(i, outcome), s');
    AnswerAgrees(initial, c, s, s', p, i, outcome, None);
    AnswerShrinks(s, s', i);
    assert FitsPool(c, s');
  }

  /** A rejection that the selector refuses leaves too few endpoints: used and eligible ones together are fewer
      than required. */
  ghost predicate Unfillable(initial: State, s: State, p: Progress, error: Option<SelectionError>) {
    error.Some? && error.value.RejectFailed? ==>
      error.value.error == TooFewEndpointsRemain && Agrees(initial, s, p) && s.Shaped() && !s.Enough()
  }

  lemma RefusalFails(c: seq<CouncilMember>, initial: State, s: State, s': State, p: Progress, i: nat, outcome: CheckOutcome,
                     error: Option<CouncilSample.Error>)
    requires Drawn(c, initial, s, p, i) && i !in p.checked && !outcome.Available? && error.Some?
    requires FailedEndpoint(outcome).Some? ==> FailedEndpoint(outcome).value == MemberEndpoint(c[i])
    requires Step(s, Answer(i, outcome), s', error)
    ensures Unfillable(initial, s', WithRejection(c, p, i, outcome), Some(RejectFailed(outcome, error.value)))
  {
    hide Agrees, WithRejection;
    assert CandidateFits(c[i], s.endpoints[i]);
    AnswerAgrees(initial, c, s, s', p, i, outcome, error);
  }

  // ---------- What the environment was asked ----------

  /** A check of a candidate for a seat, and when it was made. */
  datatype Check = Check(time: nat, candidate: nat, seat: nat)

  /** All checks, the looks at cancellation with which seats begin, and all looks at cancellation. */
  datatype Trace = Trace(checks: seq<Check>, begun: seq<nat>, looks: seq<nat>)

  const NOTHING_ASKED := Trace([], [], [])

  function AnswerTo(c: seq<CouncilMember>, env: Environment, check: Check): CheckOutcome
    requires check.candidate < |c|
  {
    env.check(check.time, c[check.candidate].(memberID := MemberID(check.seat)))
  }

  /** The k-th candidate checked was checked then, and is on the list of the available exactly if it passed. */
  ghost predicate CheckLogged(c: seq<CouncilMember>, env: Environment, p: Progress, checks: seq<Check>, k: nat)
    requires k < |checks| == |p.checked|
  {
    && checks[k].candidate == p.checked[k] < |c|
    && (p.checked[k] in p.available <==> AnswerTo(c, env, checks[k]).Available?)
  }

  /** The r-th rejection reports what its candidate's check for its seat answered. */
  ghost predicate RejectionAnswered(c: seq<CouncilMember>, env: Environment, p: Progress, checks: seq<Check>, r: nat)
    requires r < |p.rejections| == |p.rejected| == |p.seatOf|
  {
    exists k :: 0 <= k < |checks| && RejectedBy(c, env, p, checks[k], r)
  }

  ghost predicate RejectedBy(c: seq<CouncilMember>, env: Environment, p: Progress, check: Check, r: nat)
    requires r < |p.rejections| == |p.rejected| == |p.seatOf|
  {
    && check.candidate == p.rejected[r] < |c| && check.seat == p.seatOf[r]
    && p.rejections[r].outcome == AnswerTo(c, env, check)
  }

  /** Each check falls after its seat has begun, and a failed one is followed by a look at cancellation. */
  ghost predicate CheckTimed(c: seq<CouncilMember>, env: Environment, tr: Trace, k: nat, t: nat)
    requires k < |tr.checks|
  {
    var check := tr.checks[k];
    && check.candidate < |c| && check.seat < |tr.begun| && tr.begun[check.seat] < check.time < t
    && (!AnswerTo(c, env, check).Available? ==> check.time + 1 in tr.looks)
  }

  ghost predicate Increasing(times: seq<nat>, t: nat) {
    (forall i, j :: 0 <= i < j < |times| ==> times[i] < times[j]) && forall i :: 0 <= i < |times| ==> times[i] < t
  }

  /** The lists agree with what the environment answered, up to time t: every checked candidate was checked and its
      answer taken; cancellation was looked at when a seat began and after each failed check, and at no other time. */
  ghost predicate Asked(c: seq<CouncilMember>, env: Environment, p: Progress, tr: Trace, t: nat) {
    && |tr.checks| == |p.checked| && |p.rejections| == |p.rejected| == |p.seatOf|
    && (forall k :: 0 <= k < |tr.checks| ==> CheckLogged(c, env, p, tr.checks, k) && CheckTimed(c, env, tr, k, t))
    && (forall r :: 0 <= r < |p.rejections| ==> RejectionAnswered(c, env, p, tr.checks, r))
    && |tr.looks| == |tr.begun| + |p.rejections|
    && Increasing(tr.looks, t) && Increasing(tr.begun, t) && (forall k :: 0 <= k < |tr.begun| ==> tr.begun[k] in tr.looks)
  }

  /** Cancellation is reported exactly if the last look found it; no earlier look did. */
  ghost predicate CancelledExactly(env: Environment, tr: Trace, error: Option<SelectionError>) {
    && (error == Some(Cancelled) ==> tr.looks != [])
    && forall j :: 0 <= j < |tr.looks| ==> (env.cancelled(tr.looks[j]) <==> error == Some(Cancelled) && j == |tr.looks| - 1)
  }

  lemma NothingAsked(c: seq<CouncilMember>, env: Environment)
    ensures Asked(c, env, NO_PROGRESS, NOTHING_ASKED, 0) && CancelledExactly(env, NOTHING_ASKED, None)
  {
  }

  lemma SeatBegins(c: seq<CouncilMember>, env: Environment, p: Progress, tr: Trace, t: nat)
    requires Asked(c, env, p, tr, t)
    ensures Asked(c, env, p, Trace(tr.checks, tr.begun + [t], tr.looks + [t]), t + 1)
  {
    var tr' := Trace(tr.checks, tr.begun + [t], tr.looks + [t]);
    var u := t + 1;
    assert tr'.looks[|tr.looks|] == t;
    assert forall x :: x in tr.looks ==> x in tr'.looks;
    forall k | 0 <= k < |tr.checks| ensures CheckTimed(c, env, tr', k, u) { assert CheckTimed(c, env, tr, k, t); }
  }

  lemma LookFinds(env: Environment, tr: Trace, t: nat, begun: seq<nat>, checks: seq<Check>)
    requires CancelledExactly(env, tr, None)
    ensures CancelledExactly(env, Trace(checks, begun, tr.looks + [t]), if env.cancelled(t) then Some(Cancelled) else None)
  {
  }

  lemma LaterStill(c: seq<CouncilMember>, env: Environment, p: Progress, tr: Trace, t: nat, u: nat)
    requires Asked(c, env, p, tr, t) && t <= u
    ensures Asked(c, env, p, tr, u)
  {
    forall k | 0 <= k < |tr.checks| ensures CheckTimed(c, env, tr, k, u) { assert CheckTimed(c, env, tr, k, t); }
  }

  /** The candidate failed, and cancellation was looked at. */
  lemma RefusalAsked(c: seq<CouncilMember>, env: Environment, p: Progress, tr: Trace, t: nat, i: nat)
    requires Asked(c, env, p, tr, t) && Recorded(c, p) && i < |c| && i !in p.checked && |tr.begun| == |p.seated| + 1
    requires !AnswerTo(c, env, Check(t, i, |p.seated|)).Available?
    ensures var check := Check(t, i, |p.seated|);
            Asked(c, env, WithRejection(c, p, i, AnswerTo(c, env, check)),
                  Trace(tr.checks + [check], tr.begun, tr.looks + [t + 1]), t + 2)
  {
    hide Recorded, MemberID, AnswerTo;
    var check, u := Check(t, i, |p.seated|), t + 2;
    var q, tr' := WithRejection(c, p, i, AnswerTo(c, env, check)), Trace(tr.checks + [check], tr.begun, tr.looks + [t + 1]);
    NotAvailable(c, p, i);
    OneMoreLook(tr.looks, t);
    forall k | 0 <= k < |tr'.checks| ensures CheckLogged(c, env, q, tr'.checks, k) && CheckTimed(c, env, tr', k, u) {
      if k < |tr.checks| { StillLogged(c, env, p, q, tr, tr', k, t, u); }
    }
    forall r | 0 <= r < |q.rejections| ensures RejectionAnswered(c, env, q, tr'.checks, r) {
      if r < |p.rejections| {
        assert RejectionAnswered(c, env, p, tr.checks, r);
        var k :| 0 <= k < |tr.checks| && RejectedBy(c, env, p, tr.checks[k], r);
        assert RejectedBy(c, env, q, tr'.checks[k], r);
      } else {
        assert RejectedBy(c, env, q, tr'.checks[|tr.checks|], r);
      }
    }
    assert Increasing(tr'.begun, u);
    assert Asked(c, env, q, tr', u);
  }

  lemma OneMoreLook(looks: seq<nat>, t: nat)
    requires Increasing(looks, t)
    ensures Increasing(looks + [t + 1], t + 2) && t + 1 in looks + [t + 1] && forall x :: x in looks ==> x in looks + [t + 1]
  {
    assert (looks + [t + 1])[|looks|] == t + 1;
  }

  lemma NotAvailable(c: seq<CouncilMember>, p: Progress, i: nat)
    requires Recorded(c, p) && i !in p.checked
    ensures i !in p.available
  {
  }

  /** The other candidates' checks stand. */
  lemma StillLogged(c: seq<CouncilMember>, env: Environment, p: Progress, q: Progress, tr: Trace, tr': Trace, k: nat, t: nat, u: nat)
    requires |tr.checks| == |p.checked| && k < |tr.checks| && CheckLogged(c, env, p, tr.checks, k) && CheckTimed(c, env, tr, k, t)
    requires t <= u && |tr'.checks| == |q.checked| && tr.checks <= tr'.checks && p.checked <= q.checked && tr'.begun == tr.begun
    requires p.checked[k] in q.available <==> p.checked[k] in p.available
    requires forall x :: x in tr.looks ==> x in tr'.looks
    ensures CheckLogged(c, env, q, tr'.checks, k) && CheckTimed(c, env, tr', k, u)
  {
  }

  /** The candidate passed. */
  lemma PassAsked(c: seq<CouncilMember>, env: Environment, p: Progress, tr: Trace, t: nat, i: nat)
    requires Asked(c, env, p, tr, t) && Recorded(c, p) && i < |c| && i !in p.checked && |tr.begun| == |p.seated| + 1
    requires AnswerTo(c, env, Check(t, i, |p.seated|)).Available?
    ensures Asked(c, env, p.(available := p.available + {i}, checked := p.checked + [i]),
                  tr.(checks := tr.checks + [Check(t, i, |p.seated|)]), t + 1)
  {
    hide Recorded, MemberID, AnswerTo;
    var check, u := Check(t, i, |p.seated|), t + 1;
    var q := p.(available := p.available + {i}, checked := p.checked + [i]);
    var tr' := Trace(tr.checks + [check], tr.begun, tr.looks);
    forall k | 0 <= k < |tr'.checks| ensures CheckLogged(c, env, q, tr'.checks, k) && CheckTimed(c, env, tr', k, u) {
      if k < |tr.checks| {
        assert p.checked[k] in p.checked;
        StillLogged(c, env, p, q, tr, tr', k, t, u);
      }
    }
    forall r | 0 <= r < |q.rejections| ensures RejectionAnswered(c, env, q, tr'.checks, r) {
      assert RejectionAnswered(c, env, p, tr.checks, r);
      var k :| 0 <= k < |tr.checks| && RejectedBy(c, env, p, tr.checks[k], r);
      assert RejectedBy(c, env, q, tr'.checks[k], r);
    }
    assert Increasing(tr'.begun, u) && Increasing(tr'.looks, u);
    assert Asked(c, env, q, tr', u);
  }

  lemma SeatAsked(c: seq<CouncilMember>, env: Environment, p: Progress, tr: Trace, t: nat, i: nat)
    requires Asked(c, env, p, tr, t) && i < |c|
    ensures Asked(c, env, WithSeat(c, p, i), tr, t)
  {
    hide MemberID;
    var q := WithSeat(c, p, i);
    forall k | 0 <= k < |tr.checks| ensures CheckLogged(c, env, q, tr.checks, k) { assert CheckLogged(c, env, p, tr.checks, k); }
    forall r | 0 <= r < |q.rejections| ensures RejectionAnswered(c, env, q, tr.checks, r) {
      assert RejectionAnswered(c, env, p, tr.checks, r);
      var k :| 0 <= k < |tr.checks| && RejectedBy(c, env, p, tr.checks[k], r);
      assert RejectedBy(c, env, q, tr.checks[k], r);
    }
  }

  /** Whoever holds a seat passed the one check it was given; whoever is on the list of rejections failed it. */
  lemma SeatedPassed(c: seq<CouncilMember>, env: Environment, p: Progress, tr: Trace, t: nat, seat: nat)
    requires Asked(c, env, p, tr, t) && Recorded(c, p) && seat < |p.picks|
    ensures exists k :: 0 <= k < |tr.checks| && tr.checks[k].candidate == p.picks[seat] < |c| && AnswerTo(c, env, tr.checks[k]).Available?
    ensures forall k :: 0 <= k < |tr.checks| && tr.checks[k].candidate == p.picks[seat] ==> AnswerTo(c, env, tr.checks[k]).Available?
  {
    hide MemberID;
    assert SeatFilled(c, p, seat);
    var k :| 0 <= k < |p.checked| && p.checked[k] == p.picks[seat];
    assert CheckLogged(c, env, p, tr.checks, k);
    forall j | 0 <= j < |tr.checks| && tr.checks[j].candidate == p.picks[seat] ensures AnswerTo(c, env, tr.checks[j]).Available? {
      assert CheckLogged(c, env, p, tr.checks, j);
    }
  }

  // ---------- Lost credentials ----------

  /** The check found that the endpoint of this name has no usable credential. */
  predicate CredentialGone(outcome: CheckOutcome, name: string) {
    outcome.CredentialFailure? && Normalize(outcome.endpoint) == name != ""
  }

  /** No candidate of an endpoint whose credential is gone can be drawn any more. */
  ghost predicate Barred(c: seq<CouncilMember>, eligible: seq<bool>, p: Progress) {
    && |eligible| == |c|
    && forall r, i :: 0 <= r < |p.rejections| && 0 <= i < |c| && CredentialGone(p.rejections[r].outcome, MemberEndpoint(c[i])) ==> !eligible[i]
  }

  /** From the seat on for which an endpoint lost its credential, nobody of that endpoint is seated. */
  ghost predicate SeatedElsewhere(c: seq<CouncilMember>, p: Progress) {
    && |p.rejections| == |p.seatOf|
    && forall r, k :: 0 <= r < |p.rejections| && p.seatOf[r] <= k < |p.picks| && p.picks[k] < |c| ==>
         !CredentialGone(p.rejections[r].outcome, MemberEndpoint(c[p.picks[k]]))
  }

  /** The candidate itself can be drawn no more, and with it its whole endpoint exactly if the credential is gone. */
  ghost predicate Excludes(c: seq<CouncilMember>, before: seq<bool>, after: seq<bool>, i: nat, outcome: CheckOutcome) {
    && i < |c| == |before| == |after|
    && forall x :: 0 <= x < |c| ==>
         after[x] == (before[x] && x != i &&
                      !(CredentialGone(outcome, MemberEndpoint(c[i])) && MemberEndpoint(c[x]) == MemberEndpoint(c[i])))
  }

  lemma RefusalExcludes(c: seq<CouncilMember>, s: State, s': State, i: nat, outcome: CheckOutcome, error: Option<CouncilSample.Error>)
    requires FitsPool(c, s) && i < |c| && s.currentPending && s.current == i && s.endpoints[i] != NO_ENDPOINT
    requires FailedEndpoint(outcome).Some? ==> FailedEndpoint(outcome).value == MemberEndpoint(c[i])
    requires Step(s, Answer(i, outcome), s', error)
    ensures Excludes(c, s.eligible, s'.eligible, i, outcome)
  {
    hide MemberEndpoint, MemberID, Normalize;
    assert CandidateFits(c[i], s.endpoints[i]);
    AnswerExcludes(s, i, outcome, s', error);
    forall x | 0 <= x < |c|
      ensures s'.eligible[x] == (s.eligible[x] && x != i &&
                                 !(CredentialGone(outcome, MemberEndpoint(c[i])) && MemberEndpoint(c[x]) == MemberEndpoint(c[i])))
    {
      assert CandidateFits(c[x], s.endpoints[x]);
    }
  }

  lemma RefusalBars(c: seq<CouncilMember>, s: State, s': State, p: Progress, i: nat, outcome: CheckOutcome, error: Option<CouncilSample.Error>)
    requires FitsPool(c, s) && Barred(c, s.eligible, p) && i < |c|
    requires s.currentPending && s.current == i && s.endpoints[i] != NO_ENDPOINT
    requires FailedEndpoint(outcome).Some? ==> FailedEndpoint(outcome).value == MemberEndpoint(c[i])
    requires Step(s, Answer(i, outcome), s', error)
    ensures s'.Shaped() && Barred(c, s'.eligible, WithRejection(c, p, i, outcome))
  {
    hide MemberEndpoint, MemberID, Normalize;
    assert CandidateFits(c[i], s.endpoints[i]);
    AnswerExcludes(s, i, outcome, s', error);
    var q := WithRejection(c, p, i, outcome);
    forall r, x | 0 <= r < |q.rejections| && 0 <= x < |c| && CredentialGone(q.rejections[r].outcome, MemberEndpoint(c[x])) ensures !s'.eligible[x] {
      if r < |p.rejections| {
        assert CredentialGone(p.rejections[r].outcome, MemberEndpoint(c[x]));
      } else {
        assert CandidateFits(c[x], s.endpoints[x]);
      }
    }
  }

  lemma RefusedElsewhere(c: seq<CouncilMember>, p: Progress, i: nat, outcome: CheckOutcome)
    requires SeatedElsewhere(c, p) && |p.seated| == |p.picks| && i < |c|
    ensures SeatedElsewhere(c, WithRejection(c, p, i, outcome))
  {
    hide MemberEndpoint, MemberID, CredentialGone;
  }

  /** Whoever can be drawn is of another endpoint. */
  lemma SeatElsewhere(c: seq<CouncilMember>, eligible: seq<bool>, p: Progress, i: nat)
    requires Barred(c, eligible, p) && SeatedElsewhere(c, p) && i < |c| && eligible[i]
    ensures Barred(c, eligible, WithSeat(c, p, i)) && SeatedElsewhere(c, WithSeat(c, p, i))
  {
    hide MemberEndpoint, MemberID, CredentialGone;
    var q := WithSeat(c, p, i);
    forall r | 0 <= r < |p.rejections| ensures q.rejections[r].outcome == p.rejections[r].outcome { }
  }

  lemma DrawnEligible(c: seq<CouncilMember>, initial: State, s: State, p: Progress, i: nat)
    requires Drawn(c, initial, s, p, i)
    ensures i < |c| == |s.eligible| && s.eligible[i] && s.Shaped() && FitsPool(c, s)
    ensures s.currentPending && s.current == i && s.endpoints[i] != NO_ENDPOINT
  {
    assert CandidateFits(c[i], s.endpoints[i]);
  }

  /** A run that reports cancellation was cancelled. */
  ghost predicate CancelledRightly(env: Environment, error: Option<SelectionError>) {
    error == Some(Cancelled) ==> exists t :: env.cancelled(t)
  }

  /** Seating a drawn candidate leaves everything in place for the next seat. */
  lemma SeatedBetween(c: seq<CouncilMember>, initial: State, s: State, p: Progress, i: nat, first: nat)
    requires Drawn(c, initial, s, p, i) && i in p.available && CurrentSeat(p, first)
    ensures |p.rejections| == |p.seatOf| && s.Shaped() && |c| == |s.endpoints|
    ensures Between(c, initial, Accepted(s), WithSeat(c, p, i))
  {
    AcceptAgrees(initial, c, s, p, i);
    WithSeatRecorded(c, p, i);
    StepInOrder(s, Accept(i), Accepted(s));
    assert FitsPool(c, Accepted(s));
  }

  /** Records that candidate i failed its check and makes it, or its endpoint, ineligible. */
  method Refuse(
    selector: Selector, c: seq<CouncilMember>, ghost initial: State, p: Progress, i: nat, outcome: CheckOutcome,
    ghost first: nat)
    returns (q: Progress, error: Option<SelectionError>)
    requires CurrentSeat(p, first)
    requires Drawn(c, initial, selector.View(), p, i) && selector.Valid() && i !in p.checked && !outcome.Available?
    requires FailedEndpoint(outcome).Some? ==> FailedEndpoint(outcome).value == MemberEndpoint(c[i])
    modifies selector, selector.eligible
    ensures q == WithRejection(c, p, i, outcome) && Recorded(c, q) && q.seated == p.seated && CurrentSeat(q, first)
    ensures error == None ==>
              && Between(c, initial, selector.View(), q)
              && EligibleIndexes(selector.eligible[..]) < old(EligibleIndexes(selector.eligible[..]))
              && selector.accepted == old(selector.accepted)
    ensures error.Some? ==> error.value.RejectFailed? && Unfillable(initial, selector.View(), q, error)
    ensures old(Barred(c, selector.View().eligible, p)) ==> Barred(c, selector.View().eligible, q)
    ensures Excludes(c, old(selector.View().eligible), selector.View().eligible, i, outcome)
  {
    hide Unfillable, Barred, Excludes;
    ghost var s := selector.View();
    DrawnEligible(c, initial, s, p, i);
    q := WithRejection(c, p, i, outcome);
    WithRejectionRecorded(c, p, i, outcome);
    RejectionCurrentSeat(c, p, i, outcome, first);
    var rejectError: Option<CouncilSample.Error>;
    var failed := FailedEndpoint(outcome);
    if failed.Some? {
      rejectError := selector.RejectEndpoint(failed.value);
    } else {
      rejectError := selector.Reject(i);
    }
    RefusalExcludes(c, s, selector.View(), i, outcome, rejectError);
    if Barred(c, s.eligible, p) { RefusalBars(c, s, selector.View(), p, i, outcome, rejectError); }
    if rejectError.Some? {
      RefusalFails(c, initial, s, selector.View(), p, i, outcome, rejectError);
      return q, Some(RejectFailed(outcome, rejectError.value));
    }
    RefusedBetween(c, initial, s, selector.View(), p, i, outcome);
    return q, None;
  }

  /** Seats the drawn candidate and names the new member as the replacement of everyone rejected for the
      seat, the rejections from position `first` on. */
  method Seat(selector: Selector, c: seq<CouncilMember>, ghost initial: State, p: Progress, i: nat, first: nat)
    returns (q: Progress)
    requires Drawn(c, initial, selector.View(), p, i) && selector.Valid() && i in p.available && CurrentSeat(p, first)
    modifies selector, selector.candidateSeats
    ensures q == WithSeat(c, p, i)
    ensures Between(c, initial, selector.View(), q)
    ensures |q.seated| == |p.seated| + 1 && CurrentSeat(q, |q.seatOf|)
    ensures selector.View().eligible == old(selector.View().eligible)
  {
    hide CouncilSample.Invariant;
    hide Agrees, Recorded, FitsPool, InOrder;
    SeatedBetween(c, initial, selector.View(), p, i, first);
    SeatCurrentSeat(c, p, i, first);
    var acceptError := selector.Accept(i);
    assert acceptError == None;  // the source would return it; the pending candidate is never refused
    var member := c[i].(memberID := MemberID(|p.seated|));
    var rejections := NameReplacement(p.rejections, first, member);
    q := p.(seated := p.seated + [member], picks := p.picks + [i], rejections := rejections);
    assert rejections == WithSeat(c, p, i).rejections;
  }

  /** Names the member that replaces every rejection from position `first` on. */
  method NameReplacement(rejections: seq<Rejection>, first: nat, member: CouncilMember) returns (named: seq<Rejection>)
    requires first <= |rejections|
    ensures |named| == |rejections|
    ensures forall r :: 0 <= r < first ==> named[r] == rejections[r]
    ensures forall r :: first <= r < |rejections| ==> named[r] == rejections[r].(replacement := Some(member))
  {
    named := rejections;
    for index := first to |rejections|
      invariant |named| == |rejections|
      invariant forall r :: 0 <= r < |rejections| ==>
                  named[r] == if first <= r < index then rejections[r].(replacement := Some(member)) else rejections[r]
    {
      named := named[index := named[index].(replacement := Some(member))];
    }
  }

  /** A candidate that passed its check for the first time. */
  lemma DrawnAvailable(c: seq<CouncilMember>, initial: State, s: State, p: Progress, i: nat)
    requires Drawn(c, initial, s, p, i) && i !in p.checked
    ensures Drawn(c, initial, s, p.(available := p.available + {i}, checked := p.checked + [i]), i)
  {
    var q := p.(available := p.available + {i}, checked := p.checked + [i]);
    WithAvailableRecorded(c, p, i);
    forall e ensures SeatsCounted(s, q.picks, e) { assert SeatsCounted(s, p.picks, e); }
    forall x: nat | x < |s.endpoints| ensures ExclusionExplained(initial, s, q, x) {
      assert ExclusionExplained(initial, s, p, x);
    }
  }

  /** Checks a drawn candidate unless it passed a check before, and seats or refuses it. */
  method TrySeat(
    selector: Selector, c: seq<CouncilMember>, env: Environment, ghost initial: State,
    p: Progress, t: nat, i: nat, first: nat, ghost tr: Trace)
    returns (q: Progress, u: nat, seated: bool, error: Option<SelectionError>, ghost tr': Trace)
    requires NamesOwnEndpoint(env)
    requires Drawn(c, initial, selector.View(), p, i) && selector.Valid() && CurrentSeat(p, first)
    requires Asked(c, env, p, tr, t) && |tr.begun| == |p.seated| + 1 && CancelledExactly(env, tr, None)
    requires Barred(c, selector.View().eligible, p) && SeatedElsewhere(c, p)
    modifies selector, selector.eligible, selector.candidateSeats
    ensures Recorded(c, q) && |q.rejections| == |q.seatOf|
    ensures (error == None ==> Barred(c, selector.View().eligible, q)) && SeatedElsewhere(c, q)
    ensures error == None ==> Between(c, initial, selector.View(), q)
    ensures error == None && seated ==> |q.seated| == |p.seated| + 1 && CurrentSeat(q, |q.seatOf|)
    ensures error == None && !seated ==>
              && q.seated == p.seated && CurrentSeat(q, first)
              && EligibleIndexes(selector.eligible[..]) < old(EligibleIndexes(selector.eligible[..]))
              && selector.accepted == old(selector.accepted)
    ensures error.Some? ==> q.seated == p.seated && (error.value.Cancelled? || error.value.RejectFailed?)
    ensures Unfillable(initial, selector.View(), q, error) && CancelledRightly(env, error)
    ensures Asked(c, env, q, tr', u) && tr'.begun == tr.begun && CancelledExactly(env, tr', error)
  {
    hide CouncilSample.Invariant;
    hide Agrees, FitsPool, Asked, CancelledExactly, MemberID, Barred, SeatedElsewhere;
    q, u, seated, error, tr' := p, t, false, None, tr;
    DrawnEligible(c, initial, selector.View(), p, i);
    if i !in p.available {
      NeverChecked(c, p, i);
      var memberID := MemberID(|p.seated|);
      var outcome := env.check(t, c[i].(memberID := memberID));
      u := t + 1;
      ghost var check := Check(t, i, |p.seated|);
      if !outcome.Available? {
        WithRejectionRecorded(c, p, i, outcome);
        RefusedElsewhere(c, p, i, outcome);
        RefusalAsked(c, env, p, tr, t, i);
        LookFinds(env, tr, u, tr.begun, tr.checks + [check]);
        tr' := Trace(tr.checks + [check], tr.begun, tr.looks + [u]);
        if env.cancelled(u) { return WithRejection(c, p, i, outcome), u + 1, false, Some(Cancelled), tr'; }
        CheckedEndpoint(c[i], memberID, outcome, env, t);
        q, error := Refuse(selector, c, initial, p, i, outcome, first);
        NotCancelled(env, tr', error);
        u := u + 1;
        return;
      }
      DrawnAvailable(c, initial, selector.View(), p, i);
      PassAsked(c, env, p, tr, t, i);
      q, tr' := p.(available := p.available + {i}, checked := p.checked + [i]), tr.(checks := tr.checks + [check]);
      SameLooks(env, tr, tr');
      SameRejections(c, selector.View().eligible, p, q);
    }
    SeatAsked(c, env, q, tr', u, i);
    SeatElsewhere(c, selector.View().eligible, q, i);
    q := Seat(selector, c, initial, q, i, first);
    seated := true;
  }

  lemma SameRejections(c: seq<CouncilMember>, eligible: seq<bool>, p: Progress, q: Progress)
    requires q.rejections == p.rejections && q.seatOf == p.seatOf && q.picks == p.picks
    ensures Barred(c, eligible, q) == Barred(c, eligible, p) && SeatedElsewhere(c, q) == SeatedElsewhere(c, p)
  {
  }

  lemma NeverChecked(c: seq<CouncilMember>, p: Progress, i: nat)
    requires Recorded(c, p) && i !in p.available && i !in p.rejected
    ensures i !in p.checked
  {
  }

  /** Errors other than cancellation are no news of it. */
  lemma NotCancelled(env: Environment, tr: Trace, error: Option<SelectionError>)
    requires CancelledExactly(env, tr, None) && error != Some(Cancelled)
    ensures CancelledExactly(env, tr, error)
  {
  }

  lemma SameLooks(env: Environment, tr: Trace, tr': Trace)
    requires CancelledExactly(env, tr, None) && tr'.looks == tr.looks
    ensures CancelledExactly(env, tr', None)
  {
  }

  lemma NobodyToBlame(initial: State, s: State, p: Progress, env: Environment, error: Option<SelectionError>)
    requires error.Some? ==> !error.value.RejectFailed? && !error.value.Cancelled?
    ensures Unfillable(initial, s, p, error) && CancelledRightly(env, error)
  {
  }

  lemma CancelledNow(initial: State, s: State, p: Progress, env: Environment, t: nat)
    requires env.cancelled(t)
    ensures Unfillable(initial, s, p, Some(Cancelled)) && CancelledRightly(env, Some(Cancelled))
  {
  }

  lemma BetweenRecorded(c: seq<CouncilMember>, initial: State, s: State, p: Progress)
    requires Between(c, initial, s, p)
    ensures Recorded(c, p)
  {
  }

  /** Draws and checks candidates until one takes the next seat. */
  method FillSeat(selector: Selector, c: seq<CouncilMember>, env: Environment, ghost initial: State, p0: Progress, t0: nat,
                  ghost tr0: Trace)
    returns (p: Progress, t: nat, error: Option<SelectionError>, ghost tr: Trace)
    requires NamesOwnEndpoint(env)
    requires Asked(c, env, p0, tr0, t0) && |tr0.begun| == |p0.seated| + 1 && CancelledExactly(env, tr0, None)
    requires Between(c, initial, selector.View(), p0) && selector.Valid() && CurrentSeat(p0, |p0.seatOf|)
    requires selector.count > 0 ==> selector.accepted < selector.count
    requires Barred(c, selector.View().eligible, p0) && SeatedElsewhere(c, p0)
    modifies selector, selector.eligible, selector.candidateSeats
    ensures Recorded(c, p)
    ensures (error == None ==> Barred(c, selector.View().eligible, p)) && SeatedElsewhere(c, p)
    ensures error == None ==>
              && Between(c, initial, selector.View(), p) && CurrentSeat(p, |p.seatOf|)
              && |p.seated| == |p0.seated| + 1
    ensures error.Some? ==> p.seated == p0.seated && !error.value.Invalid? && !error.value.BadOptions?
    ensures GaveUp(error) && RandomnessAvailable(env) ==> Exhausted(initial, selector.View(), p)
    ensures Unfillable(initial, selector.View(), p, error) && CancelledRightly(env, error)
    ensures Asked(c, env, p, tr, t) && tr.begun == tr0.begun && CancelledExactly(env, tr, error)
  {
    hide CouncilSample.Invariant;
    hide Agrees, Recorded, FitsPool, Unfillable, CancelledRightly, Between, Exhausted, Asked, CancelledExactly, Barred, SeatedElsewhere;
    p, t, tr := p0, t0, tr0;
    BetweenCounts(c, initial, selector.View(), p);
    var first := |p0.rejections|;
    while true
      invariant Between(c, initial, selector.View(), p) && CurrentSeat(p, first)
      invariant p.seated == p0.seated && |p.rejections| == |p.seatOf|
      invariant selector.count > 0 ==> selector.accepted < selector.count
      invariant Asked(c, env, p, tr, t) && tr.begun == tr0.begun && CancelledExactly(env, tr, None)
      invariant Barred(c, selector.View().eligible, p) && SeatedElsewhere(c, p)
      decreases EligibleIndexes(selector.eligible[..])
    {
      BetweenCounts(c, initial, selector.View(), p);
      var draw := NextCandidate(selector, c, initial, p, env.entropy(t));
      LaterStill(c, env, p, tr, t, t + 1);
      t := t + 1;
      if draw.Failure? {
        var memberID := MemberID(|p.seated|);
        error := if |p.rejections| == first then Some(CouldNotSeat(memberID, draw.error))
                 else Some(CouldNotReplace(memberID, |p.rejections| - first, p.rejections[|p.rejections| - 1].outcome));
        NobodyToBlame(initial, selector.View(), p, env, error);
        BetweenRecorded(c, initial, selector.View(), p);
        NotCancelled(env, tr, error);
        return;
      }
      var seated: bool;
      p, t, seated, error, tr := TrySeat(selector, c, env, initial, p, t, draw.value, first, tr);
      if error.Some? || seated { return; }
    }
  }

  lemma CheckedEndpoint(member: CouncilMember, memberID: string, outcome: CheckOutcome, env: Environment, t: nat)
    requires NamesOwnEndpoint(env) && outcome == env.check(t, member.(memberID := memberID))
    ensures FailedEndpoint(outcome).Some? ==> FailedEndpoint(outcome).value == MemberEndpoint(member)
  {
    assert MemberEndpoint(member.(memberID := memberID)) == MemberEndpoint(member);
  }

  /** The endpoints of the seated members. */
  function SeatedEndpoints(c: seq<CouncilMember>, picks: seq<nat>): set<Endpoint> {
    set k | 0 <= k < |picks| && picks[k] < |c| :: Endpoint(MemberEndpoint(c[picks[k]]))
  }

  lemma {:induction false} SeatCountPositive(endpoints: seq<Endpoint>, picks: seq<nat>, e: Endpoint)
    requires forall k :: 0 <= k < |picks| ==> picks[k] < |endpoints|
    ensures SeatCount(endpoints, picks, e) > 0 <==> exists k :: 0 <= k < |picks| && endpoints[picks[k]] == e
  {
    if picks != [] {
      var n := |picks| - 1;
      SeatCountPositive(endpoints, picks[..n], e);
      assert forall k :: 0 <= k < n ==> picks[..n][k] == picks[k];
    }
  }

  /** The selector's used endpoints are those of the seated members. */
  lemma UsedEndpointsSeated(c: seq<CouncilMember>, initial: State, s: State, p: Progress)
    requires FitsPool(c, s) && Agrees(initial, s, p)
    ensures SeatedEndpoints(c, p.picks) == s.Used()
  {
    forall k | 0 <= k < |p.picks| ensures s.endpoints[p.picks[k]] == Endpoint(MemberEndpoint(c[p.picks[k]])) {
      assert CandidateFits(c[p.picks[k]], s.endpoints[p.picks[k]]);
    }
    forall e ensures e in s.Used() <==> e in SeatedEndpoints(c, p.picks) {
      assert SeatsCounted(s, p.picks, e);
      SeatCountPositive(s.endpoints, p.picks, e);
    }
  }

  lemma PoolFits(c: seq<CouncilMember>, opts: Options)
    requires NewError(MemberEndpoints(c), opts) == None
    ensures FitsPool(c, Initial(MemberEndpoints(c), opts))
  {
    var s := Initial(MemberEndpoints(c), opts);
    forall i | 0 <= i < |c| ensures CandidateFits(c[i], s.endpoints[i]) {
      MemberEndpointNormalized(c[i]);
      assert s.endpoints[i] == Named(MemberEndpoints(c)[i]);
    }
  }

  const NO_PROGRESS := Progress([], [], {}, [], [], [], [])

  lemma NothingRecorded(c: seq<CouncilMember>)
    ensures Recorded(c, NO_PROGRESS)
  {
  }

  lemma NothingYet(c: seq<CouncilMember>, opts: Options)
    requires NewError(MemberEndpoints(c), opts) == None
    ensures var s := Initial(MemberEndpoints(c), opts);
            && Between(c, s, s, NO_PROGRESS) && CurrentSeat(NO_PROGRESS, 0)
            && s.count == opts.count >= 0 && s.minimum == opts.minimumDistinctEndpoints
  {
    hide FitsPool, CouncilSample.Invariant, NewError, Initial, Recorded, Agrees, State.Enough;
    InitialInvariant(MemberEndpoints(c), opts);
    PoolFits(c, opts);
    NothingRecorded(c);
    AgreesInitially(MemberEndpoints(c), opts);
  }

  lemma AgreesInitially(endpoints: seq<string>, opts: Options)
    requires NewError(endpoints, opts) == None
    ensures var s := Initial(endpoints, opts);
            Agrees(s, s, NO_PROGRESS) && !s.currentPending && s.count == opts.count >= 0 && s.minimum == opts.minimumDistinctEndpoints
  {
    var s := Initial(endpoints, opts);
    forall e ensures SeatsCounted(s, [], e) {}
  }

  /** Every initially eligible candidate was rejected, or its endpoint's credential failed. */
  ghost predicate PoolExhausted(c: seq<CouncilMember>, opts: Options, p: Progress) {
    var s := Initial(MemberEndpoints(c), opts);
    forall i :: 0 <= i < |s.endpoints| && s.eligible[i] ==> Excluded(s.endpoints, p, i)
  }

  lemma NobodyLeft(c: seq<CouncilMember>, opts: Options, s: State, p: Progress)
    ensures Exhausted(Initial(MemberEndpoints(c), opts), s, p) ==> PoolExhausted(c, opts, p)
  {
    var initial := Initial(MemberEndpoints(c), opts);
    if Exhausted(initial, s, p) {
      forall i: nat | i < |initial.endpoints| && initial.eligible[i] ensures Excluded(initial.endpoints, p, i) {
        assert ExclusionExplained(initial, s, p, i);
        assert i !in EligibleIndexes(s.eligible);
      }
    }
  }

  /** What a successful selection promises. */
  ghost predicate Seated(c: seq<CouncilMember>, opts: Options, p: Progress, final: State) {
    && |p.seated| == opts.count
    && |SeatedEndpoints(c, p.picks)| >= opts.minimumDistinctEndpoints
    && (forall r :: 0 <= r < |p.rejections| ==> p.rejections[r].replacement.Some?)
    && Agrees(Initial(MemberEndpoints(c), opts), final, p) && Invariant(final)
  }

  /** Once every seat is filled, only an empty council with a positive minimum can be invalid. */
  lemma Filled(c: seq<CouncilMember>, opts: Options, s: State, p: Progress)
    requires Between(c, Initial(MemberEndpoints(c), opts), s, p) && CurrentSeat(p, |p.seatOf|)
    requires |p.seated| == opts.count
    ensures s.ValidateError() == None ==> Seated(c, opts, p, s)
    ensures s.ValidateError() == None <==> opts.count > 0 || opts.minimumDistinctEndpoints <= 0
  {
    FilledValidates(s);
    UsedEndpointsSeated(c, Initial(MemberEndpoints(c), opts), s, p);
    forall r | 0 <= r < |p.rejections| ensures p.rejections[r].replacement.Some? { assert RejectionLinked(c, p, r); }
  }

  /** The error says that no candidate could be drawn for a seat. */
  predicate GaveUp(error: Option<SelectionError>) {
    error.Some? && (error.value.CouldNotSeat? || error.value.CouldNotReplace?)
  }

  /** Fills the seats C1 to Ck from the pool, replacing candidates that fail their check.

      The council it returns is complete, uses enough distinct endpoints and is balanced, with every
      rejection linked to the member that took the seat; the closing validation of a council with seats
      cannot fail, and the pool is given up only when every candidate is excluded. */
  method SelectAvailableCouncil(c: seq<CouncilMember>, opts: Options, env: Environment)
    returns (p: Progress, error: Option<SelectionError>, ghost final: State, ghost tr: Trace, ghost end: nat)
    requires NamesOwnEndpoint(env)
    ensures NewError(MemberEndpoints(c), opts).Some? <==> error.Some? && error.value.BadOptions?
    ensures Recorded(c, p)
    ensures error == None ==> Seated(c, opts, p, final)
    ensures error.Some? && error.value.Invalid? ==> opts.count == 0 && opts.minimumDistinctEndpoints > 0
    ensures opts.count == 0 && opts.minimumDistinctEndpoints > 0 ==> error.Some?
    ensures GaveUp(error) && RandomnessAvailable(env) ==> PoolExhausted(c, opts, p)
    ensures Unfillable(Initial(MemberEndpoints(c), opts), final, p, error) && CancelledRightly(env, error)
    ensures SeatedElsewhere(c, p)
    // What was asked: the seat left unfilled, if any, was begun too.
    ensures Asked(c, env, p, tr, end) && CancelledExactly(env, tr, error)
    ensures |tr.begun| == if error == None || error.value.Invalid? || error.value.BadOptions? then |p.seated| else |p.seated| + 1
  {
    hide CouncilSample.Invariant, CouncilSample.Initial, CouncilSample.NewError;
    hide Agrees, Recorded, FitsPool, PoolExhausted, Exhausted, Seated, Asked, CancelledExactly, Between, CurrentSeat, Unfillable,
         CancelledRightly, InOrder, MemberID, Barred, SeatedElsewhere;
    hide State.Enough, State.Used, State.EligibleEndpoints, State.ValidateError;
    NothingAsked(c, env);
    tr, end := NOTHING_ASKED, 0;
    NothingRecorded(c);
    NobodyBarred(c, seq(|c|, i => true));
    p, final := NO_PROGRESS, Initial(MemberEndpoints(c), opts);
    var created := Selector.New(MemberEndpoints(c), opts);
    if created.Failure? {
      NotCancelled(env, tr, Some(BadOptions(created.error)));
      NobodyToBlame(Initial(MemberEndpoints(c), opts), final, p, env, Some(BadOptions(created.error)));
      return p, Some(BadOptions(created.error)), final, tr, end;
    }
    var selector := created.value;
    ghost var initial := selector.View();
    NothingYet(c, opts);
    BetweenShaped(c, initial, initial, p);
    NobodyBarred(c, initial.eligible);
    var t := 0;
    for seat := 0 to opts.count
      invariant fresh(selector) && fresh(selector.eligible) && fresh(selector.candidateSeats)
      invariant Between(c, initial, selector.View(), p) && CurrentSeat(p, |p.seatOf|)
      invariant |p.seated| == seat == |tr.begun|
      invariant Asked(c, env, p, tr, t) && CancelledExactly(env, tr, None)
      invariant Barred(c, selector.View().eligible, p) && SeatedElsewhere(c, p)
    {
      SeatBegins(c, env, p, tr, t);
      LookFinds(env, tr, t, tr.begun + [t], tr.checks);
      tr, end := Trace(tr.checks, tr.begun + [t], tr.looks + [t]), t + 1;
      BetweenRecorded(c, initial, selector.View(), p);
      if env.cancelled(t) {
        CancelledNow(Initial(MemberEndpoints(c), opts), final, p, env, t);
        return p, Some(Cancelled), final, tr, end;
      }
      t := t + 1;
      BetweenCounts(c, initial, selector.View(), p);
      p, t, error, tr := FillSeat(selector, c, env, initial, p, t, tr);
      end := t;
      if error.Some? {
        NobodyLeft(c, opts, selector.View(), p);
        final := selector.View();
        return;
      }
    }
    end := t;
    final := selector.View();
    Filled(c, opts, final, p);
    BetweenRecorded(c, initial, final, p);
    NobodyToBlame(Initial(MemberEndpoints(c), opts), final, p, env, None);
    BetweenCounts(c, initial, final, p);
    var invalid := selector.Validate();
    if invalid.Some? {
      NotCancelled(env, tr, Some(Invalid(invalid.value)));
      NobodyToBlame(Initial(MemberEndpoints(c), opts), final, p, env, Some(Invalid(invalid.value)));
      return p, Some(Invalid(invalid.value)), final, tr, end;
    }
    return p, None, final, tr, end;
  }

  lemma NobodyBarred(c: seq<CouncilMember>, eligible: seq<bool>)
    requires |eligible| == |c|
    ensures Barred(c, eligible, NO_PROGRESS) && SeatedElsewhere(c, NO_PROGRESS)
  {
  }

  lemma BetweenShaped(c: seq<CouncilMember>, initial: State, s: State, p: Progress)
    requires Between(c, initial, s, p)
    ensures |s.eligible| == |c|
  {
  }

  /** Why credential failures must name the candidate's own endpoint: one that names an endpoint no
      candidate has merely undoes the draw, so the same candidate can be drawn and checked for ever. */
  lemma ForeignFailureUndone(s: State, drawn: State, foreign: string, s': State, error: Option<CouncilSample.Error>)
    requires s.Shaped() && s.Enough() && Step(s, Draw, drawn, None)
    requires Named(foreign) != NO_ENDPOINT && Named(foreign) !in s.endpoints
    requires Step(drawn, RejectEndpoint(foreign), s', error)
    ensures error == None && s' == s.(current := drawn.current)
    ensures s'.DrawError() == None && s'.Drawable(drawn.current)
  {
    hide Named;
    ForeignEndpoint(drawn, Named(foreign));
    CurrentIrrelevant(s, drawn.current);
  }

  /** Without a pending selection the last drawn candidate does not matter. */
  lemma CurrentIrrelevant(s: State, i: int)
    requires s.Shaped()
    ensures var s' := s.(current := i);
            && s'.Shaped() && s'.DrawError() == s.DrawError() && (s'.Enough() <==> s.Enough())
            && (s'.Drawable(i) <==> s.Drawable(i))
  {
    hide State.Drawable;
    var s' := s.(current := i);
    assert s'.Used() == s.Used() && s'.EligibleEndpoints() == s.EligibleEndpoints();
    DrawableRegardless(s, s', i);
  }

  lemma DrawableRegardless(s: State, s': State, i: int)
    requires s.Shaped() && s' == s.(current := s'.current)
    ensures s'.Drawable(i) <==> s.Drawable(i)
  {
    assert forall j :: s'.Eligible(j) == s.Eligible(j);
    assert forall e :: s'.Seats(e) == s.Seats(e);
  }

  lemma ForeignEndpoint(s: State, e: Endpoint)
    requires s.Shaped() && e !in s.endpoints
    ensures WithoutEndpoint(s, e) == s.(currentPending := false)
  {
    assert WithoutEndpoint(s, e).eligible == s.eligible;
  }

  /** Nobody has been excluded, and every seat went to an eligible endpoint. */
  ghost predicate Loading(initial: State, s: State) {
    && InOrder(s) && !s.currentPending
    && s.eligible == initial.eligible && s.endpoints == initial.endpoints
    && s.count == initial.count && s.minimum == initial.minimum
    && s.Used() <= s.EligibleEndpoints() != {}
  }

  lemma LoadingStep(initial: State, s: State, drawn: State)
    requires Loading(initial, s) && Step(s, Draw, drawn, None)
    ensures drawn.Shaped() && 0 <= drawn.current < |drawn.endpoints|
    ensures Loading(initial, Accepted(drawn)) && Accepted(drawn).accepted == s.accepted + 1
  {
    StepInOrder(s, Draw, drawn);
    StepInOrder(drawn, Accept(drawn.current), Accepted(drawn));
    AcceptedUse(drawn);
    assert drawn.Used() == s.Used() && drawn.EligibleEndpoints() == s.EligibleEndpoints();
  }

  lemma LoadingInitially(endpoints: seq<string>, opts: Options)
    requires NewError(endpoints, opts) == None
    ensures var s := Initial(endpoints, opts);
            Loading(s, s) && s.accepted == 0 && s.count == opts.count >= 0 && s.minimum == opts.minimumDistinctEndpoints
  {
    InitialInvariant(endpoints, opts);
    assert Initial(endpoints, opts).Used() == {};
  }

  /** What loading a council promises. */
  ghost predicate Loaded(endpoints: seq<string>, opts: Options, final: State) {
    && final.accepted == opts.count
    && |final.Used()| >= opts.minimumDistinctEndpoints
    && (forall i: nat :: Initial(endpoints, opts).Eligible(i) ==> EvenlyShared(final, i))
  }

  lemma LoadingDone(endpoints: seq<string>, opts: Options, s: State)
    requires NewError(endpoints, opts) == None && Loading(Initial(endpoints, opts), s) && s.accepted == opts.count
    ensures s.ValidateError() == None ==> Loaded(endpoints, opts, s)
    ensures opts.count > 0 ==> s.ValidateError() == None
  {
    LoadingInitially(endpoints, opts);
    FilledValidates(s);
    forall i: nat | Initial(endpoints, opts).Eligible(i) ensures EvenlyShared(s, i) {
      InitialEndpointEligible(endpoints, opts, i);
      FullyEligibleShares(s, i);
    }
  }

  /** Fills the council by drawing alone, when candidates cannot be checked. With seats to fill it fails
      only for unusable options or missing randomness, and shares the seats evenly. */
  method LoadCouncil(endpoints: seq<string>, opts: Options, entropy: nat -> (bool, bool))
    returns (picks: seq<nat>, error: Option<CouncilSample.Error>, ghost final: State)
    ensures NewError(endpoints, opts).Some? ==> error == NewError(endpoints, opts)
    ensures NewError(endpoints, opts) == None && opts.count > 0 && (forall t :: entropy(t) == (true, true)) ==> error == None
    ensures error == None ==> NewError(endpoints, opts) == None && Loaded(endpoints, opts, final) && |picks| == opts.count
    ensures CountsAgree(picks, final)
  {
    hide CountsAgree, CouncilSample.Invariant, CouncilSample.EvenlyShared, CouncilSample.NewError, CouncilSample.Initial, Loaded;
    picks, final := [], Initial(endpoints, opts);
    InitialSeats(endpoints, opts);
    var created := Selector.New(endpoints, opts);
    if created.Failure? { return picks, Some(created.error), final; }
    var selector := created.value;
    LoadingInitially(endpoints, opts);
    ghost var initial := selector.View();
    for seat := 0 to opts.count
      invariant fresh(selector) && fresh(selector.eligible) && fresh(selector.candidateSeats)
      invariant Loading(initial, selector.View()) && selector.accepted == seat == |picks|
      invariant CountsAgree(picks, selector.View())
    {
      ghost var s := selector.View();
      var draw := selector.Draw(entropy(seat).0, entropy(seat).1);
      if draw.Failure? {
        final := selector.View();
        return picks, Some(draw.error), final;
      }
      ghost var drawn := selector.View();
      LoadingStep(initial, s, drawn);
      DrawnCounts(picks, s, drawn);
      var acceptError := selector.Accept(draw.value);
      assert acceptError == None;  // the source would return it; the pending candidate is never refused
      AcceptCounts(picks, drawn, draw.value);
      picks := picks + [draw.value];
    }
    final := selector.View();
    LoadingDone(endpoints, opts, final);
    error := selector.Validate();
  }

  /** The number of seats of an endpoint, or none when the picks are not candidates. */
  ghost function SeatCountOf(picks: seq<nat>, endpoints: seq<Endpoint>, e: Endpoint): int {
    if forall k :: 0 <= k < |picks| ==> picks[k] < |endpoints| then SeatCount(endpoints, picks, e) else -1
  }

  /** Every endpoint holds as many seats as it was picked for. */
  ghost predicate CountsAgree(picks: seq<nat>, s: State) {
    forall e :: SeatCountOf(picks, s.endpoints, e) == s.Seats(e)
  }

  lemma InitialSeats(endpoints: seq<string>, opts: Options)
    ensures CountsAgree([], Initial(endpoints, opts))
  {
  }

  lemma DrawnCounts(picks: seq<nat>, s: State, drawn: State)
    requires CountsAgree(picks, s) && drawn.endpoints == s.endpoints && drawn.seats == s.seats
    ensures CountsAgree(picks, drawn)
  {
  }

  lemma AcceptCounts(picks: seq<nat>, drawn: State, i: nat)
    requires drawn.Shaped() && drawn.current == i < |drawn.endpoints|
    requires CountsAgree(picks, drawn)
    ensures CountsAgree(picks + [i], Accepted(drawn))
  {
    forall e ensures SeatCountOf(picks + [i], drawn.endpoints, e) == Accepted(drawn).Seats(e) {
      assert SeatCountOf(picks, drawn.endpoints, e) == drawn.Seats(e);
      SeatCountAppend(drawn.endpoints, picks, i, e);
    }
  }
}
