/**
 Balanced random allocation of council seats (common/councilsample/selector.go).

 `State` is the abstract value of a selector, `Step` the transition relation of its operations, and
 `Selector` the imperative allocator, every method of which is proved to take exactly one step.
 */
module CouncilSample {
  import opened Results
  import opened Sums
  import opened Text

  /** A normalized endpoint name. */
  datatype Endpoint = Endpoint(name: string)

  /** Endpoints are compared by their normalized names. */
  function Named(raw: string): Endpoint {
    Endpoint(Normalize(raw))
  }

  const NO_ENDPOINT := Endpoint("")

  datatype Options = Options(count: int, allowedEndpoints: seq<string>, minimumDistinctEndpoints: int)

  datatype Error =
    | NegativeCount | NegativeMinimum | MinimumExceedsCount | EmptyAllowedEndpoint
    | CandidateWithoutEndpoint | NoAllowedCandidate | MinimumExceedsAvailable
    | SelectionPending | CouncilFull | NoCandidateRemains | NoEntropy
    | NothingPending | OtherCandidatePending | EmptyRejectedEndpoint | TooFewEndpointsRemain
    | CouncilIncomplete | TooFewDistinctEndpoints

  datatype State = State(
    endpoints: seq<Endpoint>,
    eligible: seq<bool>,
    seats: map<Endpoint, nat>,
    candidateSeats: seq<nat>,
    minimum: int,
    count: int,
    accepted: nat,
    current: int,
    currentPending: bool)
  {
    predicate Shaped() {
      |eligible| == |endpoints| == |candidateSeats|
    }

    predicate Eligible(i: int)
      requires Shaped()
    {
      0 <= i < |endpoints| && eligible[i]
    }

    function Seats(endpoint: Endpoint): nat {
      if endpoint in seats then seats[endpoint] else 0
    }

    /** The endpoints that hold a seat. */
    function Used(): set<Endpoint> {
      set e | e in seats && seats[e] > 0
    }

    /** The endpoints that still have an eligible candidate. */
    function EligibleEndpoints(): set<Endpoint>
      requires Shaped()
    {
      set i | 0 <= i < |endpoints| && eligible[i] :: endpoints[i]
    }

    /** The seats of every candidate of an endpoint, by candidate index. */
    function CandidateSeats(endpoint: Endpoint): map<int, nat>
      requires Shaped()
    {
      map i | 0 <= i < |endpoints| && endpoints[i] == endpoint :: candidateSeats[i]
    }

    /** An eligible candidate of a least-used endpoint, least used among that endpoint's candidates. */
    ghost predicate Drawable(i: int)
      requires Shaped()
    {
      && Eligible(i)
      && (forall j :: Eligible(j) ==> Seats(endpoints[i]) <= Seats(endpoints[j]))
      && (forall j :: Eligible(j) && endpoints[j] == endpoints[i] ==> candidateSeats[i] <= candidateSeats[j])
    }

    /** Enough endpoints are used or still available for the required minimum. */
    predicate Enough()
      requires Shaped()
    {
      |Used() + EligibleEndpoints()| >= minimum
    }

    function DrawError(): Option<Error>
      requires Shaped()
    {
      if currentPending then Some(SelectionPending)
      else if count > 0 && accepted >= count then Some(CouncilFull)
      else if EligibleEndpoints() == {} then Some(NoCandidateRemains)
      else None
    }

    function CurrentError(index: int): Option<Error> {
      if !currentPending then Some(NothingPending)
      else if index != current then Some(OtherCandidatePending)
      else None
    }

    function ValidateError(): Option<Error> {
      if currentPending then Some(SelectionPending)
      else if count > 0 && accepted != count then Some(CouncilIncomplete)
      else if |Used()| < minimum then Some(TooFewDistinctEndpoints)
      else None
    }
  }

  // ---------- Construction ----------

  function NormalizeAll(names: seq<string>): (r: seq<Endpoint>)
    ensures |r| == |names| && forall i :: 0 <= i < |names| ==> r[i] == Named(names[i])
  {
    seq(|names|, i requires 0 <= i < |names| => Named(names[i]))
  }

  predicate Allowed(endpoint: Endpoint, allowed: set<Endpoint>) {
    allowed == {} || endpoint in allowed
  }

  /** The first complaint of construction, in the order the source checks. */
  function NewError(endpoints: seq<string>, opts: Options): Option<Error> {
    var allowed := set e | e in NormalizeAll(opts.allowedEndpoints);
    var names := NormalizeAll(endpoints);
    var available := set e | e in names && Allowed(e, allowed);
    if opts.count < 0 then Some(NegativeCount)
    else if opts.minimumDistinctEndpoints < 0 then Some(NegativeMinimum)
    else if opts.count > 0 && opts.minimumDistinctEndpoints > opts.count then Some(MinimumExceedsCount)
    else if NO_ENDPOINT in allowed then Some(EmptyAllowedEndpoint)
    else if NO_ENDPOINT in names then Some(CandidateWithoutEndpoint)
    else if available == {} then Some(NoAllowedCandidate)
    else if opts.minimumDistinctEndpoints > |available| then Some(MinimumExceedsAvailable)
    else None
  }

  /** A new selector: every candidate of an allowed endpoint is eligible and nobody is seated. */
  function Initial(endpoints: seq<string>, opts: Options): State {
    var allowed := set e | e in NormalizeAll(opts.allowedEndpoints);
    var names := NormalizeAll(endpoints);
    State(names, seq(|names|, i requires 0 <= i < |names| => Allowed(names[i], allowed)), map[],
          seq(|names|, i => 0), opts.minimumDistinctEndpoints, opts.count, 0, 0, false)
  }

  // ---------- Transitions ----------

  datatype Op = Draw | Accept(index: int) | Reject(index: int) | RejectEndpoint(endpoint: string)

  function Accepted(s: State): State
    requires s.Shaped() && 0 <= s.current < |s.endpoints|
  {
    var e := s.endpoints[s.current];
    s.(seats := s.seats[e := s.Seats(e) + 1],
       candidateSeats := s.candidateSeats[s.current := s.candidateSeats[s.current] + 1],
       accepted := s.accepted + 1,
       currentPending := false)
  }

  function WithoutEndpoint(s: State, endpoint: Endpoint): State
    requires s.Shaped()
  {
    s.(eligible := seq(|s.eligible|, i requires 0 <= i < |s.eligible| => s.eligible[i] && s.endpoints[i] != endpoint),
       currentPending := false)
  }

  function AvailabilityError(s: State): Option<Error>
    requires s.Shaped()
  {
    if s.Enough() then None else Some(TooFewEndpointsRemain)
  }

  /** One call of an operation: the state it leaves and the error it returns, if any. */
  ghost predicate Step(s: State, op: Op, s': State, error: Option<Error>)
    requires s.Shaped()
  {
    match op
    case Draw =>
      if s.DrawError().Some? then s' == s && error == s.DrawError()
      else if error == Some(NoEntropy) then s' == s
      else error == None && s.Drawable(s'.current) && s' == s.(current := s'.current, currentPending := true)
    case Accept(index) =>
      if s.CurrentError(index).Some? then s' == s && error == s.CurrentError(index)
      else 0 <= index < |s.endpoints| && s' == Accepted(s) && error == None
    case Reject(index) =>
      if s.CurrentError(index).Some? then s' == s && error == s.CurrentError(index)
      else
        && 0 <= index < |s.endpoints|
        && s' == s.(eligible := s.eligible[index := false], currentPending := false)
        && error == AvailabilityError(s')
    case RejectEndpoint(endpoint) =>
      if Named(endpoint) == NO_ENDPOINT then s' == s && error == Some(EmptyRejectedEndpoint)
      else s' == WithoutEndpoint(s, Named(endpoint)) && error == AvailabilityError(s')
  }

  /** When an operation is refused, and with which error, by what the state holds. */
  lemma RefusedWhen(s: State, op: Op, s': State, error: Option<Error>)
    requires s.Shaped() && Step(s, op, s', error)
    ensures op.Draw? ==>
      && (error == Some(SelectionPending) <==> s.currentPending)
      && (error == Some(CouncilFull) <==> !s.currentPending && s.count > 0 && s.accepted >= s.count)
      && (error == Some(NoCandidateRemains) <==>
           !s.currentPending && !(s.count > 0 && s.accepted >= s.count) && forall i :: 0 <= i < |s.eligible| ==> !s.eligible[i])
    ensures op.Accept? || op.Reject? ==>
      && (error == Some(NothingPending) <==> !s.currentPending)
      && (error == Some(OtherCandidatePending) <==> s.currentPending && op.index != s.current)
    ensures op.RejectEndpoint? ==> (error == Some(EmptyRejectedEndpoint) <==> Normalize(op.endpoint) == "")
    ensures s.ValidateError().None? <==> !s.currentPending && (s.count > 0 ==> s.accepted == s.count) && |s.Used()| >= s.minimum
  {
    hide Normalize;
    assert forall i :: 0 <= i < |s.eligible| && s.eligible[i] ==> s.endpoints[i] in s.EligibleEndpoints();
    assert s.EligibleEndpoints() == {} <==> forall i :: 0 <= i < |s.eligible| ==> !s.eligible[i];
  }

  // ---------- The invariant of every run ----------

  /** Endpoint e is at most one seat ahead of the endpoint of candidate j, if j can still be drawn. */
  ghost predicate EndpointBalance(s: State, e: Endpoint, j: int)
    requires s.Shaped()
  {
    s.Eligible(j) ==> s.Seats(e) <= s.Seats(s.endpoints[j]) + 1
  }

  /** Candidate i is at most one seat ahead of candidate j of its endpoint, if j can still be drawn. */
  ghost predicate CandidateBalance(s: State, i: int, j: int)
    requires s.Shaped()
  {
    0 <= i < |s.endpoints| && s.Eligible(j) && s.endpoints[i] == s.endpoints[j] ==>
      s.candidateSeats[i] <= s.candidateSeats[j] + 1
  }

  /** The seats of an endpoint are the seats of its candidates. */
  ghost predicate SeatsAgree(s: State, e: Endpoint)
    requires s.Shaped()
  {
    s.Seats(e) == SumOver(s.CandidateSeats(e).Keys, s.CandidateSeats(e))
  }

  ghost predicate Balanced(s: State)
    requires s.Shaped()
  {
    && (forall e, j :: EndpointBalance(s, e, j))
    && (forall i, j :: CandidateBalance(s, i, j))
  }

  /** Seat counts agree with one another and with the number of accepted candidates. */
  ghost predicate Counted(s: State)
    requires s.Shaped()
  {
    && s.accepted == SumOver(s.seats.Keys, s.seats)
    && (forall e :: SeatsAgree(s, e))
  }

  ghost predicate Invariant(s: State)
  {
    && s.Shaped()
    && 0 <= s.minimum && 0 <= s.count
    && (s.count > 0 ==> s.minimum <= s.count && s.accepted <= s.count)
    && (s.currentPending ==> s.Drawable(s.current) && (s.count > 0 ==> s.accepted < s.count))
    && Balanced(s)
    && Counted(s)
    // Either every seat went to a fresh endpoint, or no eligible endpoint is left unused.
    && (s.accepted == |s.Used()| || s.EligibleEndpoints() <= s.Used())
  }

  lemma NoSeatsYet(s: State, e: Endpoint)
    requires s.Shaped() && forall i :: 0 <= i < |s.endpoints| ==> s.candidateSeats[i] == 0
    ensures SumOver(s.CandidateSeats(e).Keys, s.CandidateSeats(e)) == 0
  {
    DropZeros(s.CandidateSeats(e).Keys, {}, s.CandidateSeats(e));
  }

  lemma InitialCounted(endpoints: seq<string>, opts: Options)
    ensures Initial(endpoints, opts).Shaped() && Counted(Initial(endpoints, opts)) && Balanced(Initial(endpoints, opts))
  {
    hide NewError;
    var s := Initial(endpoints, opts);
    forall e ensures SeatsAgree(s, e) { NoSeatsYet(s, e); }
  }

  lemma InitiallyEligible(endpoints: seq<string>, opts: Options)
    ensures var s := Initial(endpoints, opts);
            && s.Used() == {}
            && s.EligibleEndpoints() == set e | e in NormalizeAll(endpoints) && Allowed(e, set a | a in NormalizeAll(opts.allowedEndpoints))
  {
    hide Allowed, NormalizeAll;
    var s := Initial(endpoints, opts);
    var allowed := set a | a in NormalizeAll(opts.allowedEndpoints);
    forall e | e in NormalizeAll(endpoints) && Allowed(e, allowed) ensures e in s.EligibleEndpoints() {
      var i :| 0 <= i < |s.endpoints| && s.endpoints[i] == e;
      assert s.eligible[i];
    }
  }

  lemma InitialInvariant(endpoints: seq<string>, opts: Options)
    requires NewError(endpoints, opts) == None
    ensures Invariant(Initial(endpoints, opts)) && Initial(endpoints, opts).Enough()
    ensures Initial(endpoints, opts).EligibleEndpoints() != {}
  {
    hide Counted, Balanced, State.Used, State.EligibleEndpoints, Allowed, NormalizeAll;
    InitialCounted(endpoints, opts);
    InitiallyEligible(endpoints, opts);
    var s := Initial(endpoints, opts);
    assert s.Used() + s.EligibleEndpoints() == s.EligibleEndpoints();
  }

  /** Accepting the pending candidate adds its endpoint to the used ones and changes no eligibility. */
  lemma AcceptedUse(s: State)
    requires s.Shaped() && s.Eligible(s.current)
    ensures Accepted(s).Used() == s.Used() + {s.endpoints[s.current]}
    ensures Accepted(s).EligibleEndpoints() == s.EligibleEndpoints()
    ensures s.endpoints[s.current] in s.EligibleEndpoints()
    ensures Accepted(s).Used() + Accepted(s).EligibleEndpoints() == s.Used() + s.EligibleEndpoints()
  {
    var s', e := Accepted(s), s.endpoints[s.current];
    forall x ensures x in s'.Used() <==> x in s.Used() || x == e {
      assert s'.Seats(x) == s.Seats(x) + if x == e then 1 else 0;
    }
    assert s'.eligible == s.eligible && s'.endpoints == s.endpoints;
  }

  lemma AcceptedSeatsAgree(s: State, e: Endpoint)
    requires s.Shaped() && 0 <= s.current < |s.endpoints| && SeatsAgree(s, e)
    ensures SeatsAgree(Accepted(s), e)
  {
    var s', c := Accepted(s), s.current;
    if e == s.endpoints[c] {
      assert s'.CandidateSeats(e) == s.CandidateSeats(e)[c := s.candidateSeats[c] + 1];
      Increment(s.CandidateSeats(e), c, s.candidateSeats[c]);
    } else {
      assert s'.CandidateSeats(e) == s.CandidateSeats(e);
    }
  }

  lemma AcceptedEndpointBalance(s: State, e: Endpoint, j: int)
    requires Invariant(s) && s.currentPending
    ensures EndpointBalance(Accepted(s), e, j)
  {
    assert EndpointBalance(s, e, j);
  }

  lemma AcceptedCandidateBalance(s: State, i: int, j: int)
    requires Invariant(s) && s.currentPending
    ensures CandidateBalance(Accepted(s), i, j)
  {
    assert CandidateBalance(s, i, j);
  }

  /** When a used endpoint is the least used eligible one, no eligible endpoint is unused. */
  lemma NoneUnused(s: State, i: int)
    requires s.Shaped() && s.Drawable(i) && s.Seats(s.endpoints[i]) > 0
    ensures s.EligibleEndpoints() <= s.Used()
  {
    forall x | x in s.EligibleEndpoints() ensures x in s.Used() {
      var j :| s.Eligible(j) && s.endpoints[j] == x;
      assert s.Seats(x) >= s.Seats(s.endpoints[i]) > 0;
    }
  }

  lemma AcceptedFresh(s: State)
    requires Invariant(s) && s.currentPending
    ensures Accepted(s).accepted == |Accepted(s).Used()| || Accepted(s).EligibleEndpoints() <= Accepted(s).Used()
  {
    var e := s.endpoints[s.current];
    AcceptedUse(s);
    if s.Seats(e) > 0 {
      NoneUnused(s, s.current);
    } else {
      assert e !in s.Used() && e in s.EligibleEndpoints();
    }
  }

  lemma AcceptedBalanced(s: State)
    requires Invariant(s) && s.currentPending
    ensures Accepted(s).Shaped() && Balanced(Accepted(s))
  {
    hide Invariant, EndpointBalance, CandidateBalance;
    PendingDrawable(s);
    forall x, j ensures EndpointBalance(Accepted(s), x, j) { AcceptedEndpointBalance(s, x, j); }
    forall i, j ensures CandidateBalance(Accepted(s), i, j) { AcceptedCandidateBalance(s, i, j); }
  }

  lemma AcceptedCounted(s: State)
    requires s.Shaped() && 0 <= s.current < |s.endpoints| && Counted(s)
    ensures Counted(Accepted(s))
  {
    hide SeatsAgree;
    var s', e := Accepted(s), s.endpoints[s.current];
    forall x ensures SeatsAgree(s', x) {
      assert SeatsAgree(s, x);
      AcceptedSeatsAgree(s, x);
    }
    Increment(s.seats, e, s.Seats(e));
  }

  lemma PendingDrawable(s: State)
    requires Invariant(s) && s.currentPending
    ensures s.Shaped() && s.Eligible(s.current)
  {
  }

  lemma AcceptKeepsInvariant(s: State)
    requires Invariant(s) && s.currentPending
    ensures Invariant(Accepted(s))
  {
    hide Balanced, Counted, State.Used, State.EligibleEndpoints;
    PendingDrawable(s);
    AcceptedBalanced(s);
    AcceptedCounted(s);
    AcceptedFresh(s);
  }

  /** Fewer eligible candidates: everything but the pending selection is kept. */
  lemma ShrinkKeepsInvariant(s: State, s': State)
    requires Invariant(s) && s'.Shaped()
    requires s' == s.(eligible := s'.eligible, currentPending := false)
    requires forall i :: s'.Eligible(i) ==> s.Eligible(i)
    ensures Invariant(s') && s'.Used() == s.Used() && s'.EligibleEndpoints() <= s.EligibleEndpoints()
  {
    forall x ensures SeatsAgree(s', x) {
      assert SeatsAgree(s, x);
      assert s'.CandidateSeats(x) == s.CandidateSeats(x);
    }
    forall x, j ensures EndpointBalance(s', x, j) { assert EndpointBalance(s, x, j); }
    forall i, j ensures CandidateBalance(s', i, j) { assert CandidateBalance(s, i, j); }
    forall x | x in s'.EligibleEndpoints() ensures x in s.EligibleEndpoints() {
      var i :| s'.Eligible(i) && s'.endpoints[i] == x;
      assert s.Eligible(i);
    }
  }

  lemma DrawKeepsInvariant(s: State, i: int)
    requires Invariant(s) && s.DrawError() == None && s.Drawable(i)
    ensures Invariant(s.(current := i, currentPending := true))
  {
    var s' := s.(current := i, currentPending := true);
    forall x ensures SeatsAgree(s', x) {
      assert SeatsAgree(s, x);
      assert s'.CandidateSeats(x) == s.CandidateSeats(x);
    }
    forall x, j ensures EndpointBalance(s', x, j) { assert EndpointBalance(s, x, j); }
    forall i, j ensures CandidateBalance(s', i, j) { assert CandidateBalance(s, i, j); }
    assert s'.Used() == s.Used() && s'.EligibleEndpoints() == s.EligibleEndpoints();
  }

  lemma DrawStep(s: State, error: Option<Error>, i: int)
    requires s.Shaped() && s.DrawError() == error
    ensures error.Some? ==> Step(s, Draw, s, error)
    ensures error == None ==> Step(s, Draw, s, Some(NoEntropy))
    ensures error == None && s.Drawable(i) ==> Step(s, Draw, s.(current := i, currentPending := true), None)
  {
  }

  lemma StepKeepsInvariant(s: State, op: Op, s': State, error: Option<Error>)
    requires Invariant(s) && Step(s, op, s', error)
    ensures Invariant(s')
    ensures s'.endpoints == s.endpoints && s'.count == s.count && s'.minimum == s.minimum
  {
    if s' == s {
      return;
    }
    match op
    case Draw =>
      DrawKeepsInvariant(s, s'.current);
    case Accept(index) =>
      AcceptKeepsInvariant(s);
    case Reject(index) =>
      ShrinkKeepsInvariant(s, s');
    case RejectEndpoint(endpoint) =>
      ShrinkKeepsInvariant(s, s');
  }

  lemma SubsetCardinality<T>(a: set<T>, b: set<T>)
    requires a <= b
    ensures |a| <= |b|
    ensures |a| == |b| ==> a == b
  {
    assert b == a + (b - a);
  }

  lemma ShrinkLosesEnough(s: State, s': State)
    requires Invariant(s) && s'.Shaped()
    requires s' == s.(eligible := s'.eligible, currentPending := false)
    requires forall i :: s'.Eligible(i) ==> s.Eligible(i)
    ensures s'.Enough() ==> s.Enough()
  {
    hide Invariant;
    InvariantShaped(s);
    ShrinkKeepsInvariant(s, s');
    SubsetCardinality(s'.Used() + s'.EligibleEndpoints(), s.Used() + s.EligibleEndpoints());
  }

  lemma DrawKeepsEnough(s: State, s': State)
    requires s.Shaped() && s' == s.(current := s'.current, currentPending := s'.currentPending)
    ensures s'.Enough() <==> s.Enough()
  {
    assert s'.Used() == s.Used() && s'.EligibleEndpoints() == s.EligibleEndpoints();
  }

  lemma AcceptKeepsEnough(s: State)
    requires s.Shaped() && s.Eligible(s.current)
    ensures Accepted(s).Shaped() && (Accepted(s).Enough() <==> s.Enough())
  {
    AcceptedUse(s);
  }

  /** Availability is lost exactly by the step that reports it, and never comes back. */
  lemma StepEnough(s: State, op: Op, s': State, error: Option<Error>)
    requires Invariant(s) && Step(s, op, s', error)
    ensures s'.Shaped() && (s'.Enough() <==> s.Enough() && error != Some(TooFewEndpointsRemain))
  {
    hide Invariant, State.Enough, State.Used, State.EligibleEndpoints, State.Drawable;
    InvariantShaped(s);
    match op
    case Draw => if s' != s { DrawKeepsEnough(s, s'); }
    case Accept(index) =>
      if s.currentPending {
        PendingDrawable(s);
        AcceptKeepsEnough(s);
      }
    case Reject(index) => if s.CurrentError(index) == None { ShrinkLosesEnough(s, s'); }
    case RejectEndpoint(endpoint) => if Named(endpoint) != NO_ENDPOINT { ShrinkLosesEnough(s, s'); }
  }

  lemma InvariantShaped(s: State)
    requires Invariant(s)
    ensures s.Shaped()
  {
  }

  // ---------- Whole runs ----------

  datatype Event = Event(op: Op, error: Option<Error>)

  /** A run from a given state; states[k+1] is what the k-th event leaves. */
  ghost predicate Run(start: State, states: seq<State>, events: seq<Event>) {
    && |states| == |events| + 1
    && states[0] == start
    && forall k :: 0 <= k < |events| ==> StepAt(states, events, k)
  }

  ghost predicate StepAt(states: seq<State>, events: seq<Event>, k: nat)
    requires k < |events| < |states|
  {
    states[k].Shaped() && Step(states[k], events[k].op, states[k + 1], events[k].error)
  }

  ghost predicate Failed(events: seq<Event>) {
    exists k :: 0 <= k < |events| && events[k].error == Some(TooFewEndpointsRemain)
  }

  lemma RunPrefix(start: State, states: seq<State>, events: seq<Event>)
    requires Run(start, states, events) && |events| > 0
    ensures Run(start, states[..|events|], events[..|events| - 1])
    ensures StepAt(states, events, |events| - 1)
  {
    var states0, events0 := states[..|events|], events[..|events| - 1];
    forall k | 0 <= k < |events0| ensures StepAt(states0, events0, k) { assert StepAt(states, events, k); }
  }

  lemma FailedLast(events: seq<Event>)
    requires |events| > 0
    ensures Failed(events) <==> Failed(events[..|events| - 1]) || events[|events| - 1].error == Some(TooFewEndpointsRemain)
  {
    var events0 := events[..|events| - 1];
    if k :| 0 <= k < |events| && events[k].error == Some(TooFewEndpointsRemain) && k < |events| - 1 {
      assert events0[k].error == Some(TooFewEndpointsRemain);
    }
    if k :| 0 <= k < |events0| && events0[k].error == Some(TooFewEndpointsRemain) {
      assert events[k].error == Some(TooFewEndpointsRemain);
    }
  }

  lemma {:induction false} RunInvariant(start: State, states: seq<State>, events: seq<Event>)
    requires Invariant(start) && Run(start, states, events)
    ensures Invariant(states[|events|])
    ensures states[|events|].count == start.count && states[|events|].minimum == start.minimum
    ensures states[|events|].endpoints == start.endpoints
    decreases |events|
  {
    if |events| > 0 {
      var n := |events| - 1;
      RunPrefix(start, states, events);
      RunInvariant(start, states[..|events|], events[..n]);
      StepKeepsInvariant(states[n], events[n].op, states[n + 1], events[n].error);
    }
  }

  /** Enough endpoints remain exactly as long as no rejection has reported otherwise. */
  lemma {:induction false} RunEnough(start: State, states: seq<State>, events: seq<Event>)
    requires Invariant(start) && start.Enough() && Run(start, states, events)
    ensures states[|events|].Shaped() && (states[|events|].Enough() <==> !Failed(events))
    decreases |events|
  {
    if |events| > 0 {
      var n := |events| - 1;
      RunPrefix(start, states, events);
      RunInvariant(start, states[..|events|], events[..n]);
      RunEnough(start, states[..|events|], events[..n]);
      StepEnough(states[n], events[n].op, states[n + 1], events[n].error);
      FailedLast(events);
    }
  }

  /** Each used endpoint holds at least one of the accepted seats. */
  lemma UsedAtMostAccepted(s: State)
    requires Invariant(s)
    ensures |s.Used()| <= s.accepted
  {
    DropZeros(s.seats.Keys, s.Used(), s.seats);
    SumBetween(s.Used(), s.seats, 1, s.accepted) by {
      forall e | e in s.Used() ensures s.seats[e] <= s.accepted { SplitOff(s.seats.Keys, s.seats, e); }
    }
  }

  /** A filled council validates exactly when no rejection of the run reported too few endpoints.
      With an open-ended council (count 0) the minimum number of seats must also have been filled. */
  lemma FilledCouncilValidates(endpoints: seq<string>, opts: Options, states: seq<State>, events: seq<Event>)
    requires NewError(endpoints, opts) == None && Run(Initial(endpoints, opts), states, events)
    requires !states[|events|].currentPending
    requires opts.count > 0 ==> states[|events|].accepted == opts.count
    ensures states[|events|].ValidateError() == None <==>
            !Failed(events) && states[|events|].accepted >= opts.minimumDistinctEndpoints
    ensures opts.count > 0 ==> (states[|events|].ValidateError() == None <==> !Failed(events))
  {
    InitialInvariant(endpoints, opts);
    RunInvariant(Initial(endpoints, opts), states, events);
    RunEnough(Initial(endpoints, opts), states, events);
    FilledValidates(states[|events|]);
  }

  // ---------- A run that fills the council and fails its validation ----------

  const TWO := ["a", "b"]
  const TWO_OF_TWO := Options(2, [], 2)

  function TwoState(first: bool, seats: nat, current: int, pending: bool): State {
    State([Endpoint("a"), Endpoint("b")], [first, true], if seats == 0 then map[] else map[Endpoint("b") := seats], [0, seats], 2, 2, seats,
          current, pending)
  }

  lemma TwoNames()
    ensures NormalizeAll(TWO) == [Endpoint("a"), Endpoint("b")]
    ensures NormalizeAll([]) == []
  {
    hide Named;
    LetterNamed("a");
    LetterNamed("b");
  }

  lemma TwoInitially()
    ensures NewError(TWO, TWO_OF_TWO) == None && Initial(TWO, TWO_OF_TWO) == TwoState(true, 0, 0, false)
  {
    hide NormalizeAll, Named;
    TwoNames();
    var names := [Endpoint("a"), Endpoint("b")];
    var available := set e | e in names && Allowed(e, {});
    assert available == {Endpoint("a"), Endpoint("b")};
    var allowed := set e | e in NormalizeAll(TWO_OF_TWO.allowedEndpoints);
    assert allowed == {};
    var s := Initial(TWO, TWO_OF_TWO);
    assert s.endpoints == names && s.eligible == [true, true] && s.candidateSeats == [0, 0];
  }

  lemma LetterNamed(letter: string)
    requires letter in ["a", "b"]
    ensures Named(letter) == Endpoint(letter)
  {
    OutsideRanges(letter[0], WHITE_SPACE);
    TrimSpaceTrims(letter);
    assert ToLower(letter) == letter;
  }

  lemma TwoDraw(first: bool, seats: nat, current: int, chosen: int)
    requires seats < 2 && (chosen == 1 || (chosen == 0 && first)) && (chosen == 1 ==> !first)
    ensures Step(TwoState(first, seats, current, false), Draw, TwoState(first, seats, chosen, true), None)
  {
    var s := TwoState(first, seats, current, false);
    assert s.Eligible(1);
    assert s.endpoints[1] in s.EligibleEndpoints();
    assert s.Drawable(chosen);
  }

  lemma TwoAccept(seats: nat)
    ensures Step(TwoState(false, seats, 1, true), Accept(1), TwoState(false, seats + 1, 1, false), None)
  {
    var s := TwoState(false, seats, 1, true);
    assert Accepted(s).seats == map[Endpoint("b") := seats + 1];
    assert Accepted(s).candidateSeats == [0, seats + 1];
  }

  lemma TwoReject()
    ensures Step(TwoState(true, 0, 0, true), Reject(0), TwoState(false, 0, 0, false), Some(TooFewEndpointsRemain))
  {
    var s := TwoState(false, 0, 0, false);
    assert TwoState(true, 0, 0, true).eligible[0 := false] == [false, true];
    assert s.endpoints[1] in s.EligibleEndpoints() && s.Used() == {};
    assert s.EligibleEndpoints() == {Endpoint("b")};
    assert s.Used() + s.EligibleEndpoints() == {Endpoint("b")};
  }

  /** Two candidates on two endpoints for two seats on two endpoints: the first is drawn and rejected, which reports
      that too few endpoints remain; going on regardless fills both seats from the second, and validation fails. */
  lemma FilledAfterAFailedRejection() returns (states: seq<State>, events: seq<Event>)
    ensures NewError(TWO, TWO_OF_TWO) == None && Run(Initial(TWO, TWO_OF_TWO), states, events) && Failed(events)
    ensures !states[|events|].currentPending && states[|events|].accepted == 2
    ensures states[|events|].ValidateError() == Some(TooFewDistinctEndpoints)
  {
    hide Step, TwoState, Initial, NewError, State.ValidateError;
    TwoInitially();
    states := [TwoState(true, 0, 0, false), TwoState(true, 0, 0, true), TwoState(false, 0, 0, false), TwoState(false, 0, 1, true),
               TwoState(false, 1, 1, false), TwoState(false, 1, 1, true), TwoState(false, 2, 1, false)];
    events := [Event(Draw, None), Event(Reject(0), Some(TooFewEndpointsRemain)), Event(Draw, None), Event(Accept(1), None),
               Event(Draw, None), Event(Accept(1), None)];
    TwoDraw(true, 0, 0, 0);
    TwoReject();
    TwoDraw(false, 0, 0, 1);
    TwoAccept(0);
    TwoDraw(false, 1, 1, 1);
    TwoAccept(1);
    TwoShaped();
    forall k | 0 <= k < |events| ensures StepAt(states, events, k) { }
    assert events[1].error == Some(TooFewEndpointsRemain);
    TwoValidation();
  }

  lemma TwoShaped()
    ensures forall first, seats: nat, current, pending :: TwoState(first, seats, current, pending).Shaped()
  {
  }

  lemma TwoValidation()
    ensures var s := TwoState(false, 2, 1, false); !s.currentPending && s.accepted == 2 && s.ValidateError() == Some(TooFewDistinctEndpoints)
  {
    assert TwoState(false, 2, 1, false).Used() == {Endpoint("b")};
  }

  /** A filled selector validates exactly when enough endpoints are used or still available. */
  lemma FilledValidates(s: State)
    requires Invariant(s) && !s.currentPending && (s.count > 0 ==> s.accepted == s.count)
    ensures s.ValidateError() == None <==> s.Enough() && s.accepted >= s.minimum
    ensures s.count > 0 ==> s.accepted >= s.minimum
  {
    UsedAtMostAccepted(s);
    SubsetCardinality(s.Used(), s.Used() + s.EligibleEndpoints());
    if s.accepted != |s.Used()| {
      assert s.Used() + s.EligibleEndpoints() == s.Used();
    }
  }

  /** No restriction was given, or the candidate's endpoint is one of those named, whatever the spelling. */
  predicate Permitted(endpoints: seq<string>, opts: Options, i: nat)
    requires i < |endpoints|
  {
    opts.allowedEndpoints == [] ||
    exists j :: 0 <= j < |opts.allowedEndpoints| && Normalize(opts.allowedEndpoints[j]) == Normalize(endpoints[i])
  }

  lemma PermittedExactly(endpoints: seq<string>, opts: Options, i: nat)
    requires i < |endpoints|
    ensures Allowed(Named(endpoints[i]), set e | e in NormalizeAll(opts.allowedEndpoints)) <==> Permitted(endpoints, opts, i)
  {
    hide Normalize;
    var names := NormalizeAll(opts.allowedEndpoints);
    var allowed := set e | e in names;
    if opts.allowedEndpoints != [] { assert names[0] in allowed; }
    if Permitted(endpoints, opts, i) && opts.allowedEndpoints != [] {
      var j :| 0 <= j < |opts.allowedEndpoints| && Normalize(opts.allowedEndpoints[j]) == Normalize(endpoints[i]);
      assert names[j] in names;
    }
    if Named(endpoints[i]) in allowed {
      var j :| 0 <= j < |names| && names[j] == Named(endpoints[i]);
      assert Named(opts.allowedEndpoints[j]) == Named(endpoints[i]);
    }
  }

  /** Whoever can be drawn or holds a seat is permitted. */
  ghost predicate OnlyPermitted(s: State, endpoints: seq<string>, opts: Options) {
    && s.Shaped() && |s.endpoints| == |endpoints|
    && forall i :: 0 <= i < |endpoints| ==> (s.eligible[i] || s.candidateSeats[i] > 0 ==> Permitted(endpoints, opts, i))
  }

  lemma StepPermitted(s: State, op: Op, s': State, error: Option<Error>, endpoints: seq<string>, opts: Options)
    requires Invariant(s) && Step(s, op, s', error) && OnlyPermitted(s, endpoints, opts)
    ensures OnlyPermitted(s', endpoints, opts)
  {
    hide Permitted, Balanced, Counted, State.Used, State.EligibleEndpoints, Named, AvailabilityError;
  }

  lemma {:induction false} RunPermitted(endpoints: seq<string>, opts: Options, states: seq<State>, events: seq<Event>)
    requires NewError(endpoints, opts) == None && Run(Initial(endpoints, opts), states, events)
    ensures OnlyPermitted(states[|events|], endpoints, opts)
    decreases |events|
  {
    hide OnlyPermitted, Invariant, NewError, Initial;
    if |events| == 0 {
      InitiallyPermitted(endpoints, opts);
    } else {
      var n := |events| - 1;
      RunPrefix(Initial(endpoints, opts), states, events);
      RunPermitted(endpoints, opts, states[..|events|], events[..n]);
      InitialInvariant(endpoints, opts);
      RunInvariant(Initial(endpoints, opts), states[..|events|], events[..n]);
      StepPermitted(states[n], events[n].op, states[n + 1], events[n].error, endpoints, opts);
    }
  }

  lemma InitiallyPermitted(endpoints: seq<string>, opts: Options)
    ensures OnlyPermitted(Initial(endpoints, opts), endpoints, opts)
    ensures forall i :: 0 <= i < |endpoints| ==> (Initial(endpoints, opts).eligible[i] <==> Permitted(endpoints, opts, i))
  {
    hide Permitted, Allowed, Named;
    forall i | 0 <= i < |endpoints| ensures Initial(endpoints, opts).eligible[i] <==> Permitted(endpoints, opts, i) {
      PermittedExactly(endpoints, opts, i);
    }
  }

  /** With allowed endpoints given, a new selector can draw exactly the candidates of those endpoints, by their
      normalized names, and in no run is another candidate ever eligible or seated. */
  lemma OnlyAllowedSeated(endpoints: seq<string>, opts: Options, states: seq<State>, events: seq<Event>, i: nat)
    requires NewError(endpoints, opts) == None && Run(Initial(endpoints, opts), states, events) && i < |endpoints|
    ensures states[|events|].Shaped() && |states[|events|].endpoints| == |Initial(endpoints, opts).eligible| == |endpoints|
    ensures var named := opts.allowedEndpoints == []
              || exists j :: 0 <= j < |opts.allowedEndpoints| && Normalize(opts.allowedEndpoints[j]) == Normalize(endpoints[i]);
            && (Initial(endpoints, opts).eligible[i] <==> named)
            && (states[|events|].eligible[i] || states[|events|].candidateSeats[i] > 0 ==> named)
  {
    hide Normalize, Run, NewError, Allowed, Named;
    InitiallyPermitted(endpoints, opts);
    RunPermitted(endpoints, opts, states, events);
  }

  /** A selector can be made exactly when the counts fit each other, every name given is one, some candidate is permitted,
      and the permitted candidates have as many different endpoints as are required. */
  lemma MadeExactly(endpoints: seq<string>, opts: Options)
    ensures NewError(endpoints, opts).None? <==>
      && 0 <= opts.count && 0 <= opts.minimumDistinctEndpoints
      && (opts.count > 0 ==> opts.minimumDistinctEndpoints <= opts.count)
      && (forall j :: 0 <= j < |opts.allowedEndpoints| ==> Normalize(opts.allowedEndpoints[j]) != "")
      && (forall i :: 0 <= i < |endpoints| ==> Normalize(endpoints[i]) != "")
      && (exists i :: 0 <= i < |endpoints| && Permitted(endpoints, opts, i))
      && |PermittedNames(endpoints, opts)| >= opts.minimumDistinctEndpoints
  {
    hide Normalize, Allowed, Permitted;
    var names, allowed := NormalizeAll(endpoints), NormalizeAll(opts.allowedEndpoints);
    forall i | 0 <= i < |endpoints| ensures Allowed(names[i], set e | e in allowed) <==> Permitted(endpoints, opts, i) {
      PermittedExactly(endpoints, opts, i);
    }
    AvailableNames(endpoints, opts);
    NoBlankName(endpoints);
    NoBlankName(opts.allowedEndpoints);
    var available := set e | e in names && Allowed(e, set a | a in allowed);
    if i :| 0 <= i < |endpoints| && Permitted(endpoints, opts, i) { assert names[i] in available; }
    if available != {} {
      var e :| e in available;
      var i :| 0 <= i < |names| && names[i] == e;
      assert Permitted(endpoints, opts, i);
    }
  }

  /** The normalized names of the permitted candidates. */
  function PermittedNames(endpoints: seq<string>, opts: Options): set<string> {
    set i | 0 <= i < |endpoints| && Permitted(endpoints, opts, i) :: Normalize(endpoints[i])
  }

  lemma NoBlankName(names: seq<string>)
    ensures NO_ENDPOINT in NormalizeAll(names) <==> !forall i :: 0 <= i < |names| ==> Normalize(names[i]) != ""
  {
    hide Normalize;
    if i :| 0 <= i < |names| && Normalize(names[i]) == "" { assert NormalizeAll(names)[i] == NO_ENDPOINT; }
  }

  /** Endpoints and their names are equally many. */
  lemma AvailableNames(endpoints: seq<string>, opts: Options)
    ensures |set e | e in NormalizeAll(endpoints) && Allowed(e, set a | a in NormalizeAll(opts.allowedEndpoints))|
         == |PermittedNames(endpoints, opts)|
  {
    hide Normalize, Allowed, Permitted;
    var names := NormalizeAll(endpoints);
    var available := set e | e in names && Allowed(e, set a | a in NormalizeAll(opts.allowedEndpoints));
    forall name ensures name in PermittedNames(endpoints, opts) <==> Endpoint(name) in available {
      if Endpoint(name) in available {
        var i :| 0 <= i < |names| && names[i] == Endpoint(name);
        PermittedExactly(endpoints, opts, i);
      }
      if name in PermittedNames(endpoints, opts) {
        var i :| 0 <= i < |endpoints| && Permitted(endpoints, opts, i) && Normalize(endpoints[i]) == name;
        PermittedExactly(endpoints, opts, i);
        assert names[i] in names;
      }
    }
    SameNumber(available, PermittedNames(endpoints, opts));
  }

  lemma {:induction false} SameNumber(a: set<Endpoint>, b: set<string>)
    requires forall name :: name in b <==> Endpoint(name) in a
    ensures |a| == |b|
    decreases b
  {
    if b == {} {
      forall e ensures e !in a { assert e == Endpoint(e.name); }
      assert a == {};
    } else {
      var name :| name in b;
      SameNumber(a - {Endpoint(name)}, b - {name});
    }
  }

  /** At every reachable state, seats are balanced over what can still be drawn. */
  lemma RunBalanced(endpoints: seq<string>, opts: Options, states: seq<State>, events: seq<Event>)
    requires NewError(endpoints, opts) == None && Run(Initial(endpoints, opts), states, events)
    ensures states[|events|].Shaped()
    ensures forall e, j :: EndpointBalance(states[|events|], e, j)
    ensures forall i, j :: CandidateBalance(states[|events|], i, j)
  {
    InitialInvariant(endpoints, opts);
    RunInvariant(Initial(endpoints, opts), states, events);
  }

  lemma EligibleBalance(s: State, y: Endpoint, z: Endpoint)
    requires Invariant(s) && z in s.EligibleEndpoints()
    ensures s.Seats(y) <= s.Seats(z) + 1
  {
    var j :| s.Eligible(j) && s.endpoints[j] == z;
    assert EndpointBalance(s, y, j);
  }

  function EndpointWeights(s: State): map<Endpoint, nat>
    requires s.Shaped()
  {
    map e | e in s.EligibleEndpoints() :: s.Seats(e)
  }

  lemma EligibleTotal(s: State)
    requires Invariant(s) && s.Used() <= s.EligibleEndpoints()
    ensures SumOver(s.EligibleEndpoints(), EndpointWeights(s)) == s.accepted
  {
    var w := EndpointWeights(s);
    SameWeights(s.Used(), s.seats, w);
    DropZeros(s.seats.Keys, s.Used(), s.seats);
    DropZeros(s.EligibleEndpoints(), s.Used(), w);
  }

  /** When every seated endpoint is still eligible, the accepted seats are shared evenly. */
  lemma EndpointShare(s: State, e: Endpoint)
    requires Invariant(s) && s.Used() <= s.EligibleEndpoints() && e in s.EligibleEndpoints()
    ensures EvenShare(s.Seats(e), s.accepted, |s.EligibleEndpoints()|)
  {
    var w := EndpointWeights(s);
    EligibleTotal(s);
    forall y, z | y in w && z in w ensures w[y] <= w[z] + 1 { EligibleBalance(s, y, z); }
    FloorOrCeiling(s.EligibleEndpoints(), w, e);
  }

  /** Likewise for the configurations of an endpoint, when all of them are eligible. */
  lemma CandidateShare(s: State, i: int)
    requires Invariant(s) && s.Eligible(i)
    requires forall j :: 0 <= j < |s.endpoints| && s.endpoints[j] == s.endpoints[i] ==> s.eligible[j]
    ensures EvenShare(s.candidateSeats[i], s.Seats(s.endpoints[i]), |s.CandidateSeats(s.endpoints[i]).Keys|)
  {
    var w := s.CandidateSeats(s.endpoints[i]);
    assert i in w.Keys;
    assert SeatsAgree(s, s.endpoints[i]);
    forall y, z | y in w.Keys && z in w.Keys ensures w[y] <= w[z] + 1 { assert CandidateBalance(s, y, z); }
    FloorOrCeiling(w.Keys, w, i);
  }

  predicate WithoutRejections(events: seq<Event>) {
    forall k :: 0 <= k < |events| ==> events[k].op.Draw? || events[k].op.Accept?
  }

  /** The n seats are shared over the k eligible endpoints as floor or ceiling of n / k, and the seats of
      candidate i's endpoint in the same way over that endpoint's configurations. */
  ghost predicate EvenlyShared(s: State, i: int) {
    && s.Shaped() && s.Eligible(i)
    && EvenShare(s.Seats(s.endpoints[i]), s.accepted, |s.EligibleEndpoints()|)
    && EvenShare(s.candidateSeats[i], s.Seats(s.endpoints[i]), |s.CandidateSeats(s.endpoints[i]).Keys|)
  }

  lemma FullyEligibleShares(s: State, i: int)
    requires Invariant(s) && s.Used() <= s.EligibleEndpoints() && s.Eligible(i)
    requires forall j :: 0 <= j < |s.endpoints| && s.endpoints[j] == s.endpoints[i] ==> s.eligible[j]
    ensures EvenlyShared(s, i)
  {
    EndpointShare(s, s.endpoints[i]);
    CandidateShare(s, i);
  }

  /** Without rejections every eligible candidate keeps its even share for the whole run. */
  lemma RunWithoutRejections(
    endpoints: seq<string>, opts: Options, states: seq<State>, events: seq<Event>, i: int)
    requires NewError(endpoints, opts) == None && Run(Initial(endpoints, opts), states, events)
    requires WithoutRejections(events) && Initial(endpoints, opts).Eligible(i)
    ensures EvenlyShared(states[|events|], i)
    ensures states[|events|].eligible == Initial(endpoints, opts).eligible
  {
    InitialInvariant(endpoints, opts);
    RunInvariant(Initial(endpoints, opts), states, events);
    EligibilityUnchanged(Initial(endpoints, opts), states, events);
    InitialEndpointEligible(endpoints, opts, i);
    FullyEligibleShares(states[|events|], i);
  }

  /** Initially an endpoint is eligible with all of its candidates or with none. */
  lemma InitialEndpointEligible(endpoints: seq<string>, opts: Options, i: int)
    requires Initial(endpoints, opts).Eligible(i)
    ensures var s := Initial(endpoints, opts);
            forall j :: 0 <= j < |s.endpoints| && s.endpoints[j] == s.endpoints[i] ==> s.eligible[j]
  {
  }

  lemma {:induction false} EligibilityUnchanged(start: State, states: seq<State>, events: seq<Event>)
    requires Invariant(start) && start.Used() == {} && Run(start, states, events) && WithoutRejections(events)
    ensures states[|events|].eligible == start.eligible
    ensures states[|events|].Shaped() && states[|events|].Used() <= states[|events|].EligibleEndpoints()
    decreases |events|
  {
    if |events| > 0 {
      var n := |events| - 1;
      RunPrefix(start, states, events);
      RunInvariant(start, states[..|events|], events[..n]);
      EligibilityUnchanged(start, states[..|events|], events[..n]);
      if events[n].op.Accept? && events[n].error == None { AcceptedUse(states[n]); }
    }
  }

  // ---------- The imperative allocator ----------

  // ---------- Grouping candidates ----------

  /** The eligible ones of the first n candidates, by endpoint. */
  ghost predicate Grouped(s: State, groups: map<Endpoint, seq<nat>>, n: nat)
    requires s.Shaped()
  {
    && (forall j :: 0 <= j < n && s.Eligible(j) ==> s.endpoints[j] in groups && j in groups[s.endpoints[j]])
    && (forall e, j :: e in groups && j in groups[e] ==> Belongs(s, n, e, j))
    && (forall e :: e in groups ==> groups[e] != [])
  }

  predicate Belongs(s: State, n: nat, e: Endpoint, j: nat)
    requires s.Shaped()
  {
    j < n && s.Eligible(j) && s.endpoints[j] == e
  }

  lemma NothingGrouped(s: State)
    requires s.Shaped()
    ensures Grouped(s, map[], 0)
  {
  }

  lemma OneMoreGrouped(s: State, groups: map<Endpoint, seq<nat>>, n: nat)
    requires s.Shaped() && n < |s.endpoints| && Grouped(s, groups, n)
    ensures var e := s.endpoints[n];
            if s.eligible[n] then Grouped(s, groups[e := (if e in groups then groups[e] else []) + [n]], n + 1)
            else Grouped(s, groups, n + 1)
  {
    if s.eligible[n] {
      GroupGrown(s, groups, n);
    } else {
      forall e, j | e in groups && j in groups[e] ensures Belongs(s, n + 1, e, j) { assert Belongs(s, n, e, j); }
    }
  }

  lemma GroupGrown(s: State, groups: map<Endpoint, seq<nat>>, n: nat)
    requires s.Shaped() && n < |s.endpoints| && Grouped(s, groups, n) && s.eligible[n]
    ensures var e := s.endpoints[n]; Grouped(s, groups[e := (if e in groups then groups[e] else []) + [n]], n + 1)
  {
    var group := (if s.endpoints[n] in groups then groups[s.endpoints[n]] else []) + [n];
    var groups' := groups[s.endpoints[n] := group];
    forall e, j | e in groups' && j in groups'[e] ensures Belongs(s, n + 1, e, j) {
      if j != n { assert e in groups && j in groups[e] && Belongs(s, n, e, j); }
    }
    forall j | 0 <= j < n + 1 && s.Eligible(j) ensures s.endpoints[j] in groups' && j in groups'[s.endpoints[j]] {
      if j == n { assert group[|group| - 1] == n; }
    }
  }

  lemma AllGrouped(s: State, groups: map<Endpoint, seq<nat>>)
    requires s.Shaped() && Grouped(s, groups, |s.endpoints|)
    ensures groups.Keys == s.EligibleEndpoints()
    ensures forall e, j :: e in groups ==> (j in groups[e] <==> s.Eligible(j) && s.endpoints[j] == e)
  {
    forall e, j | e in groups && j in groups[e] ensures s.Eligible(j) && s.endpoints[j] == e { assert Belongs(s, |s.endpoints|, e, j); }
    forall e | e in groups ensures e in s.EligibleEndpoints() {
      assert groups[e][0] in groups[e];
      assert Belongs(s, |s.endpoints|, e, groups[e][0]);
    }
  }


  class Selector {
    const endpoints: seq<Endpoint>
    const eligible: array<bool>
    var seats: map<Endpoint, nat>
    const candidateSeats: array<nat>
    const minimum: int
    const count: int
    var accepted: nat
    var current: int
    var currentPending: bool

    ghost function View(): State
      reads this, eligible, candidateSeats
    {
      State(endpoints, eligible[..], seats, candidateSeats[..], minimum, count, accepted, current, currentPending)
    }

    ghost predicate Valid()
      reads this, eligible, candidateSeats
    {
      Invariant(View())
    }

    constructor (endpoints: seq<Endpoint>, eligible: seq<bool>, minimum: int, count: int)
      requires |eligible| == |endpoints|
      ensures fresh(this.eligible) && fresh(candidateSeats)
      ensures View() == State(endpoints, eligible, map[], seq(|endpoints|, i => 0), minimum, count, 0, 0, false)
    {
      this.endpoints := endpoints;
      this.eligible := new bool[|eligible|](i requires 0 <= i < |eligible| => eligible[i]);
      this.seats := map[];
      this.candidateSeats := new nat[|endpoints|](i => 0);
      this.minimum := minimum;
      this.count := count;
      this.accepted := 0;
      this.current := 0;
      this.currentPending := false;
    }

    /** Builds a selector over a candidate pool, or reports the first unusable option or candidate. */
    static method New(endpoints: seq<string>, opts: Options) returns (r: Result<Selector, Error>)
      ensures r.Success? <==> NewError(endpoints, opts) == None
      ensures r.Failure? ==> NewError(endpoints, opts) == Some(r.error)
      ensures r.Success? ==> fresh(r.value) && fresh(r.value.eligible) && fresh(r.value.candidateSeats)
      ensures r.Success? ==> r.value.View() == Initial(endpoints, opts) && r.value.Valid() && r.value.View().Enough()
    {
      if opts.count < 0 { return Failure(NegativeCount); }
      if opts.minimumDistinctEndpoints < 0 { return Failure(NegativeMinimum); }
      if opts.count > 0 && opts.minimumDistinctEndpoints > opts.count { return Failure(MinimumExceedsCount); }
      var allowed, allowedError := ReadAllowed(NormalizeAll(opts.allowedEndpoints));
      if allowedError.Some? { return Failure(allowedError.value); }
      var normalized := NormalizeAll(endpoints);
      var eligible, available, poolError := ReadPool(normalized, allowed);
      if poolError.Some? { return Failure(poolError.value); }
      if |available| == 0 { return Failure(NoAllowedCandidate); }
      if opts.minimumDistinctEndpoints > |available| { return Failure(MinimumExceedsAvailable); }
      var selector := new Selector(normalized, eligible, opts.minimumDistinctEndpoints, opts.count);
      assert selector.View() == Initial(endpoints, opts);
      InitialInvariant(endpoints, opts);
      return Success(selector);
    }

    static method ReadAllowed(names: seq<Endpoint>) returns (allowed: set<Endpoint>, error: Option<Error>)
      ensures error == if NO_ENDPOINT in names then Some(EmptyAllowedEndpoint) else None
      ensures error == None ==> allowed == set e | e in names
    {
      allowed := {};
      for i := 0 to |names|
        invariant NO_ENDPOINT !in names[..i] && allowed == set e | e in names[..i]
      {
        if names[i] == NO_ENDPOINT { return allowed, Some(EmptyAllowedEndpoint); }
        allowed := allowed + {names[i]};
      }
      assert names[..|names|] == names;
      return allowed, None;
    }

    static method ReadPool(names: seq<Endpoint>, allowed: set<Endpoint>)
      returns (eligible: seq<bool>, available: set<Endpoint>, error: Option<Error>)
      ensures error == if NO_ENDPOINT in names then Some(CandidateWithoutEndpoint) else None
      ensures error == None ==>
                && |eligible| == |names|
                && (forall i :: 0 <= i < |names| ==> eligible[i] == Allowed(names[i], allowed))
                && available == set e | e in names && Allowed(e, allowed)
    {
      eligible, available := [], {};
      for i := 0 to |names|
        invariant NO_ENDPOINT !in names[..i] && |eligible| == i
        invariant forall j :: 0 <= j < i ==> eligible[j] == Allowed(names[j], allowed)
        invariant available == set e | e in names[..i] && Allowed(e, allowed)
      {
        if names[i] == NO_ENDPOINT { return eligible, available, Some(CandidateWithoutEndpoint); }
        if |allowed| > 0 && names[i] !in allowed {
          eligible := eligible + [false];
          continue;
        }
        eligible := eligible + [true];
        available := available + {names[i]};
      }
      assert names[..|names|] == names;
      return eligible, available, None;
    }

    /** Selects a candidate: some least-used one of some least-used endpoint. The two flags say whether
        the random choices of the endpoint and of its candidate can be made. */
    method Draw(endpointEntropy: bool, candidateEntropy: bool) returns (r: Result<nat, Error>)
      requires Valid()
      modifies this
      ensures Valid()
      ensures Step(old(View()), Op.Draw, View(), if r.Failure? then Some(r.error) else None)
      ensures r.Success? ==> currentPending && current == r.value < |endpoints|
      ensures endpointEntropy && candidateEntropy ==> r != Failure(NoEntropy)
    {
      ghost var s := View();
      DrawStep(s, s.DrawError(), 0);
      if currentPending { return Failure(SelectionPending); }
      if count > 0 && accepted >= count { return Failure(CouncilFull); }
      r := Choose(endpointEntropy, candidateEntropy);
      if r.Failure? { return; }
      DrawKeepsInvariant(s, r.value);
      DrawStep(s, None, r.value);
      current, currentPending := r.value, true;
    }

    method Choose(endpointEntropy: bool, candidateEntropy: bool) returns (r: Result<nat, Error>)
      requires View().Shaped()
      ensures View().EligibleEndpoints() == {} ==> r == Failure(NoCandidateRemains)
      ensures View().EligibleEndpoints() != {} ==>
                (r.Success? && View().Drawable(r.value)) || r == Failure(NoEntropy)
      ensures endpointEntropy && candidateEntropy ==> r != Failure(NoEntropy)
    {
      var byEndpoint, minimumSeats := GroupByEndpoint();
      if byEndpoint == map[] { return Failure(NoCandidateRemains); }
      var leastUsed := set e | e in byEndpoint && (if e in seats then seats[e] else 0) == minimumSeats;
      if !endpointEntropy { return Failure(NoEntropy); }
      assert leastUsed != {} by {
        var e :| e in byEndpoint && View().Seats(e) == minimumSeats;
        assert e in leastUsed;
      }
      var endpoint :| endpoint in leastUsed;
      var leastUsedCandidates := LeastUsedCandidates(endpoint, byEndpoint[endpoint]);
      if !candidateEntropy { return Failure(NoEntropy); }
      assert leastUsedCandidates[0] in leastUsedCandidates;
      var choice :| choice in leastUsedCandidates;
      return Success(choice);
    }

    /** The eligible candidates of each endpoint, and the least number of seats any such endpoint holds. */
    method GroupByEndpoint() returns (byEndpoint: map<Endpoint, seq<nat>>, minimumSeats: int)
      requires View().Shaped()
      ensures byEndpoint.Keys == View().EligibleEndpoints()
      ensures forall e, j :: e in byEndpoint ==>
                (j in byEndpoint[e] <==> View().Eligible(j) && View().endpoints[j] == e)
      ensures forall j :: View().Eligible(j) ==> minimumSeats <= View().Seats(endpoints[j])
      ensures byEndpoint != map[] ==> exists e :: e in byEndpoint && View().Seats(e) == minimumSeats
    {
      hide Grouped;
      byEndpoint, minimumSeats := map[], -1;
      ghost var s := View();
      NothingGrouped(s);
      for index := 0 to eligible.Length
        invariant Grouped(s, byEndpoint, index)
        invariant forall e :: e in byEndpoint ==> minimumSeats <= s.Seats(e)
        invariant if byEndpoint == map[] then minimumSeats == -1
                  else minimumSeats >= 0 && exists e :: e in byEndpoint && s.Seats(e) == minimumSeats
      {
        OneMoreGrouped(s, byEndpoint, index);
        if !eligible[index] { continue; }
        var endpoint := endpoints[index];
        var seatCount := if endpoint in seats then seats[endpoint] else 0;
        assert s.Seats(endpoint) == seatCount;
        if minimumSeats < 0 || seatCount < minimumSeats { minimumSeats := seatCount; }
        var group := if endpoint in byEndpoint then byEndpoint[endpoint] else [];
        byEndpoint := byEndpoint[endpoint := group + [index]];
      }
      AllGrouped(s, byEndpoint);
    }

    /** The candidates of an endpoint with the fewest seats of their own. */
    method LeastUsedCandidates(endpoint: Endpoint, candidates: seq<nat>) returns (least: seq<nat>)
      requires View().Shaped() && candidates != []
      requires forall i :: i in candidates <==> View().Eligible(i) && endpoints[i] == endpoint
      ensures least != []
      ensures forall i :: i in least ==> View().Eligible(i) && endpoints[i] == endpoint
      ensures forall i, j :: i in least && View().Eligible(i) && View().Eligible(j) && endpoints[j] == endpoint ==>
                candidateSeats[i] <= candidateSeats[j]
    {
      var minimum: int := -1;
      least := [];
      for k := 0 to |candidates|
        invariant minimum == -1 <==> k == 0
        invariant minimum >= -1 && (k > 0 ==> least != [])
        invariant forall i :: i in least ==> i in candidates && candidateSeats[i] == minimum
        invariant forall m :: 0 <= m < k ==> candidates[m] in candidates && minimum <= candidateSeats[candidates[m]]
      {
        var index := candidates[k];
        assert index in candidates;
        var seatCount := candidateSeats[index];
        if minimum < 0 || seatCount < minimum {
          minimum := seatCount;
          least := [];
        }
        if seatCount == minimum { least := least + [index]; }
      }
    }

    /** Seats the pending candidate. */
    method Accept(index: int) returns (error: Option<Error>)
      requires Valid()
      modifies this, candidateSeats
      ensures Valid() && Step(old(View()), Op.Accept(index), View(), error)
    {
      error := CheckCurrent(index);
      if error.Some? { return; }
      ghost var s := View();
      var endpoint := endpoints[index];
      seats := seats[endpoint := (if endpoint in seats then seats[endpoint] else 0) + 1];
      candidateSeats[index] := candidateSeats[index] + 1;
      accepted := accepted + 1;
      currentPending := false;
      assert View() == Accepted(s);
      StepKeepsInvariant(s, Op.Accept(index), View(), None);
    }

    /** Makes the pending candidate ineligible. */
    method Reject(index: int) returns (error: Option<Error>)
      requires Valid()
      modifies this, eligible
      ensures Valid() && Step(old(View()), Op.Reject(index), View(), error)
    {
      error := CheckCurrent(index);
      if error.Some? { return; }
      ghost var s := View();
      eligible[index] := false;
      currentPending := false;
      assert View() == s.(eligible := s.eligible[index := false], currentPending := false);
      error := ValidateAvailableEndpoints();
      StepKeepsInvariant(s, Op.Reject(index), View(), error);
    }

    /** Makes every candidate of an endpoint ineligible and drops the pending selection. */
    method RejectEndpoint(rejected: string) returns (error: Option<Error>)
      requires Valid()
      modifies this, eligible
      ensures Valid() && Step(old(View()), Op.RejectEndpoint(rejected), View(), error)
    {
      var endpoint := Named(rejected);
      if endpoint == NO_ENDPOINT { return Some(EmptyRejectedEndpoint); }
      ghost var s := View();
      ExcludeEndpoint(endpoint);
      currentPending := false;
      assert View() == WithoutEndpoint(s, endpoint);
      error := ValidateAvailableEndpoints();
      StepKeepsInvariant(s, Op.RejectEndpoint(rejected), View(), error);
    }

    method ExcludeEndpoint(endpoint: Endpoint)
      requires View().Shaped()
      modifies eligible
      ensures eligible[..] == WithoutEndpoint(old(View()), endpoint).eligible
    {
      ghost var target := WithoutEndpoint(View(), endpoint).eligible;
      for index := 0 to |endpoints|
        invariant eligible.Length == |endpoints| == |target|
        invariant forall j :: 0 <= j < index ==> eligible[j] == target[j]
        invariant forall j :: index <= j < |endpoints| ==> eligible[j] == old(eligible[j])
      {
        if endpoints[index] == endpoint { eligible[index] := false; }
      }
    }

    /** Checks that the council is filled and uses enough distinct endpoints. */
    method Validate() returns (error: Option<Error>)
      requires Valid()
      ensures error == View().ValidateError()
    {
      if currentPending { return Some(SelectionPending); }
      if count > 0 && accepted != count { return Some(CouncilIncomplete); }
      var used := UsedEndpoints();
      if |used| < minimum { return Some(TooFewDistinctEndpoints); }
      return None;
    }

    method CheckCurrent(index: int) returns (error: Option<Error>)
      requires Valid()
      ensures error == View().CurrentError(index)
      ensures error == None ==> 0 <= index < |endpoints|
    {
      if !currentPending { return Some(NothingPending); }
      if index != current { return Some(OtherCandidatePending); }
      return None;
    }

    /** The endpoints with a positive seat count, visited in any order. */
    method UsedEndpoints() returns (used: set<Endpoint>)
      requires Valid()
      ensures used == View().Used()
    {
      used := {};
      var rest := seats.Keys;
      while rest != {}
        invariant rest <= seats.Keys
        invariant used == set e | e in seats.Keys - rest && seats[e] > 0
      {
        var endpoint :| endpoint in rest;
        if seats[endpoint] > 0 { used := used + {endpoint}; }
        rest := rest - {endpoint};
      }
    }

    method ValidateAvailableEndpoints() returns (error: Option<Error>)
      requires View().Shaped()
      ensures error == AvailabilityError(View())
    {
      var available := set e | e in seats && seats[e] > 0;
      for index := 0 to |endpoints|
        invariant available == View().Used() + set j | 0 <= j < index && eligible[j] :: endpoints[j]
      {
        if eligible[index] { available := available + {endpoints[index]}; }
      }
      assert available == View().Used() + View().EligibleEndpoints();
      if |available| < minimum { return Some(TooFewEndpointsRemain); }
      return None;
    }
  }
}
