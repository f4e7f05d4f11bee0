/**
 MCP sessions (common/mcpbridge/server.go): opened by initialize, kept alive by use, deleted on request, and
 dropped once idle for too long, either when the next request finds them so or by the background cleanup.
 */
module Sessions {
  import opened Results
  import opened Text

  datatype Assignment = Assignment(audience: string, caseID: string, assignmentType: string, principalID: string)

  datatype Session = Session(assignment: Assignment, lastSeen: int)

  type Table = map<string, Session>

  datatype Outcome = Accepted | MissingID | OtherAssignment | ExpiredSession | UnknownSession

  datatype DeleteOutcome = Gone | DeleteWithoutID | DeleteRefused

  /** Sessions never expire when the time to live is not positive. */
  predicate Idle(ttl: int, stored: Session, now: int) {
    ttl > 0 && stored.lastSeen + ttl <= now
  }

  // ---------- What the procedures do to the table ----------

  function Opened(t: Table, id: string, a: Assignment, now: int): Table {
    t[id := Session(a, now)]
  }

  function UseOutcome(t: Table, ttl: int, header: string, a: Assignment, now: int): Outcome {
    var id := TrimSpace(header);
    if id == "" then MissingID
    else if id !in t then UnknownSession
    else if t[id].assignment != a then OtherAssignment
    else if Idle(ttl, t[id], now) then ExpiredSession
    else Accepted
  }

  function Used(t: Table, ttl: int, header: string, a: Assignment, now: int): Table {
    var id := TrimSpace(header);
    match UseOutcome(t, ttl, header, a, now)
    case Accepted => t[id := t[id].(lastSeen := now)]
    case ExpiredSession => t - {id}
    case _ => t
  }

  function DeletedOutcome(t: Table, header: string, a: Assignment): DeleteOutcome {
    var id := TrimSpace(header);
    if id == "" then DeleteWithoutID else if id in t && t[id].assignment != a then DeleteRefused else Gone
  }

  function Deleted(t: Table, header: string, a: Assignment): Table {
    if DeletedOutcome(t, header, a).Gone? then t - {TrimSpace(header)} else t
  }

  function Cleaned(t: Table, ttl: int, now: int): Table {
    map id | id in t && !Idle(ttl, t[id], now) :: t[id]
  }

  class SessionServer {
    const ttl: int
    var sessions: Table

    constructor (ttl: int)
      ensures this.ttl == ttl && sessions == map[]
    {
      this.ttl := ttl;
      sessions := map[];
    }

    /** A new session, unless the request already names one or the adapter refuses the assignment. */
    method HandleInitialize(header: string, a: Assignment, adapterOpens: bool, id: string, now: int) returns (opened': bool)
      modifies this
      ensures opened' == (IsBlank(header) && adapterOpens)
      ensures sessions == if opened' then Opened(old(sessions), id, a, now) else old(sessions)
    {
      if !IsBlank(header) || !adapterOpens { return false; }
      sessions := sessions[id := Session(a, now)];
      return true;
    }

    method RequireSession(header: string, a: Assignment, now: int) returns (r: Outcome)
      modifies this
      ensures r == UseOutcome(old(sessions), ttl, header, a, now)
      ensures sessions == Used(old(sessions), ttl, header, a, now)
    {
      var id := TrimSpace(header);
      if id == "" { return MissingID; }
      if id !in sessions { return UnknownSession; }
      var stored := sessions[id];
      if stored.assignment != a { return OtherAssignment; }
      if ttl > 0 && stored.lastSeen + ttl <= now {
        sessions := sessions - {id};
        return ExpiredSession;
      }
      sessions := sessions[id := stored.(lastSeen := now)];
      return Accepted;
    }

    method HandleDelete(header: string, a: Assignment) returns (r: DeleteOutcome)
      modifies this
      ensures r == DeletedOutcome(old(sessions), header, a)
      ensures sessions == Deleted(old(sessions), header, a)
    {
      var id := TrimSpace(header);
      if id == "" { return DeleteWithoutID; }
      if id in sessions && sessions[id].assignment != a { return DeleteRefused; }
      sessions := sessions - {id};
      return Gone;
    }

    /** One run of the background cleanup. */
    method ExpireIdleSessions(now: int) returns (expired: nat)
      modifies this
      ensures sessions == Cleaned(old(sessions), ttl, now)
      ensures expired == |old(sessions)| - |sessions|
    {
      if ttl <= 0 {
        assert Cleaned(sessions, ttl, now) == sessions;
        return 0;
      }
      var left, total := sessions.Keys, |sessions|;
      expired := 0;
      while left != {}
        invariant left <= old(sessions).Keys && left <= sessions.Keys <= old(sessions).Keys
        invariant forall id :: id in sessions ==> sessions[id] == old(sessions)[id]
        invariant forall id :: id in old(sessions) && id !in left ==> (id in sessions <==> !Idle(ttl, old(sessions)[id], now))
        invariant expired + |sessions| == total
        decreases |left|
      {
        var id :| id in left;
        if sessions[id].lastSeen + ttl <= now {
          assert |sessions - {id}| == |sessions| - 1 by { RemoveOne(sessions, id); }
          sessions := sessions - {id};
          expired := expired + 1;
        }
        left := left - {id};
      }
    }
  }

  lemma RemoveOne(t: Table, id: string)
    requires id in t
    ensures |t - {id}| == |t| - 1
  {
    assert (t - {id}).Keys == t.Keys - {id};
    assert |t.Keys - {id}| == |t.Keys| - 1;
  }

  // ---------- Runs ----------

  datatype Event =
    | Open(id: string, assignment: Assignment, now: int)
    | Use(id: string, assignment: Assignment, now: int)
    | Delete(id: string, assignment: Assignment, now: int)
    | Cleanup(now: int)

  function Next(t: Table, ttl: int, e: Event): Table {
    match e
    case Open(id, a, now) => Opened(t, id, a, now)
    case Use(id, a, now) => Used(t, ttl, id, a, now)
    case Delete(id, a, _) => Deleted(t, id, a)
    case Cleanup(now) => Cleaned(t, ttl, now)
  }

  function After(ttl: int, events: seq<Event>): Table {
    if events == [] then map[] else Next(After(ttl, events[..|events| - 1]), ttl, events[|events| - 1])
  }

  /** The clock readings of the requests and the cleanup never go back. */
  predicate ClockMonotone(events: seq<Event>) {
    |events| < 2 || (ClockMonotone(events[..|events| - 1]) && events[|events| - 2].now <= events[|events| - 1].now)
  }

  /** Session identifiers are not blank. */
  predicate ProperIDs(events: seq<Event>) {
    forall i :: 0 <= i < |events| ==> ProperID(events[i])
  }

  predicate ProperID(e: Event) {
    e.Cleanup? || (TrimSpace(e.id) == e.id && e.id != "")
  }

  /** What became of a session so far, whatever the cleanup did: the assignment it was opened for and the times
      at which it was opened and asked for; nothing once it was deleted. */
  datatype Life = Life(assignment: Assignment, times: seq<int>)

  function LifeAfter(life: Option<Life>, e: Event, id: string): Option<Life> {
    if e.Cleanup? || e.id != id then life
    else if e.Open? then Some(Life(e.assignment, [e.now]))
    else if life.None? || life.value.assignment != e.assignment then life
    else if e.Use? then Some(life.value.(times := life.value.times + [e.now]))
    else None
  }

  function LifeOf(events: seq<Event>, id: string): Option<Life> {
    if events == [] then None else LifeAfter(LifeOf(events[..|events| - 1], id), events[|events| - 1], id)
  }

  /** No two consecutive times are a time to live apart. */
  predicate KeptAlive(times: seq<int>, ttl: int) {
    ttl <= 0 || forall k :: 0 <= k < |times| - 1 ==> times[k + 1] < times[k] + ttl
  }

  lemma KeptAliveOneMore(times: seq<int>, ttl: int, now: int)
    requires times != []
    ensures KeptAlive(times + [now], ttl) <==> KeptAlive(times, ttl) && (ttl <= 0 || now < times[|times| - 1] + ttl)
  {
    var more := times + [now];
    if KeptAlive(more, ttl) && ttl > 0 {
      assert more[|times| - 1 + 1] < more[|times| - 1] + ttl;
      forall k | 0 <= k < |times| - 1 ensures times[k + 1] < times[k] + ttl { assert more[k + 1] < more[k] + ttl; }
    }
  }

  lemma OpenedAlive(ttl: int, now: int)
    ensures KeptAlive([now], ttl)
  {
  }

  function WithoutCleanups(events: seq<Event>): seq<Event> {
    if events == [] then [] else
      WithoutCleanups(events[..|events| - 1]) + if events[|events| - 1].Cleanup? then [] else [events[|events| - 1]]
  }

  // ---------- What the cleanup changes ----------

  /** A cleanup read the clock at a time at which the session, had there never been a cleanup, was idle; it has not
      been opened again since. */
  predicate Overtaken(ttl: int, events: seq<Event>, id: string) {
    events != [] &&
    var before, e := events[..|events| - 1], events[|events| - 1];
    match e
    case Cleanup(now) => Overtaken(ttl, before, id) || IdleIn(After(ttl, WithoutCleanups(before)), ttl, id, now)
    case Open(opened', _, _) => opened' != id && Overtaken(ttl, before, id)
    case _ => Overtaken(ttl, before, id)
  }

  predicate IdleIn(t: Table, ttl: int, id: string, now: int) {
    id in t && Idle(ttl, t[id], now)
  }

  /** As far as one session goes, the table is the one without cleanups, unless the session was overtaken. */
  predicate SameBut(t: Table, u: Table, id: string, overtaken: bool) {
    if overtaken then id !in t else (id in t <==> id in u) && (id in u ==> t[id] == u[id])
  }

  lemma AfterOneMore(ttl: int, events: seq<Event>)
    requires events != []
    ensures var before, e := events[..|events| - 1], events[|events| - 1];
            After(ttl, WithoutCleanups(events)) ==
            if e.Cleanup? then After(ttl, WithoutCleanups(before)) else Next(After(ttl, WithoutCleanups(before)), ttl, e)
  {
    hide Next;
    var kept, e := WithoutCleanups(events[..|events| - 1]), events[|events| - 1];
    if e.Cleanup? {
      assert kept + [] == kept;
    } else {
      assert (kept + [e])[..|kept|] == kept;
    }
  }

  lemma {:induction false} CleanupRemoves(ttl: int, events: seq<Event>, id: string)
    ensures SameBut(After(ttl, events), After(ttl, WithoutCleanups(events)), id, Overtaken(ttl, events, id))
  {
    hide TrimSpace, WithoutCleanups;
    if events != [] {
      CleanupRemoves(ttl, events[..|events| - 1], id);
      AfterOneMore(ttl, events);
    } else {
      NothingYet(ttl);
    }
  }

  lemma NothingYet(ttl: int)
    ensures After(ttl, WithoutCleanups([])) == map[]
  {
  }

  /** Whatever the clock does: with cleanups exactly those requests are accepted that would be without, except for
      sessions that a cleanup has overtaken. */
  lemma CleanupTurnsAwayExactlyTheOvertaken(ttl: int, events: seq<Event>, id: string, a: Assignment, now: int)
    ensures UseOutcome(After(ttl, events), ttl, id, a, now).Accepted?
       <==> UseOutcome(After(ttl, WithoutCleanups(events)), ttl, id, a, now).Accepted? && !Overtaken(ttl, events, TrimSpace(id))
  {
    hide TrimSpace, After, WithoutCleanups, Overtaken;
    CleanupRemoves(ttl, events, TrimSpace(id));
  }

  /** As long as clock readings do not go back, an overtaken session stays idle. */
  lemma {:induction false} OvertakenIsIdle(ttl: int, events: seq<Event>, id: string, now: int)
    requires ClockMonotone(events) && (events != [] ==> events[|events| - 1].now <= now)
    requires Overtaken(ttl, events, id) && id in After(ttl, WithoutCleanups(events))
    ensures IdleIn(After(ttl, WithoutCleanups(events)), ttl, id, now)
  {
    hide TrimSpace, WithoutCleanups;
    var before, e := events[..|events| - 1], events[|events| - 1];
    AfterOneMore(ttl, events);
    if Overtaken(ttl, before, id) && id in After(ttl, WithoutCleanups(before)) {
      OvertakenIsIdle(ttl, before, id, e.now);
    }
  }

  /** In particular, lazy expiry alone and lazy expiry with any schedule of cleanups accept the same requests as long
      as clock readings do not go back. */
  lemma CleanupUnobservable(ttl: int, events: seq<Event>, id: string, a: Assignment, now: int)
    requires ClockMonotone(events + [Use(id, a, now)])
    ensures UseOutcome(After(ttl, events), ttl, id, a, now).Accepted?
       <==> UseOutcome(After(ttl, WithoutCleanups(events)), ttl, id, a, now).Accepted?
  {
    hide TrimSpace, After, WithoutCleanups, Overtaken;
    assert (events + [Use(id, a, now)])[..|events|] == events;
    CleanupTurnsAwayExactlyTheOvertaken(ttl, events, id, a, now);
    if Overtaken(ttl, events, TrimSpace(id)) && TrimSpace(id) in After(ttl, WithoutCleanups(events)) {
      OvertakenIsIdle(ttl, events, TrimSpace(id), now);
    }
  }

  // ---------- Which requests are accepted ----------

  /** The table holds exactly the sessions kept alive. */
  predicate Follows(t: Table, ttl: int, life: Option<Life>, id: string) {
    && (life.Some? ==> life.value.times != [])
    && (id in t <==> life.Some? && KeptAlive(life.value.times, ttl))
    && (id in t ==> t[id] == Session(life.value.assignment, life.value.times[|life.value.times| - 1]))
  }

  lemma FollowsOn(t: Table, ttl: int, life: Option<Life>, id: string, e: Event)
    requires Follows(t, ttl, life, id) && ProperID(e) && id != ""
    ensures Follows(if e.Cleanup? then t else Next(t, ttl, e), ttl, LifeAfter(life, e, id), id)
  {
    hide KeptAlive, TrimSpace;
    if life.Some? { KeptAliveOneMore(life.value.times, ttl, e.now); }
    OpenedAlive(ttl, e.now);
  }

  lemma {:induction false} LazyTableFollows(ttl: int, events: seq<Event>, id: string)
    requires ProperIDs(events) && id != ""
    ensures Follows(After(ttl, WithoutCleanups(events)), ttl, LifeOf(events, id), id)
  {
    hide WithoutCleanups, Follows, Next, LifeAfter, ProperID, After;
    if events != [] {
      LazyTableFollows(ttl, events[..|events| - 1], id);
      AfterOneMore(ttl, events);
      FollowsOn(After(ttl, WithoutCleanups(events[..|events| - 1])), ttl, LifeOf(events[..|events| - 1], id), id, events[|events| - 1]);
    } else {
      NothingYet(ttl);
      NothingFollows(ttl, id);
    }
  }

  lemma NothingFollows(ttl: int, id: string)
    ensures Follows(map[], ttl, None, id)
  {
  }

  /** Whatever the clock and the cleanup do: a request is accepted exactly when its session was opened for the same
      assignment, was not deleted, no two consecutive requests for it were a time to live apart, and no cleanup has
      overtaken it. */
  lemma AcceptedExactlyWhen(ttl: int, events: seq<Event>, id: string, a: Assignment, now: int)
    requires ProperIDs(events) && TrimSpace(id) == id && id != ""
    ensures UseOutcome(After(ttl, events), ttl, id, a, now).Accepted? <==>
      && LifeOf(events, id).Some? && LifeOf(events, id).value.assignment == a
      && KeptAlive(LifeOf(events, id).value.times + [now], ttl)
      && !Overtaken(ttl, events, id)
  {
    hide KeptAlive, TrimSpace, LifeOf, After, WithoutCleanups, Overtaken, ProperIDs;
    CleanupTurnsAwayExactlyTheOvertaken(ttl, events, id, a, now);
    LazyTableFollows(ttl, events, id);
    var life := LifeOf(events, id);
    if life.Some? { KeptAliveOneMore(life.value.times, ttl, now); }
  }

  /** As long as clock readings do not go back, the cleanup does not matter at all. */
  lemma AcceptedExactlyWhenAlive(ttl: int, events: seq<Event>, id: string, a: Assignment, now: int)
    requires ClockMonotone(events + [Use(id, a, now)]) && ProperIDs(events) && TrimSpace(id) == id && id != ""
    ensures UseOutcome(After(ttl, events), ttl, id, a, now).Accepted? <==>
      LifeOf(events, id).Some? && LifeOf(events, id).value.assignment == a && KeptAlive(LifeOf(events, id).value.times + [now], ttl)
  {
    hide KeptAlive, TrimSpace, LifeOf, After, WithoutCleanups, Overtaken, ProperIDs, ClockMonotone;
    CleanupUnobservable(ttl, events, id, a, now);
    LazyTableFollows(ttl, events, id);
    var life := LifeOf(events, id);
    if life.Some? { KeptAliveOneMore(life.value.times, ttl, now); }
  }

  /** A request that read the clock before a cleanup but is served after it can be turned away although its session
      had not yet expired: the session is overtaken. */
  lemma OlderReadingIsTurnedAway(a: Assignment)
    ensures UseOutcome(After(10, [Open("s", a, 0), Cleanup(10)]), 10, "s", a, 9) != Accepted
    ensures UseOutcome(After(10, [Open("s", a, 0)]), 10, "s", a, 9) == Accepted
  {
    var opened' := Open("s", a, 0);
    assert [opened'][..0] == [] && [opened', Cleanup(10)][..1] == [opened'];
    assert After(10, [opened']) == map["s" := Session(a, 0)];
    assert After(10, [opened', Cleanup(10)]) == map[];
    OutsideRanges("s"[0], WHITE_SPACE);
    TrimSpaceTrims("s");
  }

  /** The session is there: opened, not deleted, and never left alone for a time to live. */
  predicate AliveIn(ttl: int, events: seq<Event>, id: string) {
    LifeOf(events, id).Some? && KeptAlive(LifeOf(events, id).value.times, ttl)
  }

  /** Why a request is turned away, as long as no cleanup intervenes: it names no session; the session was never opened, or
      deleted, or found idle before; it belongs to another assignment; or it is found idle now. A deletion is refused
      exactly for the session of another assignment. */
  lemma TurnedAwayBecause(ttl: int, events: seq<Event>, id: string, a: Assignment, now: int)
    requires ProperIDs(events) && TrimSpace(id) == id
    ensures var t := After(ttl, WithoutCleanups(events));
            var used, deleted := UseOutcome(t, ttl, id, a, now), DeletedOutcome(t, id, a);
            var alive := id != "" && AliveIn(ttl, events, id);
            var own := alive && LifeOf(events, id).value.assignment == a;
            && (used == MissingID <==> id == "")
            && (used == UnknownSession <==> id != "" && !alive)
            && (used == OtherAssignment <==> alive && !own)
            && (used == ExpiredSession <==> own && !KeptAlive(LifeOf(events, id).value.times + [now], ttl))
            && (deleted == DeleteWithoutID <==> id == "")
            && (deleted == DeleteRefused <==> alive && !own)
  {
    hide KeptAlive, TrimSpace, LifeOf, After, WithoutCleanups, ProperIDs;
    if id != "" {
      LazyTableFollows(ttl, events, id);
      var life := LifeOf(events, id);
      if life.Some? { KeptAliveOneMore(life.value.times, ttl, now); }
    }
  }
}
