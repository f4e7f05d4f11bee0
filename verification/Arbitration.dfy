/**
 The docket of an arbitration (addArbitrationDocket in common/caserecord/docket.go): each entry of the final
 state looks for the event it was recorded by and claims it; the events left over are listed themselves.
 */
module Arbitration {
  import opened Docket
  import opened Results
  import opened Text

  datatype Event = Event(
    line: nat, timestamp: Option<int>, eventType: string, phase: string, role: string,
    action: string, text: string, evidenceID: string, memberID: string, reports: seq<string>, offers: seq<string>)

  /** An entry of the final state. */
  datatype Entry =
    | Filing(phase: string, action: string, role: string, text: string)
    | Report(phase: string, role: string, title: string)
    | Offer(phase: string, role: string, evidenceID: string)
    | Evidence(role: string, evidenceID: string, retrieved: Option<int>)
    | Decision(memberID: string)

  /** A list of the state, with the name under which its entries are numbered. */
  datatype Section = Section(tag: string, entries: seq<Entry>)

  datatype Case = Case(procedure: string, stateTime: Option<int>, events: seq<Event>)

  /** Which event type records council decisions. */
  function CouncilEvent(procedure: string): string {
    if procedure == "arbd" then "council_answer" else "council_vote"
  }

  predicate Matches(procedure: string, entry: Entry, e: Event) {
    match entry
    case Filing(phase, action, role, text) =>
      e.eventType == "attorney_action" && e.phase == phase && e.action == action && e.role == role && e.text == text
    case Report(phase, role, title) =>
      e.eventType == "attorney_action" && (phase == "" || phase == e.phase) && (role == "" || role == e.role) && title in e.reports
    case Offer(phase, role, evidenceID) =>
      e.eventType == "attorney_action" && (phase == "" || phase == e.phase) && (role == "" || role == e.role) && evidenceID in e.offers
    case Evidence(_, evidenceID, _) => e.eventType == "submitted_evidence" && e.evidenceID == evidenceID
    case Decision(memberID) => e.eventType == CouncilEvent(procedure) && e.memberID == memberID
  }

  /** Reports and offers are parts of a filing and leave its event to it. */
  predicate Claims(entry: Entry) {
    !entry.Report? && !entry.Offer?
  }

  predicate Available(c: Case, used: seq<bool>, entry: Entry, i: nat)
    requires i < |c.events| == |used|
  {
    Matches(c.procedure, entry, c.events[i]) && (Claims(entry) ==> !used[i])
  }

  /** The first event from i on that an entry can stem from. */
  function Find(c: Case, used: seq<bool>, entry: Entry, i: nat): (r: Option<nat>)
    requires |used| == |c.events| && i <= |c.events|
    ensures r.Some? ==> i <= r.value < |c.events| && Available(c, used, entry, r.value)
    ensures forall k :: i <= k < (if r.Some? then r.value else |c.events|) ==> !Available(c, used, entry, k)
    decreases |c.events| - i
  {
    if i == |c.events| then None
    else if Available(c, used, entry, i) then Some(i)
    else Find(c, used, entry, i + 1)
  }

  function EntryTime(c: Case, entry: Entry, found: Option<nat>): Option<int>
    requires found.Some? ==> found.value < |c.events|
  {
    var fromEvent := if found.Some? then c.events[found.value].timestamp else if entry.Evidence? then entry.retrieved else c.stateTime;
    if entry.Evidence? && fromEvent.None? then c.stateTime else fromEvent
  }

  function NumberedID(procedure: string, tag: string, n: nat): string {
    procedure + "-" + tag + "-" + Decimal(n)
  }

  function EntryItem(c: Case, tag: string, index: nat, entry: Entry, found: Option<nat>): Item
    requires found.Some? ==> found.value < |c.events|
  {
    var actor := match entry
                 case Filing(_, _, role, _) => role
                 case Report(_, role, _) => role
                 case Offer(_, role, _) => role
                 case Evidence(role, _, _) => role
                 case Decision(memberID) => memberID;
    Item(NumberedID(c.procedure, tag, index + 1), EntryTime(c, entry, found), actor, tag, "", 0, 0)
  }

  /** The items so far, which events are used, and the event each entry has claimed. */
  datatype Progress = Progress(items: seq<Item>, used: seq<bool>, claims: seq<Option<nat>>)

  function EntryStep(c: Case, p: Progress, tag: string, index: nat, entry: Entry): (r: Progress)
    requires |p.used| == |c.events|
    ensures |r.used| == |c.events|
  {
    var found := Find(c, p.used, entry, 0);
    var claim := if Claims(entry) then found else None;
    Progress(p.items + [EntryItem(c, tag, index, entry, found)],
             if claim.Some? then p.used[claim.value := true] else p.used,
             p.claims + [claim])
  }

  /** After the first n entries of a section. */
  function SectionStep(c: Case, p: Progress, s: Section, n: nat): (r: Progress)
    requires |p.used| == |c.events| && n <= |s.entries|
    ensures |r.used| == |c.events|
  {
    if n == 0 then p else EntryStep(c, SectionStep(c, p, s, n - 1), s.tag, n - 1, s.entries[n - 1])
  }

  function SectionsStep(c: Case, sections: seq<Section>, n: nat): (r: Progress)
    requires n <= |sections|
    ensures |r.used| == |c.events|
  {
    if n == 0 then Progress([], seq(|c.events|, i => false), [])
    else SectionStep(c, SectionsStep(c, sections, n - 1), sections[n - 1], |sections[n - 1].entries|)
  }

  /** The name under which an event of its type is listed when no entry claimed it. */
  function EventTag(e: Event): Option<string> {
    if e.eventType == "attorney_action" then Some("event-filing")
    else if e.eventType == "submitted_evidence" then Some("event-evidence")
    else if e.eventType == "council_vote" || e.eventType == "council_answer" then Some("event-council")
    else None
  }

  predicate Listed(c: Case, used: seq<bool>, i: nat)
    requires i < |c.events| == |used|
  {
    !used[i] && EventTag(c.events[i]).Some?
  }

  function EventItem(c: Case, e: Event): Item
    requires EventTag(e).Some?
  {
    Item(NumberedID(c.procedure, EventTag(e).value, e.line), e.timestamp,
         if EventTag(e) == Some("event-council") then e.memberID else e.role, EventTag(e).value, e.action, 0, 0)
  }

  /** The items of the first n events that no entry has claimed. */
  function EventItems(c: Case, used: seq<bool>, n: nat): seq<Item>
    requires n <= |c.events| == |used|
  {
    if n == 0 then []
    else if Listed(c, used, n - 1) then EventItems(c, used, n - 1) + [EventItem(c, c.events[n - 1])]
    else EventItems(c, used, n - 1)
  }

  /** All items of an arbitration, in the order in which they are added. */
  function ArbitrationItems(c: Case, sections: seq<Section>): seq<Item> {
    var p := SectionsStep(c, sections, |sections|);
    p.items + EventItems(c, p.used, |c.events|)
  }

  // ---------- The state, the run and the whole docket ----------

  datatype Filed = Filed(role: string, text: string)

  datatype Reported = Reported(phase: string, role: string, title: string)

  datatype Offered = Offered(phase: string, role: string, evidenceID: string)

  datatype Submitted = Submitted(role: string, evidenceID: string, retrieved: Option<int>)

  /** The lists of a final state; `council` names the members in the order of their votes or answers. */
  datatype CaseState = CaseState(
    openings: seq<Filed>, arguments: seq<Filed>, rebuttals: seq<Filed>, surrebuttals: seq<Filed>, closings: seq<Filed>,
    reports: seq<Reported>, offers: seq<Offered>, evidence: seq<Submitted>, council: seq<string>, resolution: string)

  /** What the run record says: when it finished, its resolution, and whether it has answers. */
  datatype RunRecord = RunRecord(finished: Option<int>, written: Option<int>, resolution: string, answered: bool)

  function Filings(phase: string, action: string, filings: seq<Filed>): Section {
    Section(phase, seq(|filings|, i requires 0 <= i < |filings| => Filing(phase, action, filings[i].role, filings[i].text)))
  }

  /** The nine lists in the order in which they are read. */
  function SectionsOf(state: CaseState): seq<Section> {
    [Filings("openings", "record_opening_statement", state.openings),
     Filings("arguments", "submit_argument", state.arguments),
     Filings("rebuttals", "submit_rebuttal", state.rebuttals),
     Filings("surrebuttals", "submit_surrebuttal", state.surrebuttals),
     Filings("closings", "deliver_closing_statement", state.closings),
     Section("technical-report", seq(|state.reports|, i requires 0 <= i < |state.reports| =>
       Report(state.reports[i].phase, state.reports[i].role, state.reports[i].title))),
     Section("evidence-offer", seq(|state.offers|, i requires 0 <= i < |state.offers| =>
       Offer(state.offers[i].phase, state.offers[i].role, state.offers[i].evidenceID))),
     Section("submitted-evidence", seq(|state.evidence|, i requires 0 <= i < |state.evidence| =>
       Evidence(state.evidence[i].role, state.evidence[i].evidenceID, state.evidence[i].retrieved))),
     Section("council", seq(|state.council|, i requires 0 <= i < |state.council| => Decision(state.council[i])))]
  }

  /** The decision is listed under its own identifier once there is one. */
  function DecisionItem(procedure: string, state: CaseState, run: RunRecord): Option<Item> {
    var timestamp := if run.finished.Some? then run.finished else run.written;
    if procedure == "arb" then
      var resolution := if run.resolution != "" then run.resolution else state.resolution;
      if resolution == "" then None else Some(Item("arb-decision", timestamp, "council", "decision", "Decision: " + resolution, 0, 0))
    else if !run.answered && state.council == [] then None
    else Some(Item("arbd-decision", timestamp, "council", "decision", "Degree decision entered", 0, 0))
  }

  function DecisionItems(procedure: string, state: CaseState, run: Option<RunRecord>): seq<Item> {
    if run.None? || DecisionItem(procedure, state, run.value).None? then [] else [DecisionItem(procedure, state, run.value).value]
  }

  /** Everything an arbitration adds; without a state only the events are listed. */
  function WholeDocket(c: Case, state: Option<CaseState>, run: Option<RunRecord>): seq<Item> {
    if state.None? then ArbitrationItems(c, [])
    else ArbitrationItems(c, SectionsOf(state.value)) + DecisionItems(c.procedure, state.value, run)
  }

  // ---------- The procedures ----------

  /** The event tells of this entry: a filing with the same phase, action, role and text, a filing that includes the
      report or the offer and does not contradict its phase and role, the submission of the same evidence, or the
      decision of the same member. */
  predicate Tells(procedure: string, e: Event, entry: Entry) {
    match entry
    case Filing(_, _, _, _) =>
      e == e.(eventType := "attorney_action", phase := entry.phase, action := entry.action, role := entry.role, text := entry.text)
    case Report(_, _, _) =>
      e == e.(eventType := "attorney_action") && entry.title in e.reports && entry.phase in ["", e.phase] && entry.role in ["", e.role]
    case Offer(_, _, _) =>
      e == e.(eventType := "attorney_action") && entry.evidenceID in e.offers && entry.phase in ["", e.phase] && entry.role in ["", e.role]
    case Evidence(_, _, _) => e == e.(eventType := "submitted_evidence", evidenceID := entry.evidenceID)
    case Decision(_) =>
      e == e.(eventType := if procedure == "arbd" then "council_answer" else "council_vote", memberID := entry.memberID)
  }

  /** The first event that tells of the entry; one that is used already only if the entry is a part of a filing. */
  method MatchEvent(c: Case, used: seq<bool>, entry: Entry) returns (found: Option<nat>)
    requires |used| == |c.events|
    ensures found == Find(c, used, entry, 0)
    ensures found.Some? ==>
      && found.value < |c.events| && Tells(c.procedure, c.events[found.value], entry)
      && (used[found.value] ==> entry.Report? || entry.Offer?)
    ensures forall k :: 0 <= k < (if found.Some? then found.value else |c.events|) && Tells(c.procedure, c.events[k], entry) ==>
      used[k] && !entry.Report? && !entry.Offer?
  {
    hide Tells, Available;
    FoundTells(c, used, entry);
    for i := 0 to |c.events|
      invariant Find(c, used, entry, 0) == Find(c, used, entry, i)
    {
      if Available(c, used, entry, i) { return Some(i); }
    }
    return None;
  }

  lemma TellsIsMatch(procedure: string, e: Event, entry: Entry)
    ensures Tells(procedure, e, entry) == Matches(procedure, entry, e)
  {
  }

  lemma FoundTells(c: Case, used: seq<bool>, entry: Entry)
    requires |used| == |c.events|
    ensures var found := Find(c, used, entry, 0);
            && (found.Some? ==> Tells(c.procedure, c.events[found.value], entry) && (used[found.value] ==> entry.Report? || entry.Offer?))
            && forall k :: 0 <= k < (if found.Some? then found.value else |c.events|) && Tells(c.procedure, c.events[k], entry) ==>
                 used[k] && !entry.Report? && !entry.Offer?
  {
    hide Tells, Matches, Find;
    forall k | 0 <= k < |c.events| ensures Available(c, used, entry, k) == (Tells(c.procedure, c.events[k], entry) && (Claims(entry) ==> !used[k])) {
      TellsIsMatch(c.procedure, c.events[k], entry);
    }
  }

  method AddSection(b: Builder, c: Case, s: Section, used: seq<bool>, ghost p: Progress, ghost start: State) returns (used': seq<bool>)
    requires |used| == |c.events| && p.used == used && b.View() == AllAdded(start, p.items)
    modifies b
    ensures used' == SectionStep(c, p, s, |s.entries|).used
    ensures b.View() == AllAdded(start, SectionStep(c, p, s, |s.entries|).items)
  {
    hide Find, EntryItem, Added, Claims;
    used' := used;
    for index := 0 to |s.entries|
      invariant used' == SectionStep(c, p, s, index).used
      invariant b.View() == AllAdded(start, SectionStep(c, p, s, index).items)
    {
      ghost var before := SectionStep(c, p, s, index);
      var entry := s.entries[index];
      var found := MatchEvent(c, used', entry);
      if found.Some? && Claims(entry) { used' := used'[found.value := true]; }
      AddedLast(start, before.items, EntryItem(c, s.tag, index, entry, found));
      b.AddDocket(EntryItem(c, s.tag, index, entry, found));
    }
  }

  method AddEvents(b: Builder, c: Case, used: seq<bool>, ghost items: seq<Item>, ghost start: State)
    requires |used| == |c.events| && b.View() == AllAdded(start, items)
    modifies b
    ensures b.View() == AllAdded(start, items + EventItems(c, used, |c.events|))
  {
    hide EventItem, Added, Listed;
    assert items + [] == items;
    for i := 0 to |c.events|
      invariant b.View() == AllAdded(start, items + EventItems(c, used, i))
    {
      if Listed(c, used, i) {
        ListedHasTag(c, used, i);
        var item := EventItem(c, c.events[i]);
        AddedLast(start, items + EventItems(c, used, i), item);
        assert items + EventItems(c, used, i) + [item] == items + (EventItems(c, used, i) + [item]);
        b.AddDocket(item);
      }
    }
  }

  lemma ListedHasTag(c: Case, used: seq<bool>, i: nat)
    requires i < |c.events| == |used| && Listed(c, used, i)
    ensures EventTag(c.events[i]).Some?
  {
  }

  /** The state's lists and the events left over, then the decision. */
  method AddArbitrationDocket(b: Builder, c: Case, state: Option<CaseState>, run: Option<RunRecord>)
    modifies b
    ensures b.View() == AllAdded(old(b.View()), WholeDocket(c, state, run))
  {
    hide Added, ArbitrationItems, DecisionItem, SectionsOf;
    if state.None? {
      AddEntriesAndEvents(b, c, []);
      return;
    }
    ghost var start, items := b.View(), ArbitrationItems(c, SectionsOf(state.value));
    AddEntriesAndEvents(b, c, SectionsOf(state.value));
    if run.Some? {
      var decision := DecisionItem(c.procedure, state.value, run.value);
      if decision.Some? {
        AddedLast(start, items, decision.value);
        b.AddDocket(decision.value);
        return;
      }
    }
    assert items + [] == items;
  }

  /** The sections in order, then the events left over. */
  method AddEntriesAndEvents(b: Builder, c: Case, sections: seq<Section>)
    modifies b
    ensures b.View() == AllAdded(old(b.View()), ArbitrationItems(c, sections))
  {
    hide SectionStep, Added, EventItems;
    ghost var start := b.View();
    var used := seq(|c.events|, i => false);
    for n := 0 to |sections|
      invariant used == SectionsStep(c, sections, n).used
      invariant b.View() == AllAdded(start, SectionsStep(c, sections, n).items)
    {
      used := AddSection(b, c, sections[n], used, SectionsStep(c, sections, n), start);
    }
    AddEvents(b, c, used, SectionsStep(c, sections, |sections|).items, start);
  }

  // ---------- Every event is claimed at most once ----------

  /** Used events are exactly the claimed ones, and no two entries claim the same event. */
  predicate ClaimsSound(c: Case, p: Progress) {
    && |p.used| == |c.events|
    && (forall k :: 0 <= k < |p.claims| && p.claims[k].Some? ==> p.claims[k].value < |c.events| && p.used[p.claims[k].value])
    && (forall j, k :: 0 <= j < k < |p.claims| && p.claims[j].Some? && p.claims[k].Some? ==> p.claims[j] != p.claims[k])
    && (forall i :: 0 <= i < |c.events| && p.used[i] ==> ClaimedBySome(p, i))
  }

  predicate ClaimedBySome(p: Progress, i: nat) {
    exists k :: 0 <= k < |p.claims| && p.claims[k] == Some(i)
  }

  lemma EntryStepSound(c: Case, p: Progress, tag: string, index: nat, entry: Entry)
    requires ClaimsSound(c, p)
    ensures ClaimsSound(c, EntryStep(c, p, tag, index, entry))
  {
    hide EntryItem, Matches;
    var r := EntryStep(c, p, tag, index, entry);
    var claim := r.claims[|p.claims|];
    forall i | 0 <= i < |c.events| && r.used[i] ensures ClaimedBySome(r, i) {
      if p.used[i] {
        assert ClaimedBySome(p, i);
        var k :| 0 <= k < |p.claims| && p.claims[k] == Some(i);
        assert r.claims[k] == Some(i);
      } else {
        assert r.claims[|p.claims|] == Some(i);
      }
    }
  }

  lemma {:induction false} SectionStepSound(c: Case, p: Progress, s: Section, n: nat)
    requires ClaimsSound(c, p) && n <= |s.entries|
    ensures ClaimsSound(c, SectionStep(c, p, s, n))
  {
    hide EntryStep;
    if n > 0 {
      SectionStepSound(c, p, s, n - 1);
      EntryStepSound(c, SectionStep(c, p, s, n - 1), s.tag, n - 1, s.entries[n - 1]);
    }
  }

  lemma {:induction false} SectionsStepSound(c: Case, sections: seq<Section>, n: nat)
    requires n <= |sections|
    ensures ClaimsSound(c, SectionsStep(c, sections, n))
  {
    if n > 0 {
      SectionsStepSound(c, sections, n - 1);
      SectionStepSound(c, SectionsStep(c, sections, n - 1), sections[n - 1], |sections[n - 1].entries|);
    }
  }

  // ---------- Identifiers ----------

  predicate Digits(s: string) {
    forall i :: 0 <= i < |s| ==> '0' <= s[i] <= '9'
  }

  lemma {:induction false} DecimalDigits(n: nat)
    ensures Digits(Decimal(n))
  {
    if n >= 10 { DecimalDigits(n / 10); }
  }

  /** A numbered identifier determines its name and its number. */
  lemma NumberedIDInjective(procedure: string, tag: string, m: nat, tag': string, n: nat)
    requires NumberedID(procedure, tag, m) == NumberedID(procedure, tag', n)
    ensures tag == tag' && m == n
  {
    var a, b := NumberedID(procedure, tag, m), NumberedID(procedure, tag', n);
    var p, q := |procedure| + 1 + |tag|, |procedure| + 1 + |tag'|;
    DecimalDigits(m);
    DecimalDigits(n);
    assert a == procedure + "-" + tag + "-" + Decimal(m) && b == procedure + "-" + tag' + "-" + Decimal(n);
    assert a[p] == '-' && a[p + 1..] == Decimal(m);
    assert b[q] == '-' && b[q + 1..] == Decimal(n);
    forall j | p < j < |a| ensures a[j] != '-' { assert a[j] == a[p + 1..][j - p - 1]; }
    forall j | q < j < |b| ensures b[j] != '-' { assert b[j] == b[q + 1..][j - q - 1]; }
    assert p == q;
    DecimalInjective(m, n);
    assert tag == a[|procedure| + 1..p] && tag' == b[|procedure| + 1..q];
  }

  /** The sections of a case have names of their own, none of which is a name for events. */
  predicate SectionsNamed(sections: seq<Section>) {
    && (forall i, j :: 0 <= i < j < |sections| ==> sections[i].tag != sections[j].tag)
    && (forall i :: 0 <= i < |sections| ==> sections[i].tag !in ["event-filing", "event-evidence", "event-council"])
  }

  /** The names of the sections in the order in which the state is read. */
  const SECTION_TAGS := ["openings", "arguments", "rebuttals", "surrebuttals", "closings",
                         "technical-report", "evidence-offer", "submitted-evidence", "council"]

  lemma TagsAreNames(sections: seq<Section>)
    requires |sections| == |SECTION_TAGS| && forall i :: 0 <= i < |sections| ==> sections[i].tag == SECTION_TAGS[i]
    ensures SectionsNamed(sections)
  {
  }

  /** An identifier of an entry in one of the first n sections. */
  predicate EntryID(c: Case, sections: seq<Section>, n: nat, id: string)
    requires n <= |sections|
  {
    exists i :: 0 <= i < n && SectionID(c, sections[i], id)
  }

  predicate SectionID(c: Case, s: Section, id: string) {
    id in SectionIDs(c, s, |s.entries|)
  }

  /** The identifiers of the first n entries of a section. */
  function SectionIDs(c: Case, s: Section, n: nat): (r: seq<string>)
    ensures |r| == n && forall i :: 0 <= i < n ==> r[i] == NumberedID(c.procedure, s.tag, i + 1)
  {
    seq(n, i requires 0 <= i => NumberedID(c.procedure, s.tag, i + 1))
  }

  lemma {:induction false} SectionItemIDs(c: Case, p: Progress, s: Section, n: nat)
    requires |p.used| == |c.events| && n <= |s.entries|
    ensures IDs(SectionStep(c, p, s, n).items) == IDs(p.items) + SectionIDs(c, s, n)
  {
    hide NumberedID;
    if n > 0 {
      SectionItemIDs(c, p, s, n - 1);
      var before := SectionStep(c, p, s, n - 1);
      var item := EntryItem(c, s.tag, n - 1, s.entries[n - 1], Find(c, before.used, s.entries[n - 1], 0));
      IDsJoin(before.items, [item]);
      assert SectionIDs(c, s, n) == SectionIDs(c, s, n - 1) + [item.id];
      assert IDs([item]) == [item.id];
    } else {
      assert SectionIDs(c, s, 0) == [];
    }
  }

  /** Identifiers from different sections, or of different entries of a section, differ. */
  lemma {:induction false} EntryIDsDistinct(c: Case, sections: seq<Section>, n: nat)
    requires n <= |sections| && SectionsNamed(sections)
    ensures DistinctIDs(IDs(SectionsStep(c, sections, n).items))
    ensures forall id :: id in IDs(SectionsStep(c, sections, n).items) ==> EntryID(c, sections, n, id)
  {
    hide NumberedID, SectionStep;
    if n > 0 {
      EntryIDsDistinct(c, sections, n - 1);
      var s, before := sections[n - 1], IDs(SectionsStep(c, sections, n - 1).items);
      var more := SectionIDs(c, s, |s.entries|);
      SectionItemIDs(c, SectionsStep(c, sections, n - 1), s, |s.entries|);
      var ids := before + more;
      forall id | id in ids ensures EntryID(c, sections, n, id) {
        if id in before { EntryIDMore(c, sections, n - 1, id); } else { assert SectionID(c, sections[n - 1], id); }
      }
      forall i, j | 0 <= i < j < |ids| ensures ids[i] != ids[j] {
        if i >= |before| {
          if ids[i] == ids[j] { NumberedIDInjective(c.procedure, s.tag, i - |before| + 1, s.tag, j - |before| + 1); }
        } else if j >= |before| {
          assert before[i] in before;
          NewSectionID(c, sections, n - 1, before[i], j - |before|);
        }
      }
    }
  }

  lemma EntryIDMore(c: Case, sections: seq<Section>, n: nat, id: string)
    requires n < |sections| && EntryID(c, sections, n, id)
    ensures EntryID(c, sections, n + 1, id)
  {
  }

  lemma NewSectionID(c: Case, sections: seq<Section>, n: nat, id: string, index: nat)
    requires n < |sections| && SectionsNamed(sections) && EntryID(c, sections, n, id)
    ensures id != NumberedID(c.procedure, sections[n].tag, index + 1)
  {
    hide NumberedID;
    var i :| 0 <= i < n && SectionID(c, sections[i], id);
    var k :| 0 <= k < |sections[i].entries| && SectionIDs(c, sections[i], |sections[i].entries|)[k] == id;
    if id == NumberedID(c.procedure, sections[n].tag, index + 1) {
      NumberedIDInjective(c.procedure, sections[i].tag, k + 1, sections[n].tag, index + 1);
    }
  }

  /** Events are numbered by the line they stand on. */
  predicate LinesNumbered(c: Case) {
    forall i :: 0 <= i < |c.events| ==> c.events[i].line == i + 1
  }

  function EventID(c: Case, i: nat): string
    requires i < |c.events| && EventTag(c.events[i]).Some?
  {
    NumberedID(c.procedure, EventTag(c.events[i]).value, c.events[i].line)
  }

  /** Each event is listed at most once, and exactly when it is of a listed type and no entry has claimed it. */
  lemma {:induction false} EventsListedOnce(c: Case, used: seq<bool>, n: nat)
    requires n <= |c.events| == |used| && LinesNumbered(c)
    ensures DistinctIDs(IDs(EventItems(c, used, n)))
    ensures forall id :: id in IDs(EventItems(c, used, n)) ==> exists i :: 0 <= i < n && Listed(c, used, i) && id == EventID(c, i)
    ensures forall i :: 0 <= i < n && Listed(c, used, i) ==> EventID(c, i) in IDs(EventItems(c, used, n))
  {
    hide NumberedID;
    if n > 0 {
      EventsListedOnce(c, used, n - 1);
      var front := IDs(EventItems(c, used, n - 1));
      if Listed(c, used, n - 1) {
        var item := EventItem(c, c.events[n - 1]);
        IDsJoin(EventItems(c, used, n - 1), [item]);
        assert IDs([item]) == [EventID(c, n - 1)];
        var ids := front + [EventID(c, n - 1)];
        assert IDs(EventItems(c, used, n)) == ids;
        assert ids[|front|] in ids;
        forall i | 0 <= i < n && Listed(c, used, i) ensures EventID(c, i) in ids {
          if i < n - 1 {
            var k :| 0 <= k < |front| && front[k] == EventID(c, i);
            assert ids[k] == EventID(c, i);
          }
        }
        forall k | 0 <= k < |front| ensures front[k] != EventID(c, n - 1) {
          assert front[k] in front;
          var i :| 0 <= i < n - 1 && Listed(c, used, i) && front[k] == EventID(c, i);
          if EventID(c, i) == EventID(c, n - 1) {
            NumberedIDInjective(c.procedure, EventTag(c.events[i]).value, i + 1, EventTag(c.events[n - 1]).value, n);
          }
        }
      }
    }
  }

  lemma EventAfterEntries(c: Case, sections: seq<Section>, n: nat, id: string, i: nat)
    requires n <= |sections| && SectionsNamed(sections) && EntryID(c, sections, n, id)
    requires i < |c.events| && EventTag(c.events[i]).Some?
    ensures id != EventID(c, i)
  {
    hide NumberedID;
    var s :| 0 <= s < n && SectionID(c, sections[s], id);
    var k :| 0 <= k < |sections[s].entries| && SectionIDs(c, sections[s], |sections[s].entries|)[k] == id;
    if id == EventID(c, i) {
      NumberedIDInjective(c.procedure, sections[s].tag, k + 1, EventTag(c.events[i]).value, c.events[i].line);
    }
  }

  /** Neither entries nor events are lost to a shared identifier. */
  lemma ArbitrationIDsDistinct(c: Case, sections: seq<Section>)
    requires SectionsNamed(sections) && LinesNumbered(c)
    ensures DistinctIDs(IDs(ArbitrationItems(c, sections)))
  {
    hide NumberedID, EventItems, EventID, EntryID, SectionsStep;
    var p := SectionsStep(c, sections, |sections|);
    var entries, events := IDs(p.items), IDs(EventItems(c, p.used, |c.events|));
    EntryIDsDistinct(c, sections, |sections|);
    EventsListedOnce(c, p.used, |c.events|);
    IDsJoin(p.items, EventItems(c, p.used, |c.events|));
    forall i, j | 0 <= i < |entries| && 0 <= j < |events| ensures entries[i] != events[j] {
      assert entries[i] in entries && events[j] in events;
      var e :| 0 <= e < |c.events| && Listed(c, p.used, e) && events[j] == EventID(c, e);
      EventAfterEntries(c, sections, |sections|, entries[i], e);
    }
  }

  /** No identifier of the forms an arbitration gives is taken. */
  ghost predicate NamesFree(c: Case, keys: set<string>) {
    && (forall tag, n: nat :: NumberedID(c.procedure, tag, n) !in keys)
    && "arb-decision" !in keys && "arbd-decision" !in keys
  }

  ghost predicate Numbered(c: Case, id: string) {
    exists tag, n: nat :: id == NumberedID(c.procedure, tag, n)
  }

  lemma AllNumbered(c: Case, sections: seq<Section>)
    requires SectionsNamed(sections) && LinesNumbered(c)
    ensures forall id :: id in IDs(ArbitrationItems(c, sections)) ==> Numbered(c, id)
  {
    hide NumberedID, EventItems, SectionsStep;
    var p := SectionsStep(c, sections, |sections|);
    EntryIDsDistinct(c, sections, |sections|);
    EventsListedOnce(c, p.used, |c.events|);
    IDsJoin(p.items, EventItems(c, p.used, |c.events|));
    forall id | id in IDs(ArbitrationItems(c, sections)) ensures Numbered(c, id) {
      if id in IDs(p.items) {
        var s :| 0 <= s < |sections| && SectionID(c, sections[s], id);
        var k :| 0 <= k < |sections[s].entries| && SectionIDs(c, sections[s], |sections[s].entries|)[k] == id;
        assert id == NumberedID(c.procedure, sections[s].tag, k + 1);
      } else {
        assert id in IDs(EventItems(c, p.used, |c.events|));
        var e :| 0 <= e < |c.events| && Listed(c, p.used, e) && id == EventID(c, e);
        assert id == NumberedID(c.procedure, EventTag(c.events[e]).value, c.events[e].line);
      }
    }
  }

  /** A numbered identifier ends in a digit, so it is not a decision's. */
  lemma NumberedOther(c: Case, id: string)
    requires Numbered(c, id)
    ensures id !in ["", "arb-decision", "arbd-decision"]
  {
    var tag, n: nat :| id == NumberedID(c.procedure, tag, n);
    DecimalDigits(n);
    assert '0' <= Decimal(n)[|Decimal(n)| - 1] <= '9';
    assert id == (c.procedure + "-" + tag + "-") + Decimal(n);
    assert id[|id| - 1] == Decimal(n)[|Decimal(n)| - 1];
  }

  /** Nothing of an arbitration is dropped: when no identifier of its forms is taken, every entry of the state, every
      unclaimed event and the decision is added, once, in order and with its own contents. */
  lemma ArbitrationAllAdded(b: State, c: Case, state: Option<CaseState>, run: Option<RunRecord>)
    requires LinesNumbered(c) && NamesFree(c, b.keys)
    ensures var items := WholeDocket(c, state, run);
            var b' := AllAdded(b, items);
            && FreshIDs(b, IDs(items))
            && |b'.docket| == |b.docket| + |items| && b'.docket[..|b.docket|] == b.docket
            && (forall i :: 0 <= i < |items| ==> b'.docket[|b.docket| + i] == Placed(b, items[i], i + 1))
  {
    hide NumberedID, ArbitrationItems, AllAdded, SectionsNamed, SectionsOf;
    var sections := if state.Some? then SectionsOf(state.value) else [];
    SectionsAreNamed(state);
    ArbitrationIDsDistinct(c, sections);
    AllNumbered(c, sections);
    var recorded, items := ArbitrationItems(c, sections), WholeDocket(c, state, run);
    var last := items[|recorded|..];
    assert items == recorded + last && |last| <= 1;
    IDsJoin(recorded, last);
    var ids := IDs(items);
    forall i | 0 <= i < |ids| ensures ids[i] != "" && ids[i] !in b.keys && forall j :: 0 <= j < i ==> ids[j] != ids[i] {
      FreshAt(b, c, sections, items, i);
    }
    AllFreshAdded(b, items);
  }

  lemma SectionsAreNamed(state: Option<CaseState>)
    ensures SectionsNamed(if state.Some? then SectionsOf(state.value) else [])
  {
    if state.Some? { TagsAreNames(SectionsOf(state.value)); }
  }

  /** An entry's, event's or decision's identifier is free, and differs from those before it. */
  lemma FreshAt(b: State, c: Case, sections: seq<Section>, items: seq<Item>, i: nat)
    requires NamesFree(c, b.keys)
    requires var recorded := ArbitrationItems(c, sections);
      && DistinctIDs(IDs(recorded)) && (forall id :: id in IDs(recorded) ==> Numbered(c, id))
      && i < |items| <= |recorded| + 1 && recorded <= items
      && (|items| > |recorded| ==> items[|recorded|].id in ["arb-decision", "arbd-decision"])
    ensures IDs(items)[i] != "" && IDs(items)[i] !in b.keys && forall j :: 0 <= j < i ==> IDs(items)[j] != IDs(items)[i]
  {
    hide NumberedID, ArbitrationItems;
    var recorded := ArbitrationItems(c, sections);
    var ids := IDs(recorded);
    forall j | 0 <= j < |recorded| ensures IDs(items)[j] == ids[j] && ids[j] !in ["", "arb-decision", "arbd-decision"] {
      assert recorded[j] == items[j] && ids[j] in ids;
      NumberedOther(c, ids[j]);
    }
    if i < |recorded| {
      assert ids[i] in ids;
      var tag, n: nat :| ids[i] == NumberedID(c.procedure, tag, n);
    }
  }

  // ---------- Conservation ----------

  /** Every event of a listed type is either claimed by exactly one entry of the state and not listed, or claimed
      by none and listed exactly once. */
  lemma EventsConserved(c: Case, sections: seq<Section>, i: nat)
    requires LinesNumbered(c) && i < |c.events| && EventTag(c.events[i]).Some?
    ensures var p := SectionsStep(c, sections, |sections|);
            var listed := IDs(EventItems(c, p.used, |c.events|));
            && DistinctIDs(listed)
            && (ClaimedBySome(p, i) <==> EventID(c, i) !in listed)
            && (forall j, k :: 0 <= j < k < |p.claims| && p.claims[j] == Some(i) ==> p.claims[k] != Some(i))
  {
    hide EventItems, SectionsStep;
    var p := SectionsStep(c, sections, |sections|);
    SectionsStepSound(c, sections, |sections|);
    EventsListedOnce(c, p.used, |c.events|);
    var listed := IDs(EventItems(c, p.used, |c.events|));
    if ClaimedBySome(p, i) {
      assert p.used[i];
      if EventID(c, i) in listed {
        var k :| 0 <= k < |c.events| && Listed(c, p.used, k) && EventID(c, i) == EventID(c, k);
        NumberedIDInjective(c.procedure, EventTag(c.events[i]).value, i + 1, EventTag(c.events[k]).value, k + 1);
      }
    } else {
      assert Listed(c, p.used, i);
    }
  }
}
