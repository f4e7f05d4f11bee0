/**
 Where the items of an arbitration docket come from (common/caserecord/docket.go): which event each entry of the
 final state is traced to, when it is dated, and which events are listed by themselves.
 */
module ArbitrationRecord {
  import opened Arbitration
  import Docket
  import opened Results
  import opened Text

  /** An entry of the state, with its list and its place in it. */
  datatype Source = Source(tag: string, index: nat, entry: Entry)

  /** The first n entries of a list. */
  function SectionSources(s: Section, n: nat): seq<Source>
    requires n <= |s.entries|
  {
    if n == 0 then [] else SectionSources(s, n - 1) + [Source(s.tag, n - 1, s.entries[n - 1])]
  }

  /** All entries of the state, list by list. */
  function Sources(sections: seq<Section>): seq<Source> {
    if sections == [] then [] else
      var last := sections[|sections| - 1];
      Sources(sections[..|sections| - 1]) + SectionSources(last, |last.entries|)
  }

  predicate ClaimedBy(claims: seq<Option<nat>>, i: nat) {
    exists k :: 0 <= k < |claims| && claims[k] == Some(i)
  }

  /** Every event before i that tells of the entry was claimed by one of the earlier entries. */
  predicate TakenBefore(c: Case, entry: Entry, earlier: seq<Option<nat>>, i: nat)
    requires i <= |c.events|
  {
    forall k :: 0 <= k < i && Tells(c.procedure, c.events[k], entry) ==> ClaimedBy(earlier, k)
  }

  predicate NoneTells(c: Case, entry: Entry, i: nat)
    requires i <= |c.events|
  {
    forall k :: 0 <= k < i ==> !Tells(c.procedure, c.events[k], entry)
  }

  /** A filing, a piece of evidence or a decision claims the first event that tells of it and that no earlier entry
      has claimed, and is dated by it. Without one it is dated by the state, evidence by its own time if it has one. */
  predicate ClaimsFirst(c: Case, entry: Entry, earlier: seq<Option<nat>>, claim: Option<nat>, timestamp: Option<int>) {
    match claim
    case Some(i) =>
      && i < |c.events| && Tells(c.procedure, c.events[i], entry) && !ClaimedBy(earlier, i) && TakenBefore(c, entry, earlier, i)
      && timestamp == (if entry.Evidence? && c.events[i].timestamp.None? then c.stateTime else c.events[i].timestamp)
    case None =>
      && TakenBefore(c, entry, earlier, |c.events|)
      && timestamp == (if entry.Evidence? && entry.retrieved.Some? then entry.retrieved else c.stateTime)
  }

  /** A report or an offer is dated by the first filing that includes it, claimed or not, and claims none. */
  ghost predicate DatedByFirst(c: Case, entry: Entry, claim: Option<nat>, timestamp: Option<int>) {
    && claim == None
    && (NoneTells(c, entry, |c.events|) ==> timestamp == c.stateTime)
    && forall i: nat :: i < |c.events| && Tells(c.procedure, c.events[i], entry) && NoneTells(c, entry, i) ==>
         timestamp == c.events[i].timestamp
  }

  ghost predicate Traced(c: Case, source: Source, earlier: seq<Option<nat>>, claim: Option<nat>, item: Docket.Item) {
    && item.id == c.procedure + "-" + source.tag + "-" + Decimal(source.index + 1)
    && item.kind == source.tag
    && item.actor == (if source.entry.Decision? then source.entry.memberID else source.entry.role)
    && (if source.entry.Report? || source.entry.Offer? then DatedByFirst(c, source.entry, claim, item.timestamp)
        else ClaimsFirst(c, source.entry, earlier, claim, item.timestamp))
  }

  ghost predicate TracedAt(c: Case, sources: seq<Source>, p: Progress, m: nat) {
    m < |sources| && m < |p.items| && m < |p.claims| && Traced(c, sources[m], p.claims[..m], p.claims[m], p.items[m])
  }

  /** One item and one claim, or none, for each entry. */
  ghost predicate AllTraced(c: Case, sources: seq<Source>, p: Progress) {
    |p.items| == |p.claims| == |sources| && forall m :: 0 <= m < |sources| ==> TracedAt(c, sources, p, m)
  }

  lemma EntryTraced(c: Case, p: Progress, source: Source)
    requires ClaimsSound(c, p)
    ensures var r := EntryStep(c, p, source.tag, source.index, source.entry);
            && |r.items| == |p.items| + 1 && |r.claims| == |p.claims| + 1 && p.items <= r.items && p.claims <= r.claims
            && Traced(c, source, p.claims, r.claims[|p.claims|], r.items[|p.items|])
  {
    hide Tells, Find, Decimal;
    FoundTells(c, p.used, source.entry);
    forall i | 0 <= i < |c.events| ensures p.used[i] == ClaimedBy(p.claims, i) { assert p.used[i] ==> ClaimedBySome(p, i); }
    if source.entry.Report? || source.entry.Offer? { DatedFirst(c, p.used, source.entry); }
  }

  lemma DatedFirst(c: Case, used: seq<bool>, entry: Entry)
    requires |used| == |c.events| && (entry.Report? || entry.Offer?)
    ensures DatedByFirst(c, entry, None, EntryTime(c, entry, Find(c, used, entry, 0)))
  {
    hide Tells, Find;
    FoundTells(c, used, entry);
  }

  lemma TracedStill(c: Case, sources: seq<Source>, p: Progress, source: Source, r: Progress)
    requires AllTraced(c, sources, p)
    requires |r.items| == |p.items| + 1 && |r.claims| == |p.claims| + 1 && p.items <= r.items && p.claims <= r.claims
    requires Traced(c, source, p.claims, r.claims[|p.claims|], r.items[|p.items|])
    ensures AllTraced(c, sources + [source], r)
  {
    hide Traced;
    forall m | 0 <= m < |sources| + 1 ensures TracedAt(c, sources + [source], r, m) {
      if m < |sources| {
        assert TracedAt(c, sources, p, m);
        assert r.claims[..m] == p.claims[..m];
      } else {
        assert r.claims[..m] == p.claims;
      }
    }
  }

  lemma {:induction false} SectionTraced(c: Case, sources: seq<Source>, p: Progress, s: Section, n: nat)
    requires ClaimsSound(c, p) && AllTraced(c, sources, p) && n <= |s.entries|
    ensures |p.used| == |c.events| && AllTraced(c, sources + SectionSources(s, n), SectionStep(c, p, s, n))
  {
    hide EntryStep, AllTraced, Traced, ClaimsSound;
    UsedForEvents(c, p);
    if n > 0 {
      SectionTraced(c, sources, p, s, n - 1);
      SectionStepSound(c, p, s, n - 1);
      var before, source := SectionStep(c, p, s, n - 1), Source(s.tag, n - 1, s.entries[n - 1]);
      EntryTraced(c, before, source);
      TracedStill(c, sources + SectionSources(s, n - 1), before, source, SectionStep(c, p, s, n));
      assert sources + SectionSources(s, n) == sources + SectionSources(s, n - 1) + [source];
    } else {
      assert sources + SectionSources(s, 0) == sources;
    }
  }

  lemma UsedForEvents(c: Case, p: Progress)
    requires ClaimsSound(c, p)
    ensures |p.used| == |c.events|
  {
  }

  lemma {:induction false} FirstSectionsTraced(c: Case, sections: seq<Section>, n: nat)
    requires n <= |sections|
    ensures AllTraced(c, Sources(sections[..n]), SectionsStep(c, sections, n))
  {
    hide AllTraced, SectionStep, ClaimsSound;
    if n > 0 {
      FirstSectionsTraced(c, sections, n - 1);
      SectionsStepSound(c, sections, n - 1);
      var last := sections[n - 1];
      assert sections[..n][..n - 1] == sections[..n - 1];
      SectionTraced(c, Sources(sections[..n - 1]), SectionsStep(c, sections, n - 1), last, |last.entries|);
    } else {
      NothingTraced(c);
    }
  }

  lemma NothingTraced(c: Case)
    ensures AllTraced(c, Sources([]), Progress([], seq(|c.events|, i => false), []))
  {
  }

  /** Each entry of the state is listed once, in order, under its own identifier and actor, traced to the first
      event that tells of it and that no earlier entry has claimed, and dated by that event. */
  lemma EntriesTraced(c: Case, sections: seq<Section>)
    ensures AllTraced(c, Sources(sections), SectionsStep(c, sections, |sections|))
  {
    hide AllTraced, SectionsStep;
    FirstSectionsTraced(c, sections, |sections|);
    assert sections[..|sections|] == sections;
  }

  /** A filing whose own event is in the record is listed with that event's time, and the event is not listed a
      second time: if no other entry is the same filing, it claims an event with its phase, action, role and text. */
  lemma OwnEventClaimed(c: Case, sections: seq<Section>, m: nat, i: nat)
    requires LinesNumbered(c) && m < |Sources(sections)| && i < |c.events|
    requires var entry, e := Sources(sections)[m].entry, c.events[i];
      && entry.Filing? && e.eventType == "attorney_action"
      && e.phase == entry.phase && e.action == entry.action && e.role == entry.role && e.text == entry.text
    requires forall k :: 0 <= k < |Sources(sections)| && k != m ==> Sources(sections)[k].entry != Sources(sections)[m].entry
    ensures var p := SectionsStep(c, sections, |sections|);
            var entry := Sources(sections)[m].entry;
            && m < |p.claims| == |p.items| && p.claims[m].Some? && p.claims[m].value < |c.events|
            && var e := c.events[p.claims[m].value];
            && e.eventType == "attorney_action" && e.phase == entry.phase && e.action == entry.action
            && e.role == entry.role && e.text == entry.text
            && p.items[m].timestamp == e.timestamp && p.items[m].actor == e.role
            && EventTag(e).Some? && EventID(c, p.claims[m].value) !in Docket.IDs(EventItems(c, p.used, |c.events|))
  {
    hide SectionsStep, EventItems, EventID, DatedByFirst, Decimal;
    var p, sources := SectionsStep(c, sections, |sections|), Sources(sections);
    EntriesTraced(c, sections);
    assert TracedAt(c, sources, p, m);
    if p.claims[m] == None {
      assert Tells(c.procedure, c.events[i], sources[m].entry);
      assert ClaimedBy(p.claims[..m], i);
      var k :| 0 <= k < m && p.claims[..m][k] == Some(i);
      ClaimTells(c, sources, p, k);
    } else {
      EventsConserved(c, sections, p.claims[m].value);
      assert ClaimedBySome(p, p.claims[m].value);
    }
  }

  lemma ClaimTells(c: Case, sources: seq<Source>, p: Progress, k: nat)
    requires AllTraced(c, sources, p) && k < |sources| && p.claims[k].Some?
    ensures var entry := sources[k].entry;
            && p.claims[k].value < |c.events| && Tells(c.procedure, c.events[p.claims[k].value], entry)
            && !entry.Report? && !entry.Offer?
  {
    hide Tells, Decimal, TakenBefore, NoneTells;
    assert TracedAt(c, sources, p, k);
  }

  // ---------- What else is listed ----------

  /** The positions of the first n events that no entry has claimed and whose type is listed, in order. */
  function Unclaimed(c: Case, used: seq<bool>, n: nat): seq<nat>
    requires n <= |c.events| == |used|
  {
    if n == 0 then [] else
      Unclaimed(c, used, n - 1) +
      if !used[n - 1] && c.events[n - 1].eventType in ["attorney_action", "submitted_evidence", "council_vote", "council_answer"]
      then [n - 1] else []
  }

  /** The item of an event by itself: named after its type and line, dated by it, under its role or its member. */
  predicate Lists(c: Case, e: Event, item: Docket.Item) {
    var name := if e.eventType == "attorney_action" then "event-filing"
                else if e.eventType == "submitted_evidence" then "event-evidence"
                else "event-council";
    && item.id == c.procedure + "-" + name + "-" + Decimal(e.line)
    && item.timestamp == e.timestamp
    && item.actor == (if name == "event-council" then e.memberID else e.role)
  }

  predicate ListsAt(c: Case, positions: seq<nat>, items: seq<Docket.Item>, j: nat) {
    j < |positions| && j < |items| && positions[j] < |c.events| && Lists(c, c.events[positions[j]], items[j])
  }

  /** The unclaimed events of the listed types are listed in order, each with its own time and actor. */
  lemma {:induction false} UnclaimedListed(c: Case, used: seq<bool>, n: nat)
    requires n <= |c.events| == |used|
    ensures |EventItems(c, used, n)| == |Unclaimed(c, used, n)|
    ensures forall j :: 0 <= j < |Unclaimed(c, used, n)| ==> ListsAt(c, Unclaimed(c, used, n), EventItems(c, used, n), j)
  {
    hide Decimal, Lists, EventItem;
    if n > 0 {
      UnclaimedListed(c, used, n - 1);
      EventTyped(c, c.events[n - 1]);
      var before, items := Unclaimed(c, used, n - 1), EventItems(c, used, n - 1);
      forall j | 0 <= j < |Unclaimed(c, used, n)| ensures ListsAt(c, Unclaimed(c, used, n), EventItems(c, used, n), j) {
        if j < |before| { assert ListsAt(c, before, items, j); }
      }
    }
  }

  lemma EventTyped(c: Case, e: Event)
    ensures EventTag(e).Some? <==> e.eventType in ["attorney_action", "submitted_evidence", "council_vote", "council_answer"]
    ensures EventTag(e).Some? ==> Lists(c, e, EventItem(c, e))
  {
    hide Decimal;
  }

  /** The entries of the five phases keep role and text, those of the other lists what they are matched by. */
  lemma ListsRead(state: CaseState)
    ensures var read, phases := SectionsOf(state), [state.openings, state.arguments, state.rebuttals, state.surrebuttals, state.closings];
            && |read| == 9
            && (forall n :: 0 <= n < 5 ==> ReadFilings(phases[n], read[n], SECTION_TAGS[n], FILING_ACTIONS[n]))
            && |read[5].entries| == |state.reports| && |read[6].entries| == |state.offers|
            && |read[7].entries| == |state.evidence| && |read[8].entries| == |state.council|
            && (forall j :: 0 <= j < |state.reports| ==>
                 && read[5].entries[j].Report? && read[5].entries[j].phase == state.reports[j].phase
                 && read[5].entries[j].role == state.reports[j].role && read[5].entries[j].title == state.reports[j].title)
            && (forall j :: 0 <= j < |state.offers| ==>
                 && read[6].entries[j].Offer? && read[6].entries[j].phase == state.offers[j].phase
                 && read[6].entries[j].role == state.offers[j].role && read[6].entries[j].evidenceID == state.offers[j].evidenceID)
            && (forall j :: 0 <= j < |state.evidence| ==>
                 && read[7].entries[j].Evidence? && read[7].entries[j].role == state.evidence[j].role
                 && read[7].entries[j].evidenceID == state.evidence[j].evidenceID && read[7].entries[j].retrieved == state.evidence[j].retrieved)
            && (forall j :: 0 <= j < |state.council| ==> read[8].entries[j].Decision? && read[8].entries[j].memberID == state.council[j])
  {
  }

  const FILING_ACTIONS := ["record_opening_statement", "submit_argument", "submit_rebuttal", "submit_surrebuttal", "deliver_closing_statement"]

  predicate ReadFilings(filings: seq<Filed>, s: Section, phase: string, action: string) {
    && s.tag == phase && |s.entries| == |filings|
    && forall j :: 0 <= j < |filings| ==>
         && s.entries[j].Filing? && s.entries[j].phase == phase && s.entries[j].action == action
         && s.entries[j].role == filings[j].role && s.entries[j].text == filings[j].text
  }

  /** An arbitration's decision is listed exactly when the run or the state has a resolution, and the run's comes
      first; a degree decision exactly when there are answers. It is dated by the end of the run if that is known. */
  lemma DecisionListed(procedure: string, state: CaseState, run: RunRecord)
    ensures var item := DecisionItem(procedure, state, run);
            && (procedure == "arb" ==> (item.None? <==> run.resolution == "" && state.resolution == ""))
            && (procedure == "arb" && run.resolution != "" ==> item.value.title == "Decision: " + run.resolution)
            && (procedure == "arb" && item.Some? && run.resolution == "" ==> item.value.title == "Decision: " + state.resolution)
            && (procedure != "arb" ==> (item.Some? <==> run.answered || state.council != []))
            && (item.Some? ==>
                 && item.value.id == (if procedure == "arb" then "arb-decision" else "arbd-decision")
                 && item.value.actor == "council"
                 && (run.finished.Some? ==> item.value.timestamp == run.finished)
                 && (run.finished.None? ==> item.value.timestamp == run.written))
  {
  }
}
