/**
 Reconstructing the docket of a case (common/caserecord/record.go and docket.go): items are added under unique
 identifiers, growing docket snapshots are merged, state entries claim the events they stem from, and the
 result is sorted and numbered.
 */
module Docket {
  import opened Results
  import opened Text

  /** A timestamp is None when the source has none. */
  datatype Item = Item(id: string, timestamp: Option<int>, actor: string, kind: string, title: string, order: nat, sequence: nat)

  datatype State = State(docket: seq<Item>, keys: set<string>, nextOrder: nat, startedAt: int)

  // ---------- Adding items ----------

  function Prepared(b: State, item: Item): Item {
    item.(id := if item.id == "" then "item-" + Decimal(b.nextOrder + 1) else item.id,
          timestamp := if item.timestamp.None? then Some(b.startedAt) else item.timestamp,
          order := b.nextOrder + 1)
  }

  /** A second item under the same identifier is dropped. */
  function Added(b: State, item: Item): State {
    var ready := Prepared(b, item);
    if ready.id in b.keys then b
    else b.(docket := b.docket + [ready], keys := b.keys + {ready.id}, nextOrder := b.nextOrder + 1)
  }

  function AllAdded(b: State, items: seq<Item>): State {
    if items == [] then b else Added(AllAdded(b, items[..|items| - 1]), items[|items| - 1])
  }

  function IDs(items: seq<Item>): (r: seq<string>)
    ensures |r| == |items|
  {
    seq(|items|, i requires 0 <= i < |items| => items[i].id)
  }

  predicate DistinctIDs(ids: seq<string>) {
    forall i, j :: 0 <= i < j < |ids| ==> ids[i] != ids[j]
  }

  /** Identifiers that are given, differ from one another, and are not taken. */
  predicate FreshIDs(b: State, ids: seq<string>) {
    DistinctIDs(ids) && forall i :: 0 <= i < |ids| ==> ids[i] != "" && ids[i] !in b.keys
  }

  /** An item as it is added in the n-th place: with the case's start for a missing time. */
  function Placed(b: State, item: Item, n: nat): Item {
    item.(timestamp := if item.timestamp.None? then Some(b.startedAt) else item.timestamp, order := b.nextOrder + n)
  }

  /** The same identifier, actor, kind and title, at the item's own time or else at the start of the case. */
  predicate PlacedAs(item: Item, startedAt: int, order: nat, placed: Item) {
    && placed.id == item.id && placed.actor == item.actor && placed.kind == item.kind && placed.title == item.title
    && (item.timestamp.Some? ==> placed.timestamp == item.timestamp)
    && (item.timestamp.None? ==> placed.timestamp == Some(startedAt))
    && placed.order == order && placed.sequence == item.sequence
  }

  /** Every item under a fresh identifier is added, once, in order, with its own contents, and numbered by insertion. */
  lemma {:induction false} AllFreshAdded(b: State, items: seq<Item>)
    requires FreshIDs(b, IDs(items))
    ensures var b' := AllAdded(b, items);
            && |b'.docket| == |b.docket| + |items| && b'.docket[..|b.docket|] == b.docket && b'.startedAt == b.startedAt
            && (forall i :: 0 <= i < |items| ==> b'.docket[|b.docket| + i] == Placed(b, items[i], i + 1))
            && (forall i :: 0 <= i < |items| ==> PlacedAs(items[i], b.startedAt, b.nextOrder + i + 1, b'.docket[|b.docket| + i]))
            && b'.nextOrder == b.nextOrder + |items|
            && b'.keys == b.keys + (set id | id in IDs(items))
  {
    hide Added, FreshIDs;
    if items != [] {
      var front, last := items[..|items| - 1], items[|items| - 1];
      FreshFront(b, items);
      AllFreshAdded(b, front);
      var b1 := AllAdded(b, front);
      AddedFresh(b1, last);
      assert IDs(items) == IDs(front) + [last.id];
      var b' := AllAdded(b, items);
      assert b'.docket[..|b.docket|] == b1.docket[..|b.docket|];
    }
  }

  lemma FreshFront(b: State, items: seq<Item>)
    requires FreshIDs(b, IDs(items)) && items != []
    ensures var front, last := items[..|items| - 1], items[|items| - 1];
            FreshIDs(b, IDs(front)) && last.id != "" && last.id !in b.keys && last.id !in IDs(front)
  {
    var ids := IDs(items);
    assert IDs(items[..|items| - 1]) == ids[..|items| - 1];
    assert ids[|items| - 1] == items[|items| - 1].id;
  }

  lemma AddedFresh(b: State, item: Item)
    requires item.id != "" && item.id !in b.keys
    ensures Added(b, item) == State(b.docket + [Placed(b, item, 1)], b.keys + {item.id}, b.nextOrder + 1, b.startedAt)
  {
  }

  /** The identifier of an item added without one, in the n-th place. */
  function Unnamed(n: nat): string {
    "item-" + Decimal(n)
  }

  lemma UnnamedInjective(m: nat, n: nat)
    requires Unnamed(m) == Unnamed(n)
    ensures m == n
  {
    assert Unnamed(m)[5..] == Decimal(m) && Unnamed(n)[5..] == Decimal(n);
    DecimalInjective(m, n);
  }

  ghost predicate NoneUnnamed(keys: set<string>, from: nat) {
    forall n: nat :: n >= from ==> Unnamed(n) !in keys
  }

  predicate NumberedAt(b: State, b': State, i: nat) {
    |b.docket| + i < |b'.docket| && b'.docket[|b.docket| + i].id == "item-" + Decimal(b.nextOrder + i + 1)
  }

  /** Items without identifiers are all added, in order, each under the number of its place. */
  lemma {:induction false} UnnamedAdded(b: State, items: seq<Item>)
    requires (forall i :: 0 <= i < |items| ==> items[i].id == "") && NoneUnnamed(b.keys, b.nextOrder + 1)
    ensures var b' := AllAdded(b, items);
            && |b'.docket| == |b.docket| + |items| && b'.docket[..|b.docket|] == b.docket
            && (forall i :: 0 <= i < |items| ==> NumberedAt(b, b', i))
            && b'.nextOrder == b.nextOrder + |items| && NoneUnnamed(b'.keys, b'.nextOrder + 1)
  {
    hide Added, NoneUnnamed, Decimal;
    if items != [] {
      var front, last := items[..|items| - 1], items[|items| - 1];
      UnnamedAdded(b, front);
      var b1, b' := AllAdded(b, front), AllAdded(b, items);
      OneUnnamed(b1, last);
      assert b'.docket[..|b.docket|] == b1.docket[..|b.docket|];
      forall i | 0 <= i < |items| ensures NumberedAt(b, b', i) {
        if i < |front| { assert NumberedAt(b, b1, i); }
      }
    }
  }

  lemma OneUnnamed(b: State, item: Item)
    requires item.id == "" && NoneUnnamed(b.keys, b.nextOrder + 1)
    ensures var b' := Added(b, item);
            && |b'.docket| == |b.docket| + 1 && b'.docket[..|b.docket|] == b.docket
            && b'.docket[|b.docket|].id == "item-" + Decimal(b.nextOrder + 1)
            && b'.nextOrder == b.nextOrder + 1 && NoneUnnamed(b'.keys, b'.nextOrder + 1)
  {
    hide Decimal;
    assert Unnamed(b.nextOrder + 1) !in b.keys;
    var b' := Added(b, item);
    forall n: nat | n >= b'.nextOrder + 1 ensures Unnamed(n) !in b'.keys {
      if Unnamed(n) == Unnamed(b.nextOrder + 1) { UnnamedInjective(n, b.nextOrder + 1); }
    }
  }

  /** An item whose identifier is taken is dropped. */
  lemma TakenDropped(b: State, item: Item)
    ensures Added(b, item) == b <==> (if item.id == "" then Unnamed(b.nextOrder + 1) else item.id) in b.keys
  {
    if Prepared(b, item).id !in b.keys { assert Added(b, item).nextOrder == b.nextOrder + 1; }
  }

  lemma {:induction false} AllAddedJoin(b: State, s: seq<Item>, t: seq<Item>)
    ensures AllAdded(b, s + t) == AllAdded(AllAdded(b, s), t)
  {
    if t == [] {
      assert s + t == s;
    } else {
      assert (s + t)[..|s + t| - 1] == s + t[..|t| - 1];
      AllAddedJoin(b, s, t[..|t| - 1]);
    }
  }

  class Builder {
    const startedAt: int
    var docket: seq<Item>
    var docketKeys: set<string>
    var nextOrder: nat

    ghost function View(): State
      reads this
    {
      State(docket, docketKeys, nextOrder, startedAt)
    }

    constructor (startedAt: int)
      ensures View() == State([], {}, 0, startedAt)
    {
      this.startedAt := startedAt;
      docket, docketKeys, nextOrder := [], {}, 0;
    }

    method AddDocket(item: Item)
      modifies this
      ensures View() == Added(old(View()), item)
    {
      var ready := item;
      if ready.timestamp.None? { ready := ready.(timestamp := Some(startedAt)); }
      if ready.id == "" { ready := ready.(id := "item-" + Decimal(nextOrder + 1)); }
      if ready.id in docketKeys {
        return;
      }
      docketKeys := docketKeys + {ready.id};
      nextOrder := nextOrder + 1;
      docket := docket + [ready.(order := nextOrder)];
    }

    /** The docket entries of an ADC case: those of initialization, those that each event's
        snapshot adds, and what only the final state has. */
    method AddADCDocket(state: Option<seq<Entry>>, initialization: Option<nat>, events: seq<Snapshot>) returns (error: Option<DocketError>)
      modifies this
      ensures match ADCItems(old(docketKeys), state, initialization, events)
              case Failure(e) => error == Some(e)
              case Success(items) => error == None && View() == AllAdded(old(View()), items)
    {
      hide Merged, InitialItems;
      ghost var b, known := View(), docketKeys;
      var final := if state.Some? then state.value else [];
      var first := FirstEmitted(state, initialization);
      if first > |final| { return Some(FewerThanInitialization); }
      AddInitialEntries(final, first);
      var emitted;
      error, emitted := AddSnapshots(events, first);
      if error.Some? { return; }
      ghost var initial, merged := InitialItems(known, final, first), Merged(events, first, |events|).value.0;
      AllAddedJoin(b, initial, merged);
      if emitted < |final| {
        AddEntries(final, None, "", emitted, |final|);
        AllAddedJoin(b, initial + merged, EntryItems(final, None, "", emitted, |final|));
      } else {
        assert initial + merged + [] == initial + merged;
      }
    }

    /** The complaint and its attachments, unless they are listed already. */
    method AddInitialEntries(final: seq<Entry>, count: nat)
      requires count <= |final|
      modifies this
      ensures View() == AllAdded(old(View()), InitialItems(old(docketKeys), final, count))
    {
      hide Added, ADCItem, LogicalID;
      ghost var b, known := View(), docketKeys;
      for index := 0 to count
        invariant View() == AllAdded(b, InitialItems(known, final, index))
        invariant forall n :: (LogicalID(n) in docketKeys <==> LogicalID(n) in known)
      {
        if LogicalID(index) !in docketKeys {
          AddedLast(b, InitialItems(known, final, index), ADCItem(index, None, "plaintiff", final[index]));
          OtherKeys(View(), index, None, "plaintiff", final[index]);
          AddDocket(ADCItem(index, None, "plaintiff", final[index]));
        }
      }
    }

    method AddSnapshots(events: seq<Snapshot>, first: nat) returns (error: Option<DocketError>, emitted: nat)
      modifies this
      ensures match Merged(events, first, |events|)
              case Failure(e) => error == Some(e)
              case Success(merged) => error == None && emitted == merged.1 && View() == AllAdded(old(View()), merged.0)
    {
      hide EntryItems;
      ghost var b := View();
      emitted := first;
      for k := 0 to |events|
        invariant Merged(events, first, k).Success? && Merged(events, first, k).value.1 == emitted
        invariant View() == AllAdded(b, Merged(events, first, k).value.0)
      {
        var e := events[k];
        if e.action == "" || e.docket.None? { continue; }
        if |e.docket.value| < emitted {
          MergeFails(events, first, k + 1, |events|);
          return Some(DocketReduced(e.line)), emitted;
        }
        AllAddedJoin(b, Merged(events, first, k).value.0, EntryItems(e.docket.value, e.timestamp, e.role, emitted, |e.docket.value|));
        AddEntries(e.docket.value, e.timestamp, e.role, emitted, |e.docket.value|);
        emitted := |e.docket.value|;
      }
      error := None;
    }

    method AddEntries(docket: seq<Entry>, timestamp: Option<int>, actor: string, from: nat, to: nat)
      requires from <= to <= |docket|
      modifies this
      ensures View() == AllAdded(old(View()), EntryItems(docket, timestamp, actor, from, to))
    {
      hide Added, ADCItem;
      ghost var b := View();
      for index := from to to
        invariant View() == AllAdded(b, EntryItems(docket, timestamp, actor, from, index))
      {
        AddedLast(b, EntryItems(docket, timestamp, actor, from, index), ADCItem(index, timestamp, actor, docket[index]));
        AddDocket(ADCItem(index, timestamp, actor, docket[index]));
      }
    }

    /** Sorting is stable and by time; numbers are given afterwards. */
    method Finish()
      modifies this
      ensures docket == Numbered(ByTime(old(docket)))
    {
      hide ByTime;
      var sorted := ByTime(docket);
      docket := sorted;
      for index := 0 to |sorted|
        invariant |docket| == |sorted|
        invariant forall i :: 0 <= i < index ==> docket[i] == sorted[i].(sequence := i + 1)
        invariant forall i :: index <= i < |sorted| ==> docket[i] == sorted[i]
      {
        docket := docket[index := docket[index].(sequence := index + 1)];
      }
    }
  }

  lemma AddedLast(b: State, items: seq<Item>, item: Item)
    ensures AllAdded(b, items + [item]) == Added(AllAdded(b, items), item)
  {
    assert (items + [item])[..|items|] == items;
  }

  // ---------- Merging docket snapshots ----------

  datatype Entry = Entry(title: string, description: string)

  /** An event and the docket in the state it returned, if it has an action and returned one. */
  datatype Snapshot = Snapshot(action: string, line: nat, timestamp: Option<int>, role: string, docket: Option<seq<Entry>>)

  datatype DocketError = FewerThanInitialization | DocketReduced(line: nat)

  function ADCID(index: nat): string {
    "adc-docket-" + Decimal(index + 1)
  }

  function ADCItem(index: nat, timestamp: Option<int>, actor: string, entry: Entry): Item {
    Item(ADCID(index), timestamp, actor, "docket_entry", entry.title, 0, 0)
  }

  /** The identifier under which an initialization entry may be listed already. */
  function LogicalID(index: nat): string {
    if index == 0 then "complaint" else "complaint-attachment-" + Decimal(index)
  }

  function InitialItems(keys: set<string>, final: seq<Entry>, count: nat): seq<Item>
    requires count <= |final|
  {
    if count == 0 then []
    else if LogicalID(count - 1) in keys then InitialItems(keys, final, count - 1)
    else InitialItems(keys, final, count - 1) + [ADCItem(count - 1, None, "plaintiff", final[count - 1])]
  }

  function EntryItems(docket: seq<Entry>, timestamp: Option<int>, actor: string, from: nat, to: nat): seq<Item>
    requires from <= to <= |docket|
  {
    if from == to then [] else EntryItems(docket, timestamp, actor, from, to - 1) + [ADCItem(to - 1, timestamp, actor, docket[to - 1])]
  }

  /** The items that the first k events add, and the number of entries seen by then. */
  function Merged(events: seq<Snapshot>, emitted: nat, k: nat): (r: Result<(seq<Item>, nat), DocketError>)
    requires k <= |events|
    ensures r.Success? ==> r.value.1 >= emitted
  {
    if k == 0 then Success(([], emitted)) else
      var before, e := Merged(events, emitted, k - 1), events[k - 1];
      if before.Failure? || e.action == "" || e.docket.None? then before
      else if |e.docket.value| < before.value.1 then Failure(DocketReduced(e.line))
      else Success((before.value.0 + EntryItems(e.docket.value, e.timestamp, e.role, before.value.1, |e.docket.value|), |e.docket.value|))
  }

  function FirstEmitted(state: Option<seq<Entry>>, initialization: Option<nat>): nat {
    if state.Some? && initialization.Some? then 1 + initialization.value else 0
  }

  function ADCItems(keys: set<string>, state: Option<seq<Entry>>, initialization: Option<nat>, events: seq<Snapshot>): Result<seq<Item>, DocketError> {
    var final := if state.Some? then state.value else [];
    var first := FirstEmitted(state, initialization);
    if first > |final| then Failure(FewerThanInitialization) else
      var merged := Merged(events, first, |events|);
      if merged.Failure? then Failure(merged.error) else
        var emitted := merged.value.1;
        Success(InitialItems(keys, final, first) + merged.value.0
                + if emitted < |final| then EntryItems(final, None, "", emitted, |final|) else [])
  }

  lemma {:induction false} MergeFails(events: seq<Snapshot>, emitted: nat, k: nat, n: nat)
    requires k <= n <= |events| && Merged(events, emitted, k).Failure?
    ensures Merged(events, emitted, n) == Merged(events, emitted, k)
  {
    if k < n { MergeFails(events, emitted, k, n - 1); }
  }

  lemma OtherKeys(b: State, index: nat, timestamp: Option<int>, actor: string, entry: Entry)
    ensures forall n :: (LogicalID(n) in Added(b, ADCItem(index, timestamp, actor, entry)).keys <==> LogicalID(n) in b.keys)
  {
    forall n ensures LogicalID(n) != ADCID(index) {
      assert LogicalID(n)[0] == 'c' && ADCID(index)[0] == 'a';
    }
  }

  lemma ADCIDInjective(i: nat, j: nat)
    requires ADCID(i) == ADCID(j)
    ensures i == j
  {
    var prefix := "adc-docket-";
    assert ADCID(i)[|prefix|..] == Decimal(i + 1) && ADCID(j)[|prefix|..] == Decimal(j + 1);
    DecimalInjective(i + 1, j + 1);
  }

  /** The identifiers of the indexes from one to another. */
  function RangeIDs(from: nat, to: nat): (r: seq<string>)
    requires from <= to
    ensures |r| == to - from && forall i :: 0 <= i < to - from ==> r[i] == ADCID(from + i)
  {
    seq(to - from, i requires 0 <= i => ADCID(from + i))
  }

  lemma {:induction false} EntryIDs(docket: seq<Entry>, timestamp: Option<int>, actor: string, from: nat, to: nat)
    requires from <= to <= |docket|
    ensures IDs(EntryItems(docket, timestamp, actor, from, to)) == RangeIDs(from, to)
  {
    hide ADCID;
    if from < to {
      EntryIDs(docket, timestamp, actor, from, to - 1);
      IDsJoin(EntryItems(docket, timestamp, actor, from, to - 1), [ADCItem(to - 1, timestamp, actor, docket[to - 1])]);
      assert RangeIDs(from, to) == RangeIDs(from, to - 1) + [ADCID(to - 1)];
      assert IDs([ADCItem(to - 1, timestamp, actor, docket[to - 1])]) == [ADCID(to - 1)];
    }
  }

  lemma IDsJoin(s: seq<Item>, t: seq<Item>)
    ensures IDs(s + t) == IDs(s) + IDs(t)
  {
  }

  lemma RangesJoin(from: nat, middle: nat, to: nat)
    requires from <= middle <= to
    ensures RangeIDs(from, middle) + RangeIDs(middle, to) == RangeIDs(from, to)
  {
    hide ADCID;
  }

  lemma {:induction false} MergedIDs(events: seq<Snapshot>, emitted: nat, k: nat)
    requires k <= |events| && Merged(events, emitted, k).Success?
    ensures IDs(Merged(events, emitted, k).value.0) == RangeIDs(emitted, Merged(events, emitted, k).value.1)
  {
    hide ADCID;
    if k > 0 {
      MergedIDs(events, emitted, k - 1);
      var before, e := Merged(events, emitted, k - 1).value, events[k - 1];
      if e.action != "" && e.docket.Some? {
        var items := EntryItems(e.docket.value, e.timestamp, e.role, before.1, |e.docket.value|);
        EntryIDs(e.docket.value, e.timestamp, e.role, before.1, |e.docket.value|);
        IDsJoin(before.0, items);
        RangesJoin(emitted, before.1, |e.docket.value|);
      }
    }
  }

  /** The longest docket that any source shows. */
  function Total(state: Option<seq<Entry>>, initialization: Option<nat>, events: seq<Snapshot>): nat
    requires Merged(events, FirstEmitted(state, initialization), |events|).Success?
  {
    var seen := Merged(events, FirstEmitted(state, initialization), |events|).value.1;
    if state.Some? && |state.value| > seen then |state.value| else seen
  }

  /** Each index of the docket becomes exactly one item, in order, apart from the initialization entries that
      are listed under their own identifiers already. */
  lemma EachIndexOnce(keys: set<string>, state: Option<seq<Entry>>, initialization: Option<nat>, events: seq<Snapshot>)
    requires ADCItems(keys, state, initialization, events).Success?
    ensures var first := FirstEmitted(state, initialization);
            var final := if state.Some? then state.value else [];
            && first <= |final| && Merged(events, first, |events|).Success? && first <= Total(state, initialization, events)
            && IDs(ADCItems(keys, state, initialization, events).value)
               == IDs(InitialItems(keys, final, first)) + RangeIDs(first, Total(state, initialization, events))
  {
    hide ADCID, InitialItems;
    var first := FirstEmitted(state, initialization);
    var final := if state.Some? then state.value else [];
    var merged := Merged(events, first, |events|).value;
    MergedIDs(events, first, |events|);
    IDsJoin(InitialItems(keys, final, first), merged.0);
    if merged.1 < |final| {
      var rest := EntryItems(final, None, "", merged.1, |final|);
      EntryIDs(final, None, "", merged.1, |final|);
      IDsJoin(InitialItems(keys, final, first) + merged.0, rest);
      RangesJoin(first, merged.1, |final|);
    } else {
      IDsJoin(InitialItems(keys, final, first) + merged.0, []);
    }
  }

  /** An initialization entry is emitted exactly when it is not listed already. */
  lemma {:induction false} InitialOnce(keys: set<string>, final: seq<Entry>, count: nat, i: nat)
    requires count <= |final|
    ensures ADCID(i) in IDs(InitialItems(keys, final, count)) <==> i < count && LogicalID(i) !in keys
    ensures DistinctIDs(IDs(InitialItems(keys, final, count)))
    ensures forall id :: id in IDs(InitialItems(keys, final, count)) ==> exists j :: 0 <= j < count && id == ADCID(j)
  {
    hide ADCID, LogicalID;
    if count > 0 {
      var front := InitialItems(keys, final, count - 1);
      InitialOnce(keys, final, count - 1, i);
      InitialOnce(keys, final, count - 1, count - 1);
      if LogicalID(count - 1) !in keys {
        var last := ADCItem(count - 1, None, "plaintiff", final[count - 1]);
        IDsJoin(front, [last]);
        assert IDs([last]) == [ADCID(count - 1)];
        if ADCID(i) == ADCID(count - 1) { ADCIDInjective(i, count - 1); }
      }
    }
  }

  /** No two items of the merged docket share an identifier, so none is dropped. */
  lemma MergedAllAdded(b: State, state: Option<seq<Entry>>, initialization: Option<nat>, events: seq<Snapshot>)
    requires ADCItems(b.keys, state, initialization, events).Success?
    requires forall i {:trigger ADCID(i)} :: 0 <= i ==> ADCID(i) !in b.keys
    ensures FreshIDs(b, IDs(ADCItems(b.keys, state, initialization, events).value))
  {
    hide ADCItems, InitialItems, ADCID, Total;
    var first := FirstEmitted(state, initialization);
    var final := if state.Some? then state.value else [];
    EachIndexOnce(b.keys, state, initialization, events);
    InitialOnce(b.keys, final, first, 0);
    var initial := IDs(InitialItems(b.keys, final, first));
    var ids := initial + RangeIDs(first, Total(state, initialization, events));
    forall i | 0 <= i < |ids| ensures NumberedFrom(ids[i], first, i, |initial|) {
      if i < |initial| { assert ids[i] in initial; } else { assert ids[i] == ADCID(first + i - |initial|); }
    }
    forall i, j | 0 <= i < j < |ids| ensures ids[i] != ids[j] {
      if j < |initial| { assert initial[i] != initial[j]; } else { LaterNumber(ids[i], ids[j], first, i, j, |initial|); }
    }
    forall i | 0 <= i < |ids| ensures ids[i] != "" && ids[i] !in b.keys {
      assert NumberedFrom(ids[i], first, i, |initial|);
      var n :| 0 <= n && ids[i] == ADCID(n);
      ADCIDNotEmpty(n);
    }
  }

  /** The i-th identifier: of an initialization entry, before `first`, or of the next index from there on. */
  ghost predicate NumberedFrom(id: string, first: nat, i: nat, k: nat) {
    exists n :: 0 <= n && id == ADCID(n) && (if i < k then n < first else n == first + i - k)
  }

  lemma LaterNumber(id: string, later: string, first: nat, i: nat, j: nat, k: nat)
    requires i < j && k <= j && NumberedFrom(id, first, i, k) && NumberedFrom(later, first, j, k)
    ensures id != later
  {
    hide ADCID;
    var m :| 0 <= m && id == ADCID(m) && (if i < k then m < first else m == first + i - k);
    if id == later { ADCIDInjective(m, first + j - k); }
  }

  lemma ADCIDNotEmpty(i: nat)
    ensures ADCID(i) != ""
  {
  }

  // ---------- Which event an entry is listed for ----------

  /** The event has an action and its docket reaches beyond index i. */
  predicate Shows(e: Snapshot, i: nat) {
    e.action != "" && e.docket.Some? && i < |e.docket.value|
  }

  predicate FirstShown(events: seq<Snapshot>, i: nat, k: nat) {
    k < |events| && Shows(events[k], i) && forall j :: 0 <= j < k ==> !Shows(events[j], i)
  }

  predicate NeverShown(events: seq<Snapshot>, i: nat) {
    forall j :: 0 <= j < |events| ==> !Shows(events[j], i)
  }

  predicate Tells(item: Item, i: nat, title: string, timestamp: Option<int>, actor: string) {
    item.id == "adc-docket-" + Decimal(i + 1) && item.kind == "docket_entry" && item.title == title && item.timestamp == timestamp && item.actor == actor
  }

  /** The item of index i is what the first event that shows this index says of it, at that event's time and under its role. */
  ghost predicate ShownBy(events: seq<Snapshot>, i: nat, item: Item) {
    exists k: nat :: FirstShown(events, i, k) && Tells(item, i, events[k].docket.value[i].title, events[k].timestamp, events[k].role)
  }

  lemma {:induction false} EntryTells(docket: seq<Entry>, timestamp: Option<int>, actor: string, from: nat, to: nat, i: nat)
    requires from <= i < to <= |docket|
    ensures |EntryItems(docket, timestamp, actor, from, to)| == to - from
    ensures Tells(EntryItems(docket, timestamp, actor, from, to)[i - from], i, docket[i].title, timestamp, actor)
  {
    hide Decimal;
    if i < to - 1 { EntryTells(docket, timestamp, actor, from, to - 1, i); } else { EntryCount(docket, timestamp, actor, from, to - 1); }
  }

  lemma {:induction false} EntryCount(docket: seq<Entry>, timestamp: Option<int>, actor: string, from: nat, to: nat)
    requires from <= to <= |docket|
    ensures |EntryItems(docket, timestamp, actor, from, to)| == to - from
  {
    hide ADCItem;
    if from < to { EntryCount(docket, timestamp, actor, from, to - 1); }
  }

  lemma EntriesTell(docket: seq<Entry>, timestamp: Option<int>, actor: string, from: nat, to: nat)
    requires from <= to <= |docket|
    ensures |EntryItems(docket, timestamp, actor, from, to)| == to - from
    ensures forall j :: 0 <= j < to - from ==> Tells(EntryItems(docket, timestamp, actor, from, to)[j], from + j, docket[from + j].title, timestamp, actor)
  {
    hide Tells, EntryItems;
    EntryCount(docket, timestamp, actor, from, to);
    forall j | 0 <= j < to - from
      ensures Tells(EntryItems(docket, timestamp, actor, from, to)[j], from + j, docket[from + j].title, timestamp, actor)
    {
      EntryTells(docket, timestamp, actor, from, to, from + j);
    }
  }

  /** No docket shown is longer than what has been listed, and each index is listed for the first event to show it. */
  ghost predicate MergedRightly(events: seq<Snapshot>, first: nat, merged: (seq<Item>, nat)) {
    && merged.1 >= first && |merged.0| == merged.1 - first
    && (forall i: nat :: i >= merged.1 ==> NeverShown(events, i))
    && (forall j :: 0 <= j < |merged.0| ==> ShownBy(events, first + j, merged.0[j]))
  }

  lemma ShownStill(events: seq<Snapshot>, i: nat, item: Item)
    requires events != [] && ShownBy(events[..|events| - 1], i, item)
    ensures ShownBy(events, i, item)
  {
    hide ADCID, Tells;
    var before := events[..|events| - 1];
    var k: nat :| FirstShown(before, i, k) && Tells(item, i, before[k].docket.value[i].title, before[k].timestamp, before[k].role);
    assert forall j :: 0 <= j <= k ==> events[j] == before[j];
    assert FirstShown(events, i, k);
  }

  lemma ShownNow(events: seq<Snapshot>, i: nat, item: Item)
    requires events != [] && NeverShown(events[..|events| - 1], i) && Shows(events[|events| - 1], i)
    requires var e := events[|events| - 1]; Tells(item, i, e.docket.value[i].title, e.timestamp, e.role)
    ensures ShownBy(events, i, item)
  {
    hide ADCID, Tells;
    var before := events[..|events| - 1];
    forall j | 0 <= j < |before| ensures !Shows(events[j], i) { assert !Shows(before[j], i); }
    assert FirstShown(events, i, |before|);
  }

  lemma {:induction false} MergedContents(events: seq<Snapshot>, first: nat, n: nat)
    requires n <= |events| && Merged(events, first, n).Success?
    ensures MergedRightly(events[..n], first, Merged(events, first, n).value)
  {
    hide MergedRightly;
    if n > 0 {
      MergedContents(events, first, n - 1);
      OneMoreMerged(events, first, n);
    } else {
      NothingMerged(events, first);
    }
  }

  lemma NothingMerged(events: seq<Snapshot>, first: nat)
    ensures MergedRightly(events[..0], first, ([], first))
  {
  }

  lemma OneMoreMerged(events: seq<Snapshot>, first: nat, n: nat)
    requires 0 < n <= |events| && Merged(events, first, n).Success?
    requires MergedRightly(events[..n - 1], first, Merged(events, first, n - 1).value)
    ensures MergedRightly(events[..n], first, Merged(events, first, n).value)
  {
    hide ADCID, ShownBy, NeverShown, Tells, EntryItems;
    var before, after, e := Merged(events, first, n - 1).value, Merged(events, first, n).value, events[n - 1];
    assert events[..n][..n - 1] == events[..n - 1];
    forall i: nat | i >= after.1 ensures NeverShown(events[..n], i) { NeverShownStill(events, n, i); }
    if e.action != "" && e.docket.Some? { EntriesTell(e.docket.value, e.timestamp, e.role, before.1, |e.docket.value|); }
    forall j | 0 <= j < |after.0| ensures ShownBy(events[..n], first + j, after.0[j]) {
      if j < |before.0| {
        ShownStill(events[..n], first + j, before.0[j]);
      } else {
        ShownNow(events[..n], first + j, after.0[j]);
      }
    }
  }

  lemma NeverShownStill(events: seq<Snapshot>, n: nat, i: nat)
    requires 0 < n <= |events| && NeverShown(events[..n - 1], i) && !Shows(events[n - 1], i)
    ensures NeverShown(events[..n], i)
  {
    forall j | 0 <= j < n ensures !Shows(events[..n][j], i) { if j < n - 1 { assert !Shows(events[..n - 1][j], i); } }
  }

  lemma {:induction false} InitialTell(keys: set<string>, final: seq<Entry>, count: nat, p: nat)
    requires count <= |final| && p < |InitialItems(keys, final, count)|
    ensures InitiallyTold(keys, final, count, InitialItems(keys, final, count)[p])
  {
    hide Decimal;
    if p < |InitialItems(keys, final, count - 1)| { InitialTell(keys, final, count - 1, p); }
  }

  /** The complaint or an attachment that is not listed yet, as the plaintiff's. */
  predicate InitiallyTold(keys: set<string>, final: seq<Entry>, count: nat, item: Item)
    requires count <= |final|
  {
    exists i :: 0 <= i < count && (if i == 0 then "complaint" else "complaint-attachment-" + Decimal(i)) !in keys
                && Tells(item, i, final[i].title, None, "plaintiff")
  }

  /** Initialization entries are the plaintiff's. Every later index has the title, time and role of the first event that
      shows it, or the final state's title if no event does. */
  lemma ADCContents(keys: set<string>, state: Option<seq<Entry>>, initialization: Option<nat>, events: seq<Snapshot>)
    requires ADCItems(keys, state, initialization, events).Success?
    ensures var items, first := ADCItems(keys, state, initialization, events).value, FirstEmitted(state, initialization);
            var final := if state.Some? then state.value else [];
            && first == (if state.Some? && initialization.Some? then 1 + initialization.value else 0)
            && first <= |final| && |InitialItems(keys, final, first)| <= |items|
            && var k := |InitialItems(keys, final, first)|;
            && (forall p :: 0 <= p < k ==> InitiallyTold(keys, final, first, items[p]))
            && forall p :: k <= p < |items| ==> LaterTold(events, final, first + p - k, items[p])
  {
    hide Merged, ShownBy, NeverShown, Tells, InitiallyTold, InitialItems, EntryItems;
    var items, first := ADCItems(keys, state, initialization, events).value, FirstEmitted(state, initialization);
    var final := if state.Some? then state.value else [];
    var initial, merged := InitialItems(keys, final, first), Merged(events, first, |events|).value;
    var k := |initial|;
    forall p | 0 <= p < k ensures InitiallyTold(keys, final, first, items[p]) { InitialTell(keys, final, first, p); }
    MergedContents(events, first, |events|);
    assert events[..|events|] == events;
    if merged.1 < |final| { EntriesTell(final, None, "", merged.1, |final|); }
    forall p | k <= p < |items| ensures LaterTold(events, final, first + p - k, items[p]) {
      if p - k < |merged.0| {
        assert items[p] == merged.0[p - k];
      } else {
        assert NeverShown(events, first + p - k);
      }
    }
  }

  /** The item of an index after the initialization. */
  ghost predicate LaterTold(events: seq<Snapshot>, final: seq<Entry>, i: nat, item: Item) {
    ShownBy(events, i, item) || (NeverShown(events, i) && i < |final| && Tells(item, i, final[i].title, None, ""))
  }

  // ---------- Which snapshots are refused ----------

  predicate Acts(e: Snapshot) {
    e.action != "" && e.docket.Some?
  }

  /** The docket is shorter than the initialization or than one shown earlier. */
  predicate Reduces(events: seq<Snapshot>, first: nat, k: nat)
    requires k < |events|
  {
    Acts(events[k]) && (|events[k].docket.value| < first || ShrinksFrom(events, k))
  }

  predicate ShrinksFrom(events: seq<Snapshot>, k: nat)
    requires k < |events| && Acts(events[k])
  {
    exists j :: 0 <= j < k && Acts(events[j]) && |events[k].docket.value| < |events[j].docket.value|
  }

  /** The number of entries seen is that of the longest docket so far. */
  predicate LongestSeen(events: seq<Snapshot>, first: nat, n: nat, seen: nat)
    requires n <= |events|
  {
    && seen >= first
    && (forall j :: 0 <= j < n && Acts(events[j]) ==> |events[j].docket.value| <= seen)
    && (seen == first || exists j :: 0 <= j < n && Acts(events[j]) && |events[j].docket.value| == seen)
  }

  /** Merging fails exactly at a docket that gets shorter, and names the line of the first one. */
  lemma {:induction false} RefusedExactly(events: seq<Snapshot>, first: nat, n: nat)
    requires n <= |events|
    ensures Merged(events, first, n).Success? <==> forall k :: 0 <= k < n ==> !Reduces(events, first, k)
    ensures Merged(events, first, n).Success? ==> LongestSeen(events, first, n, Merged(events, first, n).value.1)
    ensures Merged(events, first, n).Failure? ==>
      exists k :: 0 <= k < n && Reduces(events, first, k) && (forall j :: 0 <= j < k ==> !Reduces(events, first, j))
                  && Merged(events, first, n).error == DocketReduced(events[k].line)
  {
    hide EntryItems;
    if n > 0 {
      RefusedExactly(events, first, n - 1);
      if Merged(events, first, n - 1).Success? { ReducesNow(events, first, n - 1, Merged(events, first, n - 1).value.1); }
    }
  }

  lemma ReducesNow(events: seq<Snapshot>, first: nat, k: nat, seen: nat)
    requires k < |events| && LongestSeen(events, first, k, seen)
    ensures Reduces(events, first, k) <==> Acts(events[k]) && |events[k].docket.value| < seen
  {
  }

  // ---------- Sorting and numbering ----------

  /** Earlier by time; at the same time, by insertion. */
  predicate Before(a: Item, b: Item) {
    var s, t := if a.timestamp.Some? then a.timestamp.value else 0, if b.timestamp.Some? then b.timestamp.value else 0;
    s < t || (s == t && a.order < b.order)
  }

  predicate InOrder(items: seq<Item>) {
    forall i, j :: 0 <= i < j < |items| ==> !Before(items[j], items[i])
  }

  /** Behind every item that is not later. */
  function Place(items: seq<Item>, item: Item): (p: nat)
    ensures p <= |items|
    ensures p > 0 ==> !Before(item, items[p - 1])
    ensures forall j :: p <= j < |items| ==> Before(item, items[j])
  {
    if items == [] || !Before(item, items[|items| - 1]) then |items| else Place(items[..|items| - 1], item)
  }

  function Inserted(items: seq<Item>, item: Item): seq<Item> {
    var p := Place(items, item);
    items[..p] + [item] + items[p..]
  }

  function ByTime(items: seq<Item>): (r: seq<Item>)
    ensures |r| == |items|
  {
    if items == [] then [] else Inserted(ByTime(items[..|items| - 1]), items[|items| - 1])
  }

  function Numbered(items: seq<Item>): (r: seq<Item>)
    ensures |r| == |items|
  {
    seq(|items|, i requires 0 <= i < |items| => items[i].(sequence := i + 1))
  }

  lemma InsertedAt(items: seq<Item>, item: Item, k: nat)
    requires k <= |items|
    ensures var p := Place(items, item);
            Inserted(items, item)[k] == if k < p then items[k] else if k == p then item else items[k - 1]
  {
  }

  lemma InsertedInOrder(items: seq<Item>, item: Item, i: nat, j: nat)
    requires InOrder(items) && i < j <= |items|
    ensures !Before(Inserted(items, item)[j], Inserted(items, item)[i])
  {
    hide Inserted;
    var p := Place(items, item);
    InsertedAt(items, item, i);
    InsertedAt(items, item, j);
    if j == p && i < p - 1 { assert !Before(items[p - 1], items[i]); }
  }

  lemma {:induction false} ByTimeSorts(items: seq<Item>)
    ensures InOrder(ByTime(items)) && multiset(ByTime(items)) == multiset(items)
  {
    hide Inserted, Before;
    if items != [] {
      var front, last := items[..|items| - 1], items[|items| - 1];
      ByTimeSorts(front);
      var sorted, r := ByTime(front), ByTime(items);
      forall i, j | 0 <= i < j < |r| ensures !Before(r[j], r[i]) { InsertedInOrder(sorted, last, i, j); }
      InsertedKeeps(sorted, last);
      assert items == front + [last];
    }
  }

  lemma InsertedKeeps(items: seq<Item>, item: Item)
    ensures multiset(Inserted(items, item)) == multiset(items) + multiset{item}
  {
    var p := Place(items, item);
    assert items == items[..p] + items[p..];
  }

  /** The finished docket is a permutation of the items, in order of time and then insertion, numbered from 1. */
  lemma FinishedDocket(items: seq<Item>)
    ensures var r := Numbered(ByTime(items));
            && InOrder(r)
            && (forall i :: 0 <= i < |r| ==> r[i].sequence == i + 1 && r[i] == ByTime(items)[i].(sequence := i + 1))
            && multiset(ByTime(items)) == multiset(items)
            && (forall i, j :: 0 <= i < j < |r| && r[i].timestamp.Some? && r[j].timestamp.Some? ==>
                 && r[i].timestamp.value <= r[j].timestamp.value
                 && (r[i].timestamp.value == r[j].timestamp.value ==> r[i].order <= r[j].order))
  {
    hide ByTime;
    ByTimeSorts(items);
    var sorted, r := ByTime(items), Numbered(ByTime(items));
    forall i, j | 0 <= i < j < |r|
      ensures !Before(r[j], r[i])
      ensures r[i].timestamp.Some? && r[j].timestamp.Some? ==>
        && r[i].timestamp.value <= r[j].timestamp.value
        && (r[i].timestamp.value == r[j].timestamp.value ==> r[i].order <= r[j].order)
    {
      assert !Before(sorted[j], sorted[i]);
    }
  }
}
