/**
 Partitioning model variants over evaluation processes (model-pool/tools/run_end_to_end.py).

 Variants are grouped by model, and the groups are dealt out largest first, each to the first of the
 currently shortest partitions.
 */
module Partition {
  import opened Results
  import opened Scheduling

  datatype Variant = Variant(modelId: string, variantId: string)

  datatype Error = MinimumOfNoPartitions

  // ---------- Groups ----------

  /** The variants of one model, in order. */
  function OfModel(vs: seq<Variant>, id: string): seq<Variant> {
    if vs == [] then [] else
      var v := vs[|vs| - 1];
      OfModel(vs[..|vs| - 1], id) + if v.modelId == id then [v] else []
  }

  /** The model identifiers in order of first appearance: the keys of the dictionary of groups. */
  function ModelOrder(vs: seq<Variant>): seq<string> {
    if vs == [] then [] else
      var before, id := ModelOrder(vs[..|vs| - 1]), vs[|vs| - 1].modelId;
      if id in before then before else before + [id]
  }

  predicate Occurs(vs: seq<Variant>, id: string) {
    exists i :: 0 <= i < |vs| && vs[i].modelId == id
  }

  lemma {:induction false} ModelOrderLists(vs: seq<Variant>)
    ensures Distinct(ModelOrder(vs)) && forall id :: id in ModelOrder(vs) <==> Occurs(vs, id)
  {
    if vs != [] {
      ModelOrderLists(vs[..|vs| - 1]);
      forall id ensures id in ModelOrder(vs) <==> Occurs(vs, id) {
        assert id in ModelOrder(vs[..|vs| - 1]) <==> Occurs(vs[..|vs| - 1], id);
        assert Occurs(vs, id) <==> Occurs(vs[..|vs| - 1], id) || vs[|vs| - 1].modelId == id;
      }
    }
  }

  predicate Distinct(ids: seq<string>) {
    forall i, j :: 0 <= i < j < |ids| ==> ids[i] != ids[j]
  }

  function Size(vs: seq<Variant>, id: string): nat {
    |OfModel(vs, id)|
  }

  function Sizes(vs: seq<Variant>, ids: seq<string>): (r: seq<nat>)
    ensures |r| == |ids|
  {
    seq(|ids|, j requires 0 <= j < |ids| => Size(vs, ids[j]))
  }

  // ---------- The stable sort by descending size ----------

  /** Behind every group that is at least as large. */
  function InsertionPoint(vs: seq<Variant>, ids: seq<string>, id: string): (i: nat)
    ensures i <= |ids|
    ensures i > 0 ==> Size(vs, ids[i - 1]) >= Size(vs, id)
    ensures forall j :: i <= j < |ids| ==> Size(vs, ids[j]) < Size(vs, id)
  {
    if ids == [] || Size(vs, ids[|ids| - 1]) >= Size(vs, id) then |ids|
    else InsertionPoint(vs, ids[..|ids| - 1], id)
  }

  function Insert(vs: seq<Variant>, ids: seq<string>, id: string): seq<string> {
    var i := InsertionPoint(vs, ids, id);
    ids[..i] + [id] + ids[i..]
  }

  predicate Descending(vs: seq<Variant>, ids: seq<string>) {
    forall i, j :: 0 <= i < j < |ids| ==> Size(vs, ids[i]) >= Size(vs, ids[j])
  }

  lemma Inserted(ids: seq<string>, p: nat, id: string, k: nat)
    requires p <= |ids| && k <= |ids|
    ensures (ids[..p] + [id] + ids[p..])[k] == if k < p then ids[k] else if k == p then id else ids[k - 1]
  {
  }

  lemma InsertSorts(vs: seq<Variant>, ids: seq<string>, id: string)
    requires Descending(vs, ids)
    ensures Descending(vs, Insert(vs, ids, id))
  {
    var r := Insert(vs, ids, id);
    forall i, j | 0 <= i < j < |r| ensures Size(vs, r[i]) >= Size(vs, r[j]) {
      InsertedInOrder(vs, ids, id, i, j);
    }
  }

  lemma InsertedInOrder(vs: seq<Variant>, ids: seq<string>, id: string, i: nat, j: nat)
    requires Descending(vs, ids) && i < j <= |ids|
    ensures Size(vs, Insert(vs, ids, id)[i]) >= Size(vs, Insert(vs, ids, id)[j])
  {
    hide Size;
    var p := InsertionPoint(vs, ids, id);
    Inserted(ids, p, id, i);
    Inserted(ids, p, id, j);
    if j == p && i < p - 1 { assert Size(vs, ids[i]) >= Size(vs, ids[p - 1]); }
  }

  lemma InsertKeeps(vs: seq<Variant>, ids: seq<string>, id: string)
    ensures multiset(Insert(vs, ids, id)) == multiset(ids) + multiset{id}
  {
    hide InsertionPoint, Size;
    var i := InsertionPoint(vs, ids, id);
    MultisetInsert(ids, i, id);
  }

  lemma MultisetInsert(ids: seq<string>, i: nat, id: string)
    requires i <= |ids|
    ensures multiset(ids[..i] + [id] + ids[i..]) == multiset(ids) + multiset{id}
  {
    assert ids == ids[..i] + ids[i..];
  }

  function Sorted(vs: seq<Variant>, ids: seq<string>): seq<string> {
    if ids == [] then [] else Insert(vs, Sorted(vs, ids[..|ids| - 1]), ids[|ids| - 1])
  }

  lemma NothingToSort(vs: seq<Variant>)
    ensures Descending(vs, [])
  {
  }

  /** The result is a permutation in descending order of size. */
  lemma {:induction false} SortedSorts(vs: seq<Variant>, ids: seq<string>)
    ensures Descending(vs, Sorted(vs, ids)) && multiset(Sorted(vs, ids)) == multiset(ids)
  {
    hide Insert, Descending, Size;
    if ids == [] {
      NothingToSort(vs);
    } else {
      var front, id := ids[..|ids| - 1], ids[|ids| - 1];
      SortedSorts(vs, front);
      InsertSorts(vs, Sorted(vs, front), id);
      InsertKeeps(vs, Sorted(vs, front), id);
      assert ids == front + [id];
    }
  }

  /** The identifiers whose groups have a given size. */
  function OfSize(vs: seq<Variant>, ids: seq<string>, n: nat): seq<string> {
    if ids == [] then [] else
      OfSize(vs, ids[..|ids| - 1], n) + if Size(vs, ids[|ids| - 1]) == n then [ids[|ids| - 1]] else []
  }

  lemma {:induction false} NoneOfSize(vs: seq<Variant>, ids: seq<string>, n: nat)
    requires forall j :: 0 <= j < |ids| ==> Size(vs, ids[j]) != n
    ensures OfSize(vs, ids, n) == []
  {
    if ids != [] { NoneOfSize(vs, ids[..|ids| - 1], n); }
  }

  lemma {:induction false} OfSizeJoin(vs: seq<Variant>, s: seq<string>, t: seq<string>, n: nat)
    ensures OfSize(vs, s + t, n) == OfSize(vs, s, n) + OfSize(vs, t, n)
  {
    if t == [] {
      assert s + t == s;
    } else {
      assert (s + t)[..|s + t| - 1] == s + t[..|t| - 1];
      OfSizeJoin(vs, s, t[..|t| - 1], n);
    }
  }

  lemma InsertStable(vs: seq<Variant>, ids: seq<string>, id: string, n: nat)
    ensures OfSize(vs, Insert(vs, ids, id), n) == OfSize(vs, ids, n) + OfSize(vs, [id], n)
  {
    hide Size, InsertionPoint, OfSize;
    var i := InsertionPoint(vs, ids, id);
    var front, back := ids[..i], ids[i..];
    assert ids == front + back;
    OfSizeJoin(vs, front + [id], back, n);
    OfSizeJoin(vs, front, [id], n);
    OfSizeJoin(vs, front, back, n);
    if n == Size(vs, id) {
      NoneOfSize(vs, back, n);
    } else {
      NoneOfSize(vs, [id], n);
    }
  }

  lemma OfSizeLast(vs: seq<Variant>, ids: seq<string>, n: nat)
    requires ids != []
    ensures OfSize(vs, ids, n) == OfSize(vs, ids[..|ids| - 1], n) + OfSize(vs, [ids[|ids| - 1]], n)
  {
    assert ids == ids[..|ids| - 1] + [ids[|ids| - 1]];
    OfSizeJoin(vs, ids[..|ids| - 1], [ids[|ids| - 1]], n);
  }

  /** Groups of equal size stay in the order in which their models first appeared. */
  lemma {:induction false} SortedStable(vs: seq<Variant>, ids: seq<string>, n: nat)
    ensures OfSize(vs, Sorted(vs, ids), n) == OfSize(vs, ids, n)
  {
    hide Size, Insert;
    if ids != [] {
      SortedStable(vs, ids[..|ids| - 1], n);
      InsertStable(vs, Sorted(vs, ids[..|ids| - 1]), ids[|ids| - 1], n);
      OfSizeLast(vs, ids, n);
    }
  }

  /** The order in which the groups are dealt out. */
  function Queue(vs: seq<Variant>): seq<string> {
    Sorted(vs, ModelOrder(vs))
  }

  lemma InMultiset(s: seq<string>, t: seq<string>)
    requires multiset(s) == multiset(t)
    ensures forall x :: x in s <==> x in t
  {
    forall x ensures x in s <==> x in t {
      assert x in s <==> x in multiset(s);
      assert x in t <==> x in multiset(t);
    }
  }

  lemma DistinctOnce(ids: seq<string>, i: nat, j: nat)
    requires i < j < |ids| && ids[i] == ids[j]
    ensures multiset(ids)[ids[i]] >= 2
  {
    assert ids == ids[..i] + [ids[i]] + ids[i + 1..j] + [ids[j]] + ids[j + 1..];
  }

  lemma {:induction false} OnceEach(ids: seq<string>, x: string)
    requires Distinct(ids)
    ensures multiset(ids)[x] <= 1
  {
    if ids != [] {
      var front := ids[..|ids| - 1];
      assert ids == front + [ids[|ids| - 1]];
      OnceEach(front, x);
    }
  }

  /** The queue holds every model of the input exactly once. */
  lemma QueueHoldsEachModelOnce(vs: seq<Variant>)
    ensures Distinct(Queue(vs))
    ensures |Queue(vs)| == |ModelOrder(vs)| && forall id :: id in Queue(vs) <==> id in ModelOrder(vs)
    ensures forall id :: id in Queue(vs) <==> Occurs(vs, id)
    ensures Positive(Sizes(vs, Queue(vs))) && LargestFirst(Sizes(vs, Queue(vs)))
  {
    var q, ids := Queue(vs), ModelOrder(vs);
    ModelOrderLists(vs);
    SortedSorts(vs, ids);
    InMultiset(q, ids);
    assert |q| == |multiset(q)| == |multiset(ids)|;
    forall i, j | 0 <= i < j < |q| ensures q[i] != q[j] {
      if q[i] == q[j] {
        DistinctOnce(q, i, j);
        OnceEach(ids, q[i]);
      }
    }
    forall j | 0 <= j < |q| ensures Sizes(vs, q)[j] > 0 {
      assert q[j] in q;
      var i :| 0 <= i < |vs| && vs[i].modelId == q[j];
      MemberOfModel(vs, vs[i]);
    }
  }

  lemma {:induction false} MemberOfModel(vs: seq<Variant>, v: Variant)
    ensures v in OfModel(vs, v.modelId) <==> v in vs
  {
    if vs != [] {
      assert vs == vs[..|vs| - 1] + [vs[|vs| - 1]];
      MemberOfModel(vs[..|vs| - 1], v);
    }
  }

  // ---------- Dealing the groups out ----------

  /** The first of the shortest partitions, which Python's min by length returns. */
  function Shortest(parts: seq<seq<Variant>>): (p: nat)
    requires parts != []
    ensures p < |parts|
  {
    if |parts| == 1 then 0 else
      var p := Shortest(parts[..|parts| - 1]);
      if |parts[|parts| - 1]| < |parts[p]| then |parts| - 1 else p
  }

  /** No partition is shorter, and no earlier one is as short. */
  lemma {:induction false} ShortestIsFirst(parts: seq<seq<Variant>>, q: nat)
    requires q < |parts|
    ensures |parts[Shortest(parts)]| <= |parts[q]|
    ensures q < Shortest(parts) ==> |parts[Shortest(parts)]| < |parts[q]|
  {
    if |parts| > 1 && q < |parts| - 1 { ShortestIsFirst(parts[..|parts| - 1], q); }
  }

  /** m partitions after the first k groups of the queue. */
  function Dealt(vs: seq<Variant>, queue: seq<string>, m: nat, k: nat): (r: seq<seq<Variant>>)
    requires k <= |queue| && m > 0
    ensures |r| == m
  {
    if k == 0 then seq(m, p => []) else
      var parts := Dealt(vs, queue, m, k - 1);
      var p := Shortest(parts);
      parts[p := parts[p] + OfModel(vs, queue[k - 1])]
  }

  /** The partition that each of the first k groups goes to. */
  function Homes(vs: seq<Variant>, queue: seq<string>, m: nat, k: nat): (r: seq<nat>)
    requires k <= |queue| && m > 0
    ensures |r| == k
  {
    if k == 0 then [] else Homes(vs, queue, m, k - 1) + [Shortest(Dealt(vs, queue, m, k - 1))]
  }

  lemma {:induction false} HomeOf(vs: seq<Variant>, queue: seq<string>, m: nat, k: nat, j: nat)
    requires j < k <= |queue| && m > 0
    ensures Homes(vs, queue, m, k)[j] == Shortest(Dealt(vs, queue, m, j)) < m
  {
    if j < k - 1 { HomeOf(vs, queue, m, k - 1, j); }
  }

  /** As many partitions as processes, but no more than models. */
  function Width(vs: seq<Variant>, processCount: int): int {
    if processCount < |ModelOrder(vs)| then processCount else |ModelOrder(vs)|
  }

  function Partitions(vs: seq<Variant>, processCount: int): seq<seq<Variant>>
    requires vs != [] && processCount > 0
  {
    WidthPositive(vs, processCount);
    Dealt(vs, Queue(vs), Width(vs, processCount), |Queue(vs)|)
  }

  lemma WidthPositive(vs: seq<Variant>, processCount: int)
    requires vs != [] && processCount > 0
    ensures 0 < Width(vs, processCount) <= processCount
  {
    ModelOrderLists(vs);
    assert Occurs(vs, vs[0].modelId);
  }

  // ---------- The procedure ----------

  /** The groups dictionary: its keys in insertion order, and the list under each key. */
  method GroupByModel(variants: seq<Variant>) returns (keys: seq<string>, groups: map<string, seq<Variant>>)
    ensures keys == ModelOrder(variants)
    ensures groups.Keys == (set id | id in keys) && forall id :: id in groups ==> groups[id] == OfModel(variants, id)
  {
    keys, groups := [], map[];
    for i := 0 to |variants|
      invariant keys == ModelOrder(variants[..i])
      invariant groups.Keys == set id | id in keys
      invariant forall id :: id in groups ==> groups[id] == OfModel(variants[..i], id)
    {
      var v := variants[i];
      var before := variants[..i];
      assert variants[..i + 1][..i] == before;
      if v.modelId !in groups {
        Absent(before, v.modelId);
        keys, groups := keys + [v.modelId], groups[v.modelId := []];
      }
      groups := groups[v.modelId := groups[v.modelId] + [v]];
    }
    assert variants[..|variants|] == variants;
  }

  lemma {:induction false} Absent(vs: seq<Variant>, id: string)
    requires id !in ModelOrder(vs)
    ensures OfModel(vs, id) == []
  {
    if vs != [] {
      assert vs == vs[..|vs| - 1] + [vs[|vs| - 1]];
      Absent(vs[..|vs| - 1], id);
    }
  }

  method FirstShortest(parts: seq<seq<Variant>>) returns (p: nat)
    requires parts != []
    ensures p == Shortest(parts)
  {
    p := 0;
    for q := 1 to |parts|
      invariant p == Shortest(parts[..q])
    {
      assert parts[..q + 1][..q] == parts[..q];
      if |parts[q]| < |parts[p]| { p := q; }
    }
    assert parts[..|parts|] == parts;
  }

  method Deal(ghost variants: seq<Variant>, queue: seq<string>, groups: map<string, seq<Variant>>, m: nat)
    returns (parts: seq<seq<Variant>>)
    requires m > 0 && forall id :: id in queue ==> id in groups && groups[id] == OfModel(variants, id)
    ensures parts == Dealt(variants, queue, m, |queue|)
  {
    parts := seq(m, p => []);
    for k := 0 to |queue|
      invariant parts == Dealt(variants, queue, m, k)
    {
      var p := FirstShortest(parts);
      assert queue[k] in queue;
      parts := parts[p := parts[p] + groups[queue[k]]];
    }
  }

  method PartitionVariantsByModel(variants: seq<Variant>, processCount: int) returns (r: Result<seq<seq<Variant>>, Error>)
    ensures variants == [] ==> r == Success([])
    ensures variants != [] && processCount <= 0 ==> r == Failure(MinimumOfNoPartitions)
    ensures variants != [] && processCount > 0 ==> r == Success(Partitions(variants, processCount))
  {
    var keys, groups := GroupByModel(variants);
    var m := if processCount < |keys| then processCount else |keys|;
    var queue := Sorted(variants, keys);
    QueueHoldsEachModelOnce(variants);
    if variants != [] { WidthPositive(variants, |keys|); }
    ModelOrderLists(variants);
    // With no group the minimum is never taken; with a group and no partition it raises ValueError.
    if queue == [] { return Success([]); }
    if m <= 0 { return Failure(MinimumOfNoPartitions); }
    var parts := Deal(variants, queue, groups, m);
    return Success(parts);
  }

  // ---------- Models are kept together and nothing is lost ----------

  lemma {:induction false} OfModelJoin(s: seq<Variant>, t: seq<Variant>, id: string)
    ensures OfModel(s + t, id) == OfModel(s, id) + OfModel(t, id)
  {
    if t == [] {
      assert s + t == s;
    } else {
      var front := t[..|t| - 1];
      assert (s + t)[..|s + t| - 1] == s + front;
      OfModelJoin(s, front, id);
    }
  }

  lemma {:induction false} OfModelTwice(s: seq<Variant>, id: string, other: string)
    ensures OfModel(OfModel(s, id), other) == if other == id then OfModel(s, id) else []
  {
    if s != [] {
      var v := s[|s| - 1];
      var front := OfModel(s[..|s| - 1], id);
      OfModelTwice(s[..|s| - 1], id, other);
      OfModelJoin(front, if v.modelId == id then [v] else [], other);
      assert OfModel([v], other) == if v.modelId == other then [v] else [];
    }
  }

  lemma DealtNothing(vs: seq<Variant>, queue: seq<string>, m: nat, id: string, p: nat)
    requires p < m
    ensures OfModel(Dealt(vs, queue, m, 0)[p], id) == []
  {
    assert Dealt(vs, queue, m, 0)[p] == [];
  }

  /** A partition after one more group. */
  lemma DealtStep(vs: seq<Variant>, queue: seq<string>, m: nat, k: nat, id: string, p: nat)
    requires 0 < k <= |queue| && m > 0 && p < m
    ensures OfModel(Dealt(vs, queue, m, k)[p], id) == OfModel(Dealt(vs, queue, m, k - 1)[p], id)
      + if id == queue[k - 1] && p == Shortest(Dealt(vs, queue, m, k - 1)) then OfModel(vs, id) else []
  {
    OfModelJoin(Dealt(vs, queue, m, k - 1)[p], OfModel(vs, queue[k - 1]), id);
    OfModelTwice(vs, queue[k - 1], id);
  }

  /** After k groups, the variants of the model of group j are all in that group's home, or nowhere yet. */
  lemma {:induction false} DealtTogether(vs: seq<Variant>, queue: seq<string>, m: nat, k: nat, j: nat, p: nat)
    requires k <= |queue| && j < |queue| && m > 0 && p < m && Distinct(queue)
    ensures OfModel(Dealt(vs, queue, m, k)[p], queue[j])
         == if j < k && p == Shortest(Dealt(vs, queue, m, j)) then OfModel(vs, queue[j]) else []
  {
    hide OfModel, Dealt, Shortest;
    if k == 0 {
      DealtNothing(vs, queue, m, queue[j], p);
    } else {
      DealtTogether(vs, queue, m, k - 1, j, p);
      DealtStep(vs, queue, m, k, queue[j], p);
    }
  }

  lemma {:induction false} DealtForeign(vs: seq<Variant>, queue: seq<string>, m: nat, k: nat, id: string, p: nat)
    requires k <= |queue| && m > 0 && p < m && id !in queue
    ensures OfModel(Dealt(vs, queue, m, k)[p], id) == []
  {
    hide OfModel, Dealt, Shortest;
    if k == 0 {
      DealtNothing(vs, queue, m, id, p);
    } else {
      DealtForeign(vs, queue, m, k - 1, id, p);
      DealtStep(vs, queue, m, k, id, p);
    }
  }

  /** Partition p has all variants of a model in their order, and no other partition has any of them. */
  predicate Together(vs: seq<Variant>, parts: seq<seq<Variant>>, id: string, p: nat) {
    && p < |parts|
    && OfModel(parts[p], id) == OfModel(vs, id)
    && forall q :: 0 <= q < |parts| && q != p ==> OfModel(parts[q], id) == []
  }

  /** Every model's variants end up in one partition, in order, whether or not the model occurs. */
  lemma ModelsKeptTogether(vs: seq<Variant>, processCount: int, id: string) returns (p: nat)
    requires vs != [] && processCount > 0
    ensures Together(vs, Partitions(vs, processCount), id, p)
  {
    WidthPositive(vs, processCount);
    QueueHoldsEachModelOnce(vs);
    var queue, m := Queue(vs), Width(vs, processCount);
    var n := |queue|;
    if id in queue {
      var j :| 0 <= j < n && queue[j] == id;
      p := Shortest(Dealt(vs, queue, m, j));
      forall q | 0 <= q < m ensures OfModel(Dealt(vs, queue, m, n)[q], id) == if q == p then OfModel(vs, id) else [] {
        DealtTogether(vs, queue, m, n, j, q);
      }
    } else {
      p := 0;
      Absent(vs, id);
      forall q | 0 <= q < m ensures OfModel(Dealt(vs, queue, m, n)[q], id) == [] {
        DealtForeign(vs, queue, m, n, id, q);
      }
    }
  }

  function Flatten(parts: seq<seq<Variant>>): seq<Variant> {
    if parts == [] then [] else Flatten(parts[..|parts| - 1]) + parts[|parts| - 1]
  }

  lemma {:induction false} FlattenTogether(vs: seq<Variant>, parts: seq<seq<Variant>>, id: string, p: nat)
    requires Together(vs, parts, id, p) || (forall q :: 0 <= q < |parts| ==> OfModel(parts[q], id) == [])
    ensures OfModel(Flatten(parts), id) == if Together(vs, parts, id, p) then OfModel(vs, id) else []
  {
    if parts != [] {
      var last := |parts| - 1;
      OfModelJoin(Flatten(parts[..last]), parts[last], id);
      if Together(vs, parts, id, p) && p < last { assert Together(vs, parts[..last], id, p); }
      FlattenTogether(vs, parts[..last], id, p);
    }
  }

  lemma {:induction false} CountInModel(s: seq<Variant>, v: Variant)
    ensures multiset(OfModel(s, v.modelId))[v] == multiset(s)[v]
  {
    if s != [] {
      assert s == s[..|s| - 1] + [s[|s| - 1]];
      CountInModel(s[..|s| - 1], v);
    }
  }

  /** The partitions together hold exactly the input variants, each as often as it occurs. */
  lemma PartitionsConserve(vs: seq<Variant>, processCount: int)
    requires vs != [] && processCount > 0
    ensures multiset(Flatten(Partitions(vs, processCount))) == multiset(vs)
  {
    var parts := Partitions(vs, processCount);
    var all := Flatten(parts);
    forall v: Variant ensures multiset(all)[v] == multiset(vs)[v] {
      var p := ModelsKeptTogether(vs, processCount, v.modelId);
      FlattenTogether(vs, parts, v.modelId, p);
      CountInModel(all, v);
      CountInModel(vs, v);
    }
  }

  // ---------- Balance ----------

  /** The length of a partition is the load that its groups put on it. */
  lemma {:induction false} DealtLoad(vs: seq<Variant>, queue: seq<string>, m: nat, k: nat, p: nat)
    requires k <= |queue| && m > 0 && p < m
    ensures |Dealt(vs, queue, m, k)[p]| == Load(Sizes(vs, queue), Homes(vs, queue, m, k), p, k)
  {
    hide Dealt, Homes, Load, Sizes, Shortest;
    if k == 0 {
      NothingDealt(vs, queue, m, p);
    } else {
      DealtLoad(vs, queue, m, k - 1, p);
      OneMoreDealt(vs, queue, m, k - 1, p);
      LoadAppend(Sizes(vs, queue), Homes(vs, queue, m, k - 1), Shortest(Dealt(vs, queue, m, k - 1)), p);
    }
  }

  lemma NothingDealt(vs: seq<Variant>, queue: seq<string>, m: nat, p: nat)
    requires p < m
    ensures Dealt(vs, queue, m, 0)[p] == [] && Load(Sizes(vs, queue), Homes(vs, queue, m, 0), p, 0) == 0
  {
  }

  lemma OneMoreDealt(vs: seq<Variant>, queue: seq<string>, m: nat, k: nat, p: nat)
    requires k < |queue| && p < m
    ensures var home := Shortest(Dealt(vs, queue, m, k));
            && Homes(vs, queue, m, k + 1) == Homes(vs, queue, m, k) + [home]
            && |Dealt(vs, queue, m, k + 1)[p]| == |Dealt(vs, queue, m, k)[p]| + if home == p then Sizes(vs, queue)[k] else 0
  {
    hide Shortest, OfModel;
  }

  lemma {:induction false} HomesPrefix(vs: seq<Variant>, queue: seq<string>, m: nat, k: nat, n: nat)
    requires k <= n <= |queue| && m > 0
    ensures Homes(vs, queue, m, n)[..k] == Homes(vs, queue, m, k)
  {
    if k < n { HomesPrefix(vs, queue, m, k, n - 1); }
  }

  lemma DealtGreedily(vs: seq<Variant>, queue: seq<string>, m: nat)
    requires m > 0
    ensures Greedy(Sizes(vs, queue), Homes(vs, queue, m, |queue|), m)
  {
    var n := |queue|;
    var sizes, homes := Sizes(vs, queue), Homes(vs, queue, m, n);
    forall j | 0 <= j < n ensures homes[j] < m && LeastLoaded(sizes, homes, m, j) {
      HomeOf(vs, queue, m, n, j);
      HomesPrefix(vs, queue, m, j, n);
      forall p | 0 <= p < m ensures Load(sizes, homes, homes[j], j) <= Load(sizes, homes, p, j) {
        DealtLoad(vs, queue, m, j, p);
        DealtLoad(vs, queue, m, j, homes[j]);
        LoadOfPrefix(sizes, Homes(vs, queue, m, j), homes, p, j);
        LoadOfPrefix(sizes, Homes(vs, queue, m, j), homes, homes[j], j);
        ShortestIsFirst(Dealt(vs, queue, m, j), p);
      }
    }
  }

  /** What the balance theorems need to know of the partitions, in terms of schedules. */
  lemma Scheduled(vs: seq<Variant>, processCount: int) returns (sizes: seq<nat>, homes: seq<nat>, m: nat)
    requires vs != [] && processCount > 0
    ensures m == Width(vs, processCount) == |Partitions(vs, processCount)| && 0 < m <= |sizes|
    ensures sizes == Sizes(vs, Queue(vs)) && Positive(sizes) && LargestFirst(sizes) && Greedy(sizes, homes, m)
    ensures forall p :: 0 <= p < m ==> |Partitions(vs, processCount)[p]| == Load(sizes, homes, p, |sizes|)
  {
    WidthPositive(vs, processCount);
    QueueHoldsEachModelOnce(vs);
    var queue := Queue(vs);
    m := Width(vs, processCount);
    sizes, homes := Sizes(vs, queue), Homes(vs, queue, m, |queue|);
    DealtGreedily(vs, queue, m);
    forall p | 0 <= p < m ensures |Partitions(vs, processCount)[p]| == Load(sizes, homes, p, |sizes|) {
      DealtLoad(vs, queue, m, |queue|, p);
    }
  }

  /** No process is started for an empty partition. */
  lemma NoPartitionEmpty(vs: seq<Variant>, processCount: int, p: nat)
    requires vs != [] && processCount > 0 && p < |Partitions(vs, processCount)|
    ensures Partitions(vs, processCount)[p] != []
  {
    var sizes, homes, m := Scheduled(vs, processCount);
    NoMachineEmpty(sizes, homes, m, p);
  }

  /** Any two partitions differ in length by at most the number of variants of the largest model. */
  lemma PartitionsClose(vs: seq<Variant>, processCount: int, p: nat, q: nat)
    requires vs != [] && processCount > 0 && p < |Partitions(vs, processCount)| && q < |Partitions(vs, processCount)|
    ensures exists largest ::
      |Partitions(vs, processCount)[p]| <= |Partitions(vs, processCount)[q]| + Size(vs, largest)
  {
    var sizes, homes, m := Scheduled(vs, processCount);
    LoadsClose(sizes, homes, m, p, q);
    assert sizes[0] == Size(vs, Queue(vs)[0]);
  }

  // ---------- Against every other way of keeping models together ----------

  /** The number of variants whose model a given placement sends to process q. */
  function PlacedOn(vs: seq<Variant>, placement: string -> nat, q: nat): nat {
    if vs == [] then 0 else
      PlacedOn(vs[..|vs| - 1], placement, q) + if placement(vs[|vs| - 1].modelId) == q then 1 else 0
  }

  function Placed(ids: seq<string>, placement: string -> nat): (r: seq<nat>)
    ensures |r| == |ids|
  {
    seq(|ids|, j requires 0 <= j < |ids| => placement(ids[j]))
  }

  /** One more variant of a listed model adds one to the load of that model's process. */
  lemma {:induction false} OneMoreVariant(vs: seq<Variant>, v: Variant, ids: seq<string>, placement: string -> nat, q: nat, k: nat)
    requires Distinct(ids) && k <= |ids|
    ensures Load(Sizes(vs + [v], ids), Placed(ids, placement), q, k)
         == Load(Sizes(vs, ids), Placed(ids, placement), q, k)
            + if v.modelId in ids[..k] && placement(v.modelId) == q then 1 else 0
  {
    if k > 0 {
      OneMoreVariant(vs, v, ids, placement, q, k - 1);
      assert (vs + [v])[..|vs + [v]| - 1] == vs;
      assert ids[..k] == ids[..k - 1] + [ids[k - 1]];
      assert ids[k - 1] !in ids[..k - 1];
    }
  }

  lemma {:induction false} NoVariants(ids: seq<string>, placement: string -> nat, q: nat, k: nat)
    requires k <= |ids|
    ensures Load(Sizes([], ids), Placed(ids, placement), q, k) == 0
  {
    if k > 0 { NoVariants(ids, placement, q, k - 1); }
  }

  lemma {:induction false} PlacedLoad(vs: seq<Variant>, ids: seq<string>, placement: string -> nat, q: nat)
    requires Distinct(ids) && forall i :: 0 <= i < |vs| ==> vs[i].modelId in ids
    ensures Load(Sizes(vs, ids), Placed(ids, placement), q, |ids|) == PlacedOn(vs, placement, q)
  {
    if vs == [] {
      NoVariants(ids, placement, q, |ids|);
    } else {
      var front, v := vs[..|vs| - 1], vs[|vs| - 1];
      assert vs == front + [v];
      PlacedLoad(front, ids, placement, q);
      OneMoreVariant(front, v, ids, placement, q, |ids|);
      assert ids[..|ids|] == ids;
    }
  }

  /** The placement keeps every process below the bound. */
  predicate PlacedWithin(vs: seq<Variant>, placement: string -> nat, processCount: nat, opt: nat) {
    && (forall i :: 0 <= i < |vs| ==> placement(vs[i].modelId) < processCount)
    && (forall q :: 0 <= q < processCount ==> PlacedOn(vs, placement, q) <= opt)
  }

  /** The longest partition is within 4/3 - 1/(3m) of the best placement that keeps models together. */
  lemma PartitionBound(vs: seq<Variant>, processCount: nat, placement: string -> nat, opt: nat, p: nat)
    requires vs != [] && processCount > 0 && p < |Partitions(vs, processCount)|
    requires PlacedWithin(vs, placement, processCount, opt)
    ensures WithinBound(|Partitions(vs, processCount)|, |Partitions(vs, processCount)[p]|, opt)
  {
    var sizes, homes, m := Scheduled(vs, processCount);
    hide Dealt, Homes, Partitions, Sizes, OfModel, ModelOrder, Sorted, PlacedOn, WithinBound;
    QueueHoldsEachModelOnce(vs);
    var queue := Queue(vs);
    var placed := Placed(queue, placement);
    PlacementWithin(vs, processCount, placement, opt);
    assert |sizes| == |ModelOrder(vs)|;
    BoundAtAnyWidth(sizes, homes, placed, m, processCount, p, opt);
  }

  lemma PlacementWithin(vs: seq<Variant>, processCount: nat, placement: string -> nat, opt: nat)
    requires PlacedWithin(vs, placement, processCount, opt)
    ensures IsAssignment(Sizes(vs, Queue(vs)), Placed(Queue(vs), placement), processCount)
    ensures Within(Sizes(vs, Queue(vs)), Placed(Queue(vs), placement), processCount, opt)
  {
    var queue := Queue(vs);
    QueueHoldsEachModelOnce(vs);
    forall j | 0 <= j < |queue| ensures placement(queue[j]) < processCount {
      assert queue[j] in queue;
    }
    forall q | 0 <= q < processCount ensures Load(Sizes(vs, queue), Placed(queue, placement), q, |queue|) <= opt {
      PlacedLoad(vs, queue, placement, q);
    }
  }
}
