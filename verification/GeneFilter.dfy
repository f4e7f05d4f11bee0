/** Filtering model configurations by their gene runs (filter_gene_records in model-pool/tools/run_end_to_end.py). */
module GeneFilter {
  import opened Results

  datatype Variant = Variant(index: int, endpointID: string)

  /** `embedding` is the length of the embedding, 0 when there is none. */
  datatype Record = Record(index: int, sampleIndex: int, status: string, embedding: nat, endpointID: string)

  datatype GeneRun = GeneRun(geneIndex: int, gene: string, recordsWritten: int, records: seq<Record>)

  datatype Error = DuplicateIndexes | NoGeneRuns | WrittenMismatch(gene: int) | RowsMismatch(gene: int) | UnknownIndex(gene: int, index: int)
    | NoneEligible

  predicate Usable(r: Record) {
    r.status == "ok" && r.embedding > 0
  }

  // ---------- What survives ----------

  /** The records of one configuration, in order. */
  function SamplesOf(records: seq<Record>, index: int): seq<Record> {
    if records == [] then [] else
      SamplesOf(records[..|records| - 1], index) + if records[|records| - 1].index == index then [records[|records| - 1]] else []
  }

  function SampleIndexes(records: seq<Record>): set<int> {
    set r | r in records :: r.sampleIndex
  }

  function UpTo(n: nat): (r: set<int>)
    ensures |r| == n && forall i :: i in r <==> 1 <= i <= n
  {
    if n == 0 then {} else UpTo(n - 1) + {n}
  }

  /** Exactly the samples 1 to n, all usable. */
  predicate Complete(n: nat, records: seq<Record>, index: int) {
    var samples := SamplesOf(records, index);
    |samples| == n && SampleIndexes(samples) == UpTo(n) && forall r :: r in samples ==> Usable(r)
  }

  predicate Survives(n: nat, runs: seq<GeneRun>, index: int) {
    forall g :: 0 <= g < |runs| ==> Complete(n, runs[g].records, index)
  }

  predicate DistinctIndexes(variants: seq<Variant>) {
    forall i, j :: 0 <= i < j < |variants| ==> variants[i].index != variants[j].index
  }

  function Indexes(variants: seq<Variant>): set<int> {
    set v | v in variants :: v.index
  }

  predicate RunFits(variants: seq<Variant>, n: nat, run: GeneRun) {
    run.recordsWritten == |variants| * n == |run.records| && forall k :: 0 <= k < |run.records| ==> run.records[k].index in Indexes(variants)
  }

  function Survivors(n: nat, runs: seq<GeneRun>, variants: seq<Variant>): seq<Variant> {
    if variants == [] then [] else
      Survivors(n, runs, variants[..|variants| - 1]) + if Survives(n, runs, variants[|variants| - 1].index) then [variants[|variants| - 1]] else []
  }

  /** The records of the surviving configurations, in order. */
  function KeptRecords(n: nat, runs: seq<GeneRun>, records: seq<Record>): seq<Record> {
    if records == [] then []
    else if Survives(n, runs, records[|records| - 1].index) then KeptRecords(n, runs, records[..|records| - 1]) + [records[|records| - 1]]
    else KeptRecords(n, runs, records[..|records| - 1])
  }

  // ---------- The procedure ----------

  lemma InSamples(records: seq<Record>, index: int)
    ensures forall r :: r in SamplesOf(records, index) <==> r in records && r.index == index
  {
    forall r ensures r in SamplesOf(records, index) <==> r in records && r.index == index { InSamplesOne(records, index, r); }
  }

  lemma {:induction false} InSamplesOne(records: seq<Record>, index: int, r: Record)
    ensures r in SamplesOf(records, index) <==> r in records && r.index == index
  {
    if records != [] {
      assert records == records[..|records| - 1] + [records[|records| - 1]];
      InSamplesOne(records[..|records| - 1], index, r);
    }
  }

  /** Configurations with an unusable record, or with a wrong set of samples, in one run. */
  method ExcludedByRun(variants: seq<Variant>, n: nat, run: GeneRun) returns (r: Result<set<int>, Error>)
    ensures r.Success? <==> RunFits(variants, n, run)
    ensures r.Success? ==> forall i :: i in r.value <==> i in Indexes(variants) && !Complete(n, run.records, i)
    ensures r.Failure? ==> r.error.WrittenMismatch? || r.error.RowsMismatch? || r.error.UnknownIndex?
  {
    hide Usable, UpTo, SamplesOf, SampleIndexes;
    var expected, records := |variants| * n, run.records;
    if run.recordsWritten != expected { return Failure(WrittenMismatch(run.geneIndex)); }
    if |records| != expected { return Failure(RowsMismatch(run.geneIndex)); }
    var excluded: set<int> := {};
    for k := 0 to |records|
      invariant forall j :: 0 <= j < k ==> records[j].index in Indexes(variants)
      invariant forall i :: i in excluded <==> exists j :: 0 <= j < k && records[j].index == i && !Usable(records[j])
    {
      if records[k].index !in Indexes(variants) { return Failure(UnknownIndex(run.geneIndex, records[k].index)); }
      if !Usable(records[k]) { excluded := excluded + {records[k].index}; }
    }
    ghost var unusable := excluded;
    for v := 0 to |variants|
      invariant unusable <= excluded <= unusable + Indexes(variants[..v])
      invariant forall j :: 0 <= j < v ==> (variants[j].index in excluded <==> variants[j].index in unusable || !SampleSet(n, records, variants[j].index))
    {
      var index := variants[v].index;
      ghost var before := excluded;
      if !SampleSet(n, records, index) { excluded := excluded + {index}; }
      forall i | i in excluded ensures i in unusable + Indexes(variants[..v + 1]) {
        if i in before && i !in unusable { IndexesGrow(variants, v, i); } else if i == index { assert variants[..v + 1][v] == variants[v]; }
      }
    }
    assert variants[..|variants|] == variants;
    forall i ensures i in excluded <==> i in Indexes(variants) && !Complete(n, records, i) {
      InSamples(records, i);
      CompleteWhen(n, records, i);
      if i in unusable {
        var j :| 0 <= j < |records| && records[j].index == i && !Usable(records[j]);
        assert records[j] in records;
      } else if i in Indexes(variants) {
        var j :| 0 <= j < |variants| && variants[j].index == i;
      }
    }
    return Success(excluded);
  }

  predicate SampleSet(n: nat, records: seq<Record>, index: int) {
    |SamplesOf(records, index)| == n && SampleIndexes(SamplesOf(records, index)) == UpTo(n)
  }

  lemma CompleteWhen(n: nat, records: seq<Record>, index: int)
    ensures Complete(n, records, index) <==> SampleSet(n, records, index) && forall r :: r in SamplesOf(records, index) ==> Usable(r)
  {
  }

  lemma IndexesGrow(variants: seq<Variant>, v: nat, i: int)
    requires v < |variants| && i in Indexes(variants[..v])
    ensures i in Indexes(variants[..v + 1])
  {
    var x :| x in variants[..v] && x.index == i;
    assert x in variants[..v + 1];
  }

  /** The eligible configurations and their records, gene by gene: exactly the survivors of every run. */
  method FilterGeneRecords(variants: seq<Variant>, runs: seq<GeneRun>, n: nat) returns (r: Result<(seq<Variant>, seq<seq<Record>>), Error>)
    ensures r.Success? <==>
      && DistinctIndexes(variants) && runs != [] && (forall g :: 0 <= g < |runs| ==> RunFits(variants, n, runs[g]))
      && Survivors(n, runs, variants) != []
    ensures r.Success? ==> r.value.0 == Survivors(n, runs, variants) && |r.value.1| == |runs|
    ensures r.Success? ==> forall g :: 0 <= g < |runs| ==> r.value.1[g] == KeptRecords(n, runs, runs[g].records)
    ensures r == Failure(NoneEligible) ==> Survivors(n, runs, variants) == []
  {
    hide Complete, RunFits, Indexes;
    var distinct := IndexesDistinct(variants);
    if !distinct { return Failure(DuplicateIndexes); }
    if runs == [] { return Failure(NoGeneRuns); }
    var excluded: set<int> := {};
    for g := 0 to |runs|
      invariant forall j :: 0 <= j < g ==> RunFits(variants, n, runs[j])
      invariant forall i :: i in excluded <==> i in Indexes(variants) && exists j :: 0 <= j < g && !Complete(n, runs[j].records, i)
    {
      var failed := ExcludedByRun(variants, n, runs[g]);
      if failed.Failure? { return Failure(failed.error); }
      excluded := excluded + failed.value;
    }
    assert forall i :: i in Indexes(variants) ==> (i in excluded <==> !Survives(n, runs, i));
    var eligible := EligibleVariants(variants, excluded, n, runs);
    if eligible == [] { return Failure(NoneEligible); }
    var files: seq<seq<Record>> := [];
    for g := 0 to |runs|
      invariant |files| == g && forall j :: 0 <= j < g ==> files[j] == KeptRecords(n, runs, runs[j].records)
    {
      RecordsKnown(variants, n, runs[g]);
      var kept := EligibleRecords(runs[g].records, excluded, n, runs, Indexes(variants));
      files := files + [kept];
    }
    return Success((eligible, files));
  }

  method IndexesDistinct(variants: seq<Variant>) returns (distinct: bool)
    ensures distinct <==> DistinctIndexes(variants)
  {
    var seen: set<int> := {};
    for k := 0 to |variants|
      invariant DistinctIndexes(variants[..k]) && seen == Indexes(variants[..k])
    {
      if variants[k].index in seen {
        var v :| v in variants[..k] && v.index == variants[k].index;
        return false;
      }
      assert variants[..k + 1] == variants[..k] + [variants[k]];
      assert forall i :: 0 <= i < k ==> variants[i] in variants[..k];
      seen := seen + {variants[k].index};
      assert variants[k] in variants[..k + 1];
    }
    assert variants[..|variants|] == variants;
    return true;
  }

  method EligibleVariants(variants: seq<Variant>, excluded: set<int>, ghost n: nat, ghost runs: seq<GeneRun>) returns (eligible: seq<Variant>)
    requires forall i :: i in Indexes(variants) ==> (i in excluded <==> !Survives(n, runs, i))
    ensures eligible == Survivors(n, runs, variants)
  {
    hide Survives;
    eligible := [];
    for k := 0 to |variants|
      invariant eligible == Survivors(n, runs, variants[..k])
    {
      assert variants[..k + 1][..k] == variants[..k];
      assert variants[k].index in Indexes(variants);
      if variants[k].index !in excluded { eligible := eligible + [variants[k]]; }
    }
    assert variants[..|variants|] == variants;
  }

  method EligibleRecords(records: seq<Record>, excluded: set<int>, ghost n: nat, ghost runs: seq<GeneRun>, ghost known: set<int>) returns (kept: seq<Record>)
    requires forall k :: 0 <= k < |records| ==> records[k].index in known
    requires forall i :: i in known ==> (i in excluded <==> !Survives(n, runs, i))
    ensures kept == KeptRecords(n, runs, records)
  {
    hide Survives;
    kept := [];
    for k := 0 to |records|
      invariant kept == KeptRecords(n, runs, records[..k])
    {
      assert records[..k + 1][..k] == records[..k];
      if records[k].index !in excluded { kept := kept + [records[k]]; }
    }
    assert records[..|records|] == records;
  }

  lemma RecordsKnown(variants: seq<Variant>, n: nat, run: GeneRun)
    requires RunFits(variants, n, run)
    ensures forall k :: 0 <= k < |run.records| ==> run.records[k].index in Indexes(variants)
  {
  }

  // ---------- What the filter establishes ----------

  /** n samples with the indexes 1 to n have each index once. */
  lemma {:induction false} SamplesDistinct(samples: seq<Record>, n: nat)
    requires |samples| == n && SampleIndexes(samples) == UpTo(n)
    ensures forall i, j :: 0 <= i < j < n ==> samples[i].sampleIndex != samples[j].sampleIndex
  {
    forall i, j | 0 <= i < j < n ensures samples[i].sampleIndex != samples[j].sampleIndex {
      if samples[i].sampleIndex == samples[j].sampleIndex {
        var fewer := samples[..j] + samples[j + 1..];
        FewIndexes(fewer);
        forall x | x in SampleIndexes(samples) ensures x in SampleIndexes(fewer) {
          var r :| r in samples && r.sampleIndex == x;
          var k :| 0 <= k < n && samples[k] == r;
          var k' := if k == j then i else k;
          assert fewer[if k' < j then k' else k' - 1] == samples[k'];
          assert samples[k'] in fewer && samples[k'].sampleIndex == x;
        }
        Subset(UpTo(n), SampleIndexes(fewer));
      }
    }
  }

  lemma {:induction false} FewIndexes(samples: seq<Record>)
    ensures |SampleIndexes(samples)| <= |samples|
  {
    if samples != [] {
      var front, last := samples[..|samples| - 1], samples[|samples| - 1];
      FewIndexes(front);
      assert samples == front + [last];
      assert SampleIndexes(samples) == SampleIndexes(front) + {last.sampleIndex};
    }
  }

  lemma Subset(a: set<int>, b: set<int>)
    requires a <= b
    ensures |a| <= |b|
  {
    assert b == a + (b - a);
  }

  /** The records of several configurations. */
  function RecordsOf(records: seq<Record>, variants: seq<Variant>): seq<Record> {
    if records == [] then []
    else if records[|records| - 1].index in Indexes(variants) then RecordsOf(records[..|records| - 1], variants) + [records[|records| - 1]]
    else RecordsOf(records[..|records| - 1], variants)
  }

  lemma {:induction false} RecordsOfOneMore(records: seq<Record>, variants: seq<Variant>, v: Variant)
    requires v.index !in Indexes(variants)
    ensures |RecordsOf(records, variants + [v])| == |RecordsOf(records, variants)| + |SamplesOf(records, v.index)|
  {
    IndexesOneMore(variants, v);
    if records != [] { RecordsOfOneMore(records[..|records| - 1], variants, v); }
  }

  lemma IndexesOneMore(variants: seq<Variant>, v: Variant)
    ensures Indexes(variants + [v]) == Indexes(variants) + {v.index}
  {
    assert v in variants + [v];
    forall i | i in Indexes(variants) ensures i in Indexes(variants + [v]) {
      var x :| x in variants && x.index == i;
      assert x in variants + [v];
    }
  }

  lemma {:induction false} RecordsOfNone(records: seq<Record>)
    ensures RecordsOf(records, []) == []
  {
    if records != [] { RecordsOfNone(records[..|records| - 1]); }
  }

  lemma LastIsNew(variants: seq<Variant>)
    requires variants != [] && DistinctIndexes(variants)
    ensures variants[|variants| - 1].index !in Indexes(variants[..|variants| - 1])
    ensures DistinctIndexes(variants[..|variants| - 1])
  {
    var front, last := variants[..|variants| - 1], |variants| - 1;
    forall x | x in front ensures x.index != variants[last].index {
      var k :| 0 <= k < |front| && front[k] == x;
      assert variants[k].index != variants[last].index;
    }
  }

  lemma OneMore(k: nat, n: nat)
    ensures (k + 1) * n == k * n + n
  {
  }

  /** Configurations with n samples each have n times as many records. */
  lemma {:induction false} RecordsCounted(records: seq<Record>, variants: seq<Variant>, n: nat)
    requires DistinctIndexes(variants) && forall v :: v in variants ==> |SamplesOf(records, v.index)| == n
    ensures |RecordsOf(records, variants)| == |variants| * n
  {
    hide SamplesOf, RecordsOf, Indexes;
    if variants == [] {
      RecordsOfNone(records);
    } else {
      var front, v := variants[..|variants| - 1], variants[|variants| - 1];
      assert variants == front + [v];
      LastIsNew(variants);
      RecordsCounted(records, front, n);
      RecordsOfOneMore(records, front, v);
      OneMore(|front|, n);
    }
  }

  lemma {:induction false} SurvivorsAre(n: nat, runs: seq<GeneRun>, variants: seq<Variant>)
    requires DistinctIndexes(variants)
    ensures DistinctIndexes(Survivors(n, runs, variants))
    ensures forall v :: v in Survivors(n, runs, variants) <==> v in variants && Survives(n, runs, v.index)
  {
    hide Survives;
    if variants != [] {
      var front, last := variants[..|variants| - 1], variants[|variants| - 1];
      SurvivorsAre(n, runs, front);
      assert variants == front + [last];
      var kept := Survivors(n, runs, front);
      forall k | 0 <= k < |kept| ensures kept[k].index != last.index {
        assert kept[k] in front;
        var i :| 0 <= i < |front| && front[i] == kept[k];
        assert variants[i].index != variants[|front|].index;
      }
    }
  }

  lemma {:induction false} KeptAreSurvivors(n: nat, runs: seq<GeneRun>, records: seq<Record>, variants: seq<Variant>)
    requires DistinctIndexes(variants) && forall k :: 0 <= k < |records| ==> records[k].index in Indexes(variants)
    ensures KeptRecords(n, runs, records) == RecordsOf(records, Survivors(n, runs, variants))
  {
    hide Survives;
    if records != [] {
      KeptAreSurvivors(n, runs, records[..|records| - 1], variants);
      SurvivorsAre(n, runs, variants);
      var i := records[|records| - 1].index;
      assert i in Indexes(Survivors(n, runs, variants)) <==> Survives(n, runs, i);
    }
  }

  /** Every gene file holds, for each eligible configuration, exactly the samples 1 to n, each once and usable, and
      has as many rows as there are eligible configurations times samples. */
  lemma FilterEstablishes(variants: seq<Variant>, runs: seq<GeneRun>, n: nat, g: nat)
    requires DistinctIndexes(variants) && g < |runs| && RunFits(variants, n, runs[g])
    ensures var eligible := Survivors(n, runs, variants);
            var file := KeptRecords(n, runs, runs[g].records);
            && |file| == |eligible| * n
            && forall v :: v in eligible ==> Complete(n, file, v.index)
  {
    hide UpTo, Usable;
    var eligible, records := Survivors(n, runs, variants), runs[g].records;
    SurvivorsAre(n, runs, variants);
    KeptAreSurvivors(n, runs, records, variants);
    forall v | v in eligible ensures Complete(n, records, v.index) && SamplesOf(KeptRecords(n, runs, records), v.index) == SamplesOf(records, v.index) {
      assert Survives(n, runs, v.index);
      SamplesKept(n, runs, records, v.index);
    }
    RecordsCounted(records, eligible, n);
  }

  lemma {:induction false} SamplesKept(n: nat, runs: seq<GeneRun>, records: seq<Record>, index: int)
    requires Survives(n, runs, index)
    ensures SamplesOf(KeptRecords(n, runs, records), index) == SamplesOf(records, index)
  {
    hide Survives;
    if records != [] {
      var front, last := records[..|records| - 1], records[|records| - 1];
      SamplesKept(n, runs, front, index);
      var kept := KeptRecords(n, runs, front);
      assert (kept + [last])[..|kept|] == kept;
    }
  }

  // ---------- By the fields of the records ----------

  /** Where the records of a configuration stand. */
  function PositionsOf(records: seq<Record>, index: int): set<nat> {
    set k: nat | k < |records| && records[k].index == index
  }

  lemma {:induction false} SamplesCounted(records: seq<Record>, index: int)
    ensures |SamplesOf(records, index)| == |PositionsOf(records, index)|
  {
    if records != [] {
      var n := |records| - 1;
      SamplesCounted(records[..n], index);
      assert PositionsOf(records, index) == PositionsOf(records[..n], index) + if records[n].index == index then {n} else {};
    }
  }

  predicate Occurs(records: seq<Record>, index: int, sample: int) {
    exists k :: 0 <= k < |records| && records[k].index == index && records[k].sampleIndex == sample
  }

  /** A configuration is complete exactly when it has n records, each of them "ok", with an embedding and with a sample
      index from 1 to n, and each of these sample indexes occurs. */
  lemma CompleteMeans(n: nat, records: seq<Record>, index: int)
    ensures Complete(n, records, index) <==>
      && |PositionsOf(records, index)| == n
      && (forall k :: 0 <= k < |records| && records[k].index == index ==>
           records[k].status == "ok" && records[k].embedding > 0 && 1 <= records[k].sampleIndex <= n)
      && (forall i :: 1 <= i <= n ==> Occurs(records, index, i))
  {
    hide SamplesOf, PositionsOf, UpTo;
    InSamples(records, index);
    SamplesCounted(records, index);
    var samples := SamplesOf(records, index);
    forall k | 0 <= k < |records| && records[k].index == index ensures records[k] in samples { assert records[k] in records; }
    if SampleIndexes(samples) == UpTo(n) {
      forall k | 0 <= k < |records| && records[k].index == index ensures 1 <= records[k].sampleIndex <= n {
        assert records[k].sampleIndex in SampleIndexes(samples);
      }
      forall i | 1 <= i <= n ensures Occurs(records, index, i) {
        assert i in SampleIndexes(samples);
        var r :| r in samples && r.sampleIndex == i;
        var k :| 0 <= k < |records| && records[k] == r;
      }
    }
    if forall i :: 1 <= i <= n ==> Occurs(records, index, i) {
      forall i | 1 <= i <= n ensures i in SampleIndexes(samples) {
        assert Occurs(records, index, i);
        var k :| 0 <= k < |records| && records[k].index == index && records[k].sampleIndex == i;
        assert records[k] in samples;
      }
    }
  }

  lemma {:induction false} KeptAreRecords(n: nat, runs: seq<GeneRun>, records: seq<Record>, r: Record)
    ensures r in KeptRecords(n, runs, records) <==> r in records && Survives(n, runs, r.index)
  {
    hide Survives;
    if records != [] {
      var front, last := records[..|records| - 1], records[|records| - 1];
      KeptAreRecords(n, runs, front, r);
      assert records == front + [last];
    }
  }

  /** Every record kept is "ok" and has an embedding; a configuration with another record anywhere loses all of its records. */
  lemma OnlyUsableKept(n: nat, runs: seq<GeneRun>, g: nat, r: Record)
    requires g < |runs| && r in KeptRecords(n, runs, runs[g].records)
    ensures r.status == "ok" && r.embedding > 0 && 1 <= r.sampleIndex <= n
    ensures forall h, k :: 0 <= h < |runs| && 0 <= k < |runs[h].records| && runs[h].records[k].index == r.index ==>
      runs[h].records[k].status == "ok" && runs[h].records[k].embedding > 0
  {
    hide Complete, KeptRecords, PositionsOf;
    KeptAreRecords(n, runs, runs[g].records, r);
    forall h, k | 0 <= h < |runs| && 0 <= k < |runs[h].records| && runs[h].records[k].index == r.index
      ensures runs[h].records[k].status == "ok" && runs[h].records[k].embedding > 0
    {
      CompleteMeans(n, runs[h].records, r.index);
    }
    CompleteMeans(n, runs[g].records, r.index);
    var k :| 0 <= k < |runs[g].records| && runs[g].records[k] == r;
  }
}
