/**
 What the two stages after the gene filter check of its files: validate_gene_rows in run_gene_pca_clustering.py, and
 the grouping in aggregate_variant_persona_clusters.py. Files that the filter wrote pass both.
 */
module GeneStages {
  import opened GeneFilter
  import opened Results

  /** A row after dimension reduction. It keeps the identity of its record; `pca` says of each component whether it is
      a number, and is None when it is not a list. */
  datatype Row = Row(geneIndex: int, gene: string, endpointID: string, combinedIndex: Option<int>, variantOrder: Option<int>,
                     persona: string, pca: Option<seq<bool>>)

  /** What identifies a configuration: its endpoint identifier, or a number where it has none. */
  datatype Key = Text(id: string) | Number(number: int)

  function VariantKey(row: Row): Option<Key> {
    if row.endpointID != "" then Some(Text(row.endpointID))
    else if row.combinedIndex.Some? then Some(Number(row.combinedIndex.value))
    else if row.variantOrder.Some? then Some(Number(row.variantOrder.value))
    else None
  }

  /** An endpoint identifier comes first, the combined index next, the order in the file last. */
  lemma KeyMeans(row: Row)
    ensures row.endpointID != "" ==> VariantKey(row) == Some(Text(row.endpointID))
    ensures row.endpointID == "" && row.combinedIndex.Some? ==> VariantKey(row) == Some(Number(row.combinedIndex.value))
    ensures row.endpointID == "" && row.combinedIndex.None? && row.variantOrder.Some? ==> VariantKey(row) == Some(Number(row.variantOrder.value))
    ensures VariantKey(row).None? <==> row.endpointID == "" && row.combinedIndex.None? && row.variantOrder.None?
  {
  }

  /** How many rows a configuration has. */
  function Occurrences(rows: seq<Row>, key: Key): nat {
    if rows == [] then 0 else
      Occurrences(rows[..|rows| - 1], key) + if VariantKey(rows[|rows| - 1]) == Some(key) then 1 else 0
  }

  function Keys(rows: seq<Row>): set<Key> {
    set row | row in rows && VariantKey(row).Some? :: VariantKey(row).value
  }

  // ---------- The clustering stage ----------

  datatype RowsError = NoRows | RowCount | GeneIndexes | GeneTexts | RowWithoutKey | VariantCount | SampleCount | PcaLength | PcaNotNumeric

  /** The counts demanded on the command line, where given. */
  datatype Expected = Expected(rows: Option<nat>, variants: Option<nat>, samples: Option<nat>)

  predicate Meets(expected: Option<nat>, actual: nat) {
    expected.Some? ==> actual == expected.value
  }

  predicate PcaFits(pca: Option<seq<bool>>, dimensions: nat) {
    pca.Some? && |pca.value| == dimensions && forall k :: 0 <= k < |pca.value| ==> pca.value[k]
  }

  predicate RowFits(row: Row, first: Row, dimensions: nat) {
    row.geneIndex == first.geneIndex && row.gene == first.gene && VariantKey(row).Some? && PcaFits(row.pca, dimensions)
  }

  /** What the clustering stage demands of a gene file. */
  predicate GeneRowsFit(rows: seq<Row>, expected: Expected, dimensions: nat) {
    && rows != [] && Meets(expected.rows, |rows|)
    && (forall k :: 0 <= k < |rows| ==> RowFits(rows[k], rows[0], dimensions))
    && Meets(expected.variants, |Keys(rows)|)
    && forall key :: key in Keys(rows) ==> Meets(expected.samples, Occurrences(rows, key))
  }

  method ValidateGeneRows(rows: seq<Row>, expected: Expected, dimensions: nat) returns (error: Option<RowsError>)
    ensures error.None? <==> GeneRowsFit(rows, expected, dimensions)
  {
    hide Keys, Occurrences, PcaFits, VariantKey;
    if rows == [] { return Some(NoRows); }
    if expected.rows.Some? && |rows| != expected.rows.value { return Some(RowCount); }
    for k := 0 to |rows|
      invariant forall j :: 0 <= j < k ==> rows[j].geneIndex == rows[0].geneIndex
    {
      if rows[k].geneIndex != rows[0].geneIndex { return Some(GeneIndexes); }
    }
    for k := 0 to |rows|
      invariant forall j :: 0 <= j < k ==> rows[j].gene == rows[0].gene
    {
      if rows[k].gene != rows[0].gene { return Some(GeneTexts); }
    }
    for k := 0 to |rows|
      invariant forall j :: 0 <= j < k ==> VariantKey(rows[j]).Some?
    {
      if VariantKey(rows[k]).None? { return Some(RowWithoutKey); }
    }
    var counts := CountRows(rows);
    if expected.variants.Some? && |counts.Keys| != expected.variants.value { return Some(VariantCount); }
    if expected.samples.Some? {
      if key :| key in counts && counts[key] != expected.samples.value { return Some(SampleCount); }
    }
    for k := 0 to |rows|
      invariant forall j :: 0 <= j < k ==> PcaFits(rows[j].pca, dimensions)
    {
      error := PcaError(rows[k].pca, dimensions);
      if error.Some? { return; }
    }
    return None;
  }

  method PcaError(pca: Option<seq<bool>>, dimensions: nat) returns (error: Option<RowsError>)
    ensures error.None? <==> PcaFits(pca, dimensions)
  {
    if pca.None? || |pca.value| != dimensions { return Some(PcaLength); }
    for k := 0 to |pca.value|
      invariant forall j :: 0 <= j < k ==> pca.value[j]
    {
      if !pca.value[k] { return Some(PcaNotNumeric); }
    }
    return None;
  }

  /** How often each configuration occurs. */
  method CountRows(rows: seq<Row>) returns (counts: map<Key, nat>)
    requires forall k :: 0 <= k < |rows| ==> VariantKey(rows[k]).Some?
    ensures counts.Keys == Keys(rows) && forall key :: key in counts ==> counts[key] == Occurrences(rows, key)
  {
    hide Keys, Occurrences, VariantKey;
    counts := map[];
    NoKeys();
    for k := 0 to |rows|
      invariant counts.Keys == Keys(rows[..k])
      invariant forall key :: key in counts ==> counts[key] == Occurrences(rows[..k], key)
    {
      var key := VariantKey(rows[k]).value;
      OneMoreRow(rows, k);
      counts := counts[key := (if key in counts then counts[key] else 0) + 1];
    }
    assert rows[..|rows|] == rows;
  }

  lemma NoKeys()
    ensures Keys([]) == {}
  {
  }

  lemma OneMoreRow(rows: seq<Row>, k: nat)
    requires k < |rows| && VariantKey(rows[k]).Some?
    ensures var key := VariantKey(rows[k]).value;
            && Keys(rows[..k + 1]) == Keys(rows[..k]) + {key}
            && (forall other :: Occurrences(rows[..k + 1], other) == Occurrences(rows[..k], other) + if other == key then 1 else 0)
            && (key !in Keys(rows[..k]) ==> Occurrences(rows[..k], key) == 0)
  {
    hide VariantKey;
    var key := VariantKey(rows[k]).value;
    assert rows[..k + 1][..k] == rows[..k];
    assert rows[..k + 1] == rows[..k] + [rows[k]];
    if key !in Keys(rows[..k]) { NoOccurrence(rows[..k], key); }
  }

  lemma {:induction false} NoOccurrence(rows: seq<Row>, key: Key)
    requires key !in Keys(rows)
    ensures Occurrences(rows, key) == 0
  {
    hide VariantKey;
    if rows != [] {
      assert rows == rows[..|rows| - 1] + [rows[|rows| - 1]];
      assert rows[|rows| - 1] in rows;
      NoOccurrence(rows[..|rows| - 1], key);
    }
  }

  // ---------- The filter's files ----------

  const PERSONA := "generic"

  /** The reduced rows of some records of a gene run. */
  function Reduced(run: GeneRun, dimensions: nat, records: seq<Record>): (r: seq<Row>)
    ensures |r| == |records|
  {
    seq(|records|, k requires 0 <= k < |records| => ReducedRow(run, dimensions, records[k]))
  }

  function ReducedRow(run: GeneRun, dimensions: nat, r: Record): Row {
    Row(run.geneIndex, run.gene, r.endpointID, Some(r.index), None, PERSONA, Some(seq(dimensions, _ => true)))
  }

  function KeyOf(v: Variant): Key {
    if v.endpointID != "" then Text(v.endpointID) else Number(v.index)
  }

  /** Every record carries the endpoint identifier of its configuration, and no two configurations share one. */
  predicate EndpointsAgree(variants: seq<Variant>, records: seq<Record>) {
    && (forall i, j :: 0 <= i < j < |variants| && variants[i].endpointID != "" ==> variants[i].endpointID != variants[j].endpointID)
    && (forall k, i :: 0 <= k < |records| && 0 <= i < |variants| && records[k].index == variants[i].index ==> records[k].endpointID == variants[i].endpointID)
  }

  function KeysOf(variants: seq<Variant>): set<Key> {
    set v | v in variants :: KeyOf(v)
  }

  lemma KeysDiffer(variants: seq<Variant>, records: seq<Record>, i: nat, j: nat)
    requires EndpointsAgree(variants, records) && DistinctIndexes(variants) && i < |variants| && j < |variants| && i != j
    ensures KeyOf(variants[i]) != KeyOf(variants[j])
  {
  }

  /** The configuration of a record. */
  lemma Owner(variants: seq<Variant>, index: int) returns (i: nat)
    requires index in Indexes(variants)
    ensures i < |variants| && variants[i].index == index
  {
    var v :| v in variants && v.index == index;
    i :| 0 <= i < |variants| && variants[i] == v;
  }

  lemma RowKey(run: GeneRun, dimensions: nat, records: seq<Record>, k: nat, variants: seq<Variant>, i: nat)
    requires EndpointsAgree(variants, records) && k < |records| && i < |variants| && records[k].index == variants[i].index
    ensures VariantKey(ReducedRow(run, dimensions, records[k])) == Some(KeyOf(variants[i]))
  {
  }

  lemma {:induction false} OccurrencesAreSamples(run: GeneRun, dimensions: nat, records: seq<Record>, variants: seq<Variant>, i: nat)
    requires EndpointsAgree(variants, records) && i < |variants| && DistinctIndexes(variants)
    requires forall k :: 0 <= k < |records| ==> records[k].index in Indexes(variants)
    ensures Occurrences(Reduced(run, dimensions, records), KeyOf(variants[i])) == |SamplesOf(records, variants[i].index)|
  {
    hide VariantKey, KeyOf, ReducedRow, Indexes;
    if records != [] {
      var front, last := records[..|records| - 1], records[|records| - 1];
      OccurrencesAreSamples(run, dimensions, front, variants, i);
      var rows := Reduced(run, dimensions, records);
      assert rows[..|rows| - 1] == Reduced(run, dimensions, front);
      var j := Owner(variants, last.index);
      RowKey(run, dimensions, records, |records| - 1, variants, j);
      if i != j { KeysDiffer(variants, records, i, j); }
    }
  }

  lemma EveryKeyTimes(run: GeneRun, dimensions: nat, file: seq<Record>, eligible: seq<Variant>, n: nat, key: Key)
    requires EndpointsAgree(eligible, file) && DistinctIndexes(eligible) && key in KeysOf(eligible)
    requires forall k :: 0 <= k < |file| ==> file[k].index in Indexes(eligible)
    requires forall v :: v in eligible ==> Complete(n, file, v.index)
    ensures Occurrences(Reduced(run, dimensions, file), key) == n
  {
    hide Occurrences, UpTo, Usable, SampleIndexes, KeyOf, Indexes;
    var v :| v in eligible && KeyOf(v) == key;
    var i :| 0 <= i < |eligible| && eligible[i] == v;
    OccurrencesAreSamples(run, dimensions, file, eligible, i);
    assert Complete(n, file, v.index);
  }

  /** The rows name exactly the eligible configurations. */
  lemma RowsCover(run: GeneRun, dimensions: nat, file: seq<Record>, eligible: seq<Variant>, n: nat)
    requires n > 0 && EndpointsAgree(eligible, file) && forall v :: v in eligible ==> Complete(n, file, v.index)
    requires forall k :: 0 <= k < |file| ==> file[k].index in Indexes(eligible)
    ensures Keys(Reduced(run, dimensions, file)) == KeysOf(eligible)
  {
    hide Usable, UpTo, VariantKey, KeyOf, ReducedRow, Indexes;
    var rows := Reduced(run, dimensions, file);
    forall key | key in Keys(rows) ensures key in KeysOf(eligible) {
      var row :| row in rows && VariantKey(row) == Some(key);
      var k :| 0 <= k < |rows| && rows[k] == row;
      var i := Owner(eligible, file[k].index);
      RowKey(run, dimensions, file, k, eligible, i);
      assert eligible[i] in eligible;
    }
    forall key | key in KeysOf(eligible) ensures key in Keys(rows) {
      var v :| v in eligible && KeyOf(v) == key;
      var i :| 0 <= i < |eligible| && eligible[i] == v;
      var sample := SamplesOf(file, v.index)[0];
      InSamples(file, v.index);
      assert sample in SamplesOf(file, v.index);
      var k :| 0 <= k < |file| && file[k] == sample;
      RowKey(run, dimensions, file, k, eligible, i);
      assert rows[k] in rows;
    }
  }

  lemma {:induction false} KeyCount(variants: seq<Variant>, records: seq<Record>)
    requires EndpointsAgree(variants, records) && DistinctIndexes(variants)
    ensures |KeysOf(variants)| == |variants|
  {
    hide KeyOf;
    if variants == [] {
      assert KeysOf([]) == {};
    } else {
      var last := |variants| - 1;
      KeyCount(variants[..last], records);
      forall v | v in variants[..last] ensures KeyOf(v) != KeyOf(variants[last]) {
        var i :| 0 <= i < last && variants[..last][i] == v;
        KeysDiffer(variants, records, i, last);
      }
      assert variants == variants[..last] + [variants[last]];
      KeysOneMore(variants[..last], variants[last]);
    }
  }

  lemma KeysOneMore(variants: seq<Variant>, v: Variant)
    ensures KeysOf(variants + [v]) == KeysOf(variants) + {KeyOf(v)}
  {
    hide KeyOf;
    assert v in variants + [v];
    forall key | key in KeysOf(variants) ensures key in KeysOf(variants + [v]) {
      var x :| x in variants && KeyOf(x) == key;
      assert x in variants + [v];
    }
  }

  lemma {:induction false} KeptKnown(records: seq<Record>, variants: seq<Variant>)
    ensures forall k :: 0 <= k < |RecordsOf(records, variants)| ==> RecordsOf(records, variants)[k].index in Indexes(variants)
  {
    hide Indexes;
    if records != [] { KeptKnown(records[..|records| - 1], variants); }
  }

  lemma Positive(a: nat, b: nat)
    requires a > 0 && b > 0
    ensures a * b > 0
  {
  }

  /** What the filter establishes, as far as the later stages look. */
  lemma FileSound(variants: seq<Variant>, runs: seq<GeneRun>, n: nat, g: nat)
    requires DistinctIndexes(variants) && g < |runs| && RunFits(variants, n, runs[g])
    ensures var eligible, file := Survivors(n, runs, variants), KeptRecords(n, runs, runs[g].records);
            && DistinctIndexes(eligible) && |file| == |eligible| * n
            && (forall v :: v in eligible ==> Complete(n, file, v.index))
            && (forall k :: 0 <= k < |file| ==> file[k].index in Indexes(eligible))
  {
    hide Complete, Indexes, Survives;
    FilterEstablishes(variants, runs, n, g);
    SurvivorsAre(n, runs, variants);
    KeptAreSurvivors(n, runs, runs[g].records, variants);
    KeptKnown(runs[g].records, Survivors(n, runs, variants));
  }

  /** The files that the filter writes satisfy the clustering stage, whose checks therefore never fail. */
  lemma ClusteringAccepts(variants: seq<Variant>, runs: seq<GeneRun>, n: nat, g: nat, dimensions: nat)
    requires DistinctIndexes(variants) && g < |runs| && RunFits(variants, n, runs[g]) && n > 0
    requires Survivors(n, runs, variants) != [] && EndpointsAgree(Survivors(n, runs, variants), KeptRecords(n, runs, runs[g].records))
    ensures var eligible := Survivors(n, runs, variants);
            GeneRowsFit(Reduced(runs[g], dimensions, KeptRecords(n, runs, runs[g].records)),
                        Expected(Some(|eligible| * n), Some(|eligible|), Some(n)), dimensions)
  {
    hide Occurrences, Complete, Indexes, EndpointsAgree, Survivors, KeptRecords, Keys, KeysOf, VariantKey, KeyOf, Survives;
    var eligible, file := Survivors(n, runs, variants), KeptRecords(n, runs, runs[g].records);
    var rows := Reduced(runs[g], dimensions, file);
    FileSound(variants, runs, n, g);
    Positive(|eligible|, n);
    RowsCover(runs[g], dimensions, file, eligible, n);
    KeyCount(eligible, file);
    forall k | 0 <= k < |rows| ensures RowFits(rows[k], rows[0], dimensions) {
      var i := Owner(eligible, file[k].index);
      RowKey(runs[g], dimensions, file, k, eligible, i);
    }
    forall key | key in KeysOf(eligible) ensures Occurrences(rows, key) == n {
      EveryKeyTimes(runs[g], dimensions, file, eligible, n, key);
    }
  }

  // ---------- The aggregation stage ----------

  /** The rows of one configuration, persona and gene. */
  function GroupCount(rows: seq<Row>, id: string, persona: string, gene: int): nat {
    if rows == [] then 0 else
      var last := rows[|rows| - 1];
      GroupCount(rows[..|rows| - 1], id, persona, gene) + if last.endpointID == id && last.persona == persona && last.geneIndex == gene then 1 else 0
  }

  /** What the aggregation stage demands: every configuration and persona has rows for every gene, as many as asked
      for, its configuration is known, and every gene has a fit. */
  predicate AggregateFits(rows: seq<Row>, known: set<string>, fits: set<int>, expected: Option<nat>) {
    && rows != []
    && forall row, other :: row in rows && other in rows ==> GroupFits(rows, row.endpointID, row.persona, other.geneIndex, known, fits, expected)
  }

  predicate GroupFits(rows: seq<Row>, id: string, persona: string, gene: int, known: set<string>, fits: set<int>, expected: Option<nat>) {
    var count := GroupCount(rows, id, persona, gene);
    count > 0 && Meets(expected, count) && id in known && gene in fits
  }

  /** The clustered rows of the first k genes. */
  function AllRows(variants: seq<Variant>, runs: seq<GeneRun>, n: nat, dimensions: nat, k: nat): seq<Row>
    requires k <= |runs|
  {
    if k == 0 then [] else
      AllRows(variants, runs, n, dimensions, k - 1) + Reduced(runs[k - 1], dimensions, KeptRecords(n, runs, runs[k - 1].records))
  }

  lemma {:induction false} GroupsAdd(a: seq<Row>, b: seq<Row>, id: string, persona: string, gene: int)
    ensures GroupCount(a + b, id, persona, gene) == GroupCount(a, id, persona, gene) + GroupCount(b, id, persona, gene)
  {
    if b == [] {
      assert a + b == a;
    } else {
      assert (a + b)[..|a + b| - 1] == a + b[..|b| - 1];
      GroupsAdd(a, b[..|b| - 1], id, persona, gene);
    }
  }

  lemma {:induction false} GroupIsSamples(run: GeneRun, dimensions: nat, records: seq<Record>, variants: seq<Variant>, i: nat, gene: int)
    requires OwnIdentifiers(variants, records) && i < |variants|
    requires forall k :: 0 <= k < |records| ==> records[k].index in Indexes(variants)
    ensures GroupCount(Reduced(run, dimensions, records), variants[i].endpointID, PERSONA, gene)
         == if gene == run.geneIndex then |SamplesOf(records, variants[i].index)| else 0
  {
    hide Indexes;
    if records != [] {
      var front, last := records[..|records| - 1], records[|records| - 1];
      GroupIsSamples(run, dimensions, front, variants, i, gene);
      var rows := Reduced(run, dimensions, records);
      assert rows[..|rows| - 1] == Reduced(run, dimensions, front);
      var j := Owner(variants, last.index);
      assert last.endpointID == variants[j].endpointID;
    }
  }

  /** Every configuration has an identifier of its own, which its records carry. */
  predicate OwnIdentifiers(variants: seq<Variant>, records: seq<Record>) {
    && DistinctIndexes(variants)
    && (forall i, j :: 0 <= i < j < |variants| ==> variants[i].endpointID != variants[j].endpointID)
    && (forall k, i :: 0 <= k < |records| && 0 <= i < |variants| && records[k].index == variants[i].index ==> records[k].endpointID == variants[i].endpointID)
  }

  /** The gene runs of a pool, each selected once, whose records name their configurations. */
  ghost predicate PoolRuns(variants: seq<Variant>, runs: seq<GeneRun>, n: nat) {
    && DistinctIndexes(variants) && n > 0 && runs != []
    && (forall g :: 0 <= g < |runs| ==> RunFits(variants, n, runs[g]))
    && (forall g :: 0 <= g < |runs| ==> OwnIdentifiers(Survivors(n, runs, variants), KeptRecords(n, runs, runs[g].records)))
    && (forall g, h :: 0 <= g < h < |runs| ==> runs[g].geneIndex != runs[h].geneIndex)
  }

  predicate GeneAmong(runs: seq<GeneRun>, k: nat, gene: int)
    requires k <= |runs|
  {
    exists g :: 0 <= g < k && runs[g].geneIndex == gene
  }

  /** Each eligible configuration has its n samples for each gene so far, and none for another. */
  lemma {:induction false} GroupsComplete(variants: seq<Variant>, runs: seq<GeneRun>, n: nat, dimensions: nat, k: nat, i: nat, gene: int)
    requires PoolRuns(variants, runs, n) && k <= |runs| && i < |Survivors(n, runs, variants)|
    ensures GroupCount(AllRows(variants, runs, n, dimensions, k), Survivors(n, runs, variants)[i].endpointID, PERSONA, gene)
         == if GeneAmong(runs, k, gene) then n else 0
  {
    hide Survivors, KeptRecords, RunFits, OwnIdentifiers, DistinctIndexes, Complete, GroupCount, Indexes;
    if k > 0 {
      var eligible, file := Survivors(n, runs, variants), KeptRecords(n, runs, runs[k - 1].records);
      GroupsComplete(variants, runs, n, dimensions, k - 1, i, gene);
      FileSound(variants, runs, n, k - 1);
      GroupsAdd(AllRows(variants, runs, n, dimensions, k - 1), Reduced(runs[k - 1], dimensions, file), eligible[i].endpointID, PERSONA, gene);
      GroupIsSamples(runs[k - 1], dimensions, file, eligible, i, gene);
      SamplesCounted(n, file, eligible, i);
      if gene == runs[k - 1].geneIndex { assert !GeneAmong(runs, k - 1, gene) && GeneAmong(runs, k, gene); }
      assert GeneAmong(runs, k, gene) <==> GeneAmong(runs, k - 1, gene) || gene == runs[k - 1].geneIndex;
    } else {
      NoGroups(Survivors(n, runs, variants)[i].endpointID, gene);
    }
  }

  lemma NoGroups(id: string, gene: int)
    ensures GroupCount([], id, PERSONA, gene) == 0
  {
  }

  lemma SamplesCounted(n: nat, file: seq<Record>, eligible: seq<Variant>, i: nat)
    requires i < |eligible| && forall v :: v in eligible ==> Complete(n, file, v.index)
    ensures |SamplesOf(file, eligible[i].index)| == n
  {
    assert Complete(n, file, eligible[i].index);
  }

  /** Every row stems from an eligible configuration and one of the genes. */
  lemma {:induction false} RowsKnown(variants: seq<Variant>, runs: seq<GeneRun>, n: nat, dimensions: nat, k: nat, row: Row)
    requires PoolRuns(variants, runs, n) && k <= |runs| && row in AllRows(variants, runs, n, dimensions, k)
    ensures GeneAmong(runs, k, row.geneIndex) && row.persona == PERSONA
    ensures exists i :: 0 <= i < |Survivors(n, runs, variants)| && Survivors(n, runs, variants)[i].endpointID == row.endpointID
  {
    hide Survivors, KeptRecords, RunFits, Complete, Indexes;
    var eligible, file := Survivors(n, runs, variants), KeptRecords(n, runs, runs[k - 1].records);
    if row in AllRows(variants, runs, n, dimensions, k - 1) {
      RowsKnown(variants, runs, n, dimensions, k - 1, row);
    } else {
      FileSound(variants, runs, n, k - 1);
      var j :| 0 <= j < |file| && Reduced(runs[k - 1], dimensions, file)[j] == row;
      var i := Owner(eligible, file[j].index);
      assert OwnIdentifiers(eligible, file);
    }
  }

  function EndpointIDs(variants: seq<Variant>): set<string> {
    set v | v in variants :: v.endpointID
  }

  function Genes(runs: seq<GeneRun>): set<int> {
    set run | run in runs :: run.geneIndex
  }

  /** The aggregation stage never refuses what the filter and the clustering stage pass on: every configuration has
      exactly its samples for every gene. */
  lemma AggregationAccepts(variants: seq<Variant>, runs: seq<GeneRun>, n: nat, dimensions: nat)
    requires PoolRuns(variants, runs, n) && Survivors(n, runs, variants) != []
    ensures AggregateFits(AllRows(variants, runs, n, dimensions, |runs|), EndpointIDs(Survivors(n, runs, variants)), Genes(runs), Some(n))
  {
    hide Survivors, KeptRecords, RunFits, OwnIdentifiers, DistinctIndexes, GroupCount, AllRows;
    var eligible, rows := Survivors(n, runs, variants), AllRows(variants, runs, n, dimensions, |runs|);
    GroupsComplete(variants, runs, n, dimensions, |runs|, 0, runs[0].geneIndex);
    assert GeneAmong(runs, |runs|, runs[0].geneIndex);
    if rows == [] { NoGroups(eligible[0].endpointID, runs[0].geneIndex); }
    forall row, other | row in rows && other in rows
      ensures GroupFits(rows, row.endpointID, row.persona, other.geneIndex, EndpointIDs(eligible), Genes(runs), Some(n))
    {
      RowsKnown(variants, runs, n, dimensions, |runs|, row);
      RowsKnown(variants, runs, n, dimensions, |runs|, other);
      var i :| 0 <= i < |eligible| && eligible[i].endpointID == row.endpointID;
      GroupsComplete(variants, runs, n, dimensions, |runs|, i, other.geneIndex);
      assert eligible[i] in eligible;
      var g :| 0 <= g < |runs| && runs[g].geneIndex == other.geneIndex;
      assert runs[g] in runs;
    }
  }
}
