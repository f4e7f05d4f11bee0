/**
 The arithmetic of largest-first greedy scheduling: jobs with positive sizes are assigned one by one,
 largest first, to a machine whose load is least at that moment.
 */
module Scheduling {

  /** The load of machine p after the first k jobs. */
  function Load(jobs: seq<nat>, a: seq<nat>, p: nat, k: nat): (r: nat)
    requires k <= |jobs| && k <= |a|
  {
    if k == 0 then 0 else Load(jobs, a, p, k - 1) + if a[k - 1] == p then jobs[k - 1] else 0
  }

  /** The total size of the first k jobs. */
  function Total(jobs: seq<nat>, k: nat): nat
    requires k <= |jobs|
  {
    if k == 0 then 0 else Total(jobs, k - 1) + jobs[k - 1]
  }

  /** The loads of machines 0 to m-1 added up. */
  function TotalLoad(jobs: seq<nat>, a: seq<nat>, m: nat, k: nat): nat
    requires k <= |jobs| && k <= |a|
  {
    if m == 0 then 0 else TotalLoad(jobs, a, m - 1, k) + Load(jobs, a, m - 1, k)
  }

  predicate IsAssignment(jobs: seq<nat>, a: seq<nat>, m: nat) {
    |a| == |jobs| && forall j :: 0 <= j < |a| ==> a[j] < m
  }

  /** Each job went to a machine whose load was least when it was assigned. */
  predicate Greedy(jobs: seq<nat>, a: seq<nat>, m: nat) {
    IsAssignment(jobs, a, m) && forall j :: 0 <= j < |a| ==> LeastLoaded(jobs, a, m, j)
  }

  predicate LeastLoaded(jobs: seq<nat>, a: seq<nat>, m: nat, j: nat)
    requires j < |jobs| && j < |a|
  {
    forall p :: 0 <= p < m ==> Load(jobs, a, a[j], j) <= Load(jobs, a, p, j)
  }

  predicate LargestFirst(jobs: seq<nat>) {
    forall i, j :: 0 <= i < j < |jobs| ==> jobs[i] >= jobs[j]
  }

  predicate Positive(jobs: seq<nat>) {
    forall j :: 0 <= j < |jobs| ==> jobs[j] > 0
  }

  /** No machine is loaded beyond the bound. */
  predicate Within(jobs: seq<nat>, a: seq<nat>, m: nat, bound: nat)
    requires |a| == |jobs|
  {
    forall p :: 0 <= p < m ==> Load(jobs, a, p, |jobs|) <= bound
  }

  // ---------- Loads and totals ----------

  lemma {:induction false} TotalLoadStep(jobs: seq<nat>, a: seq<nat>, m: nat, k: nat)
    requires 0 < k <= |jobs| && k <= |a|
    ensures TotalLoad(jobs, a, m, k) == TotalLoad(jobs, a, m, k - 1) + if a[k - 1] < m then jobs[k - 1] else 0
  {
    if m > 0 { TotalLoadStep(jobs, a, m - 1, k); }
  }

  /** Every job is on exactly one machine. */
  lemma {:induction false} LoadsAddUp(jobs: seq<nat>, a: seq<nat>, m: nat, k: nat)
    requires IsAssignment(jobs, a, m) && k <= |jobs|
    ensures TotalLoad(jobs, a, m, k) == Total(jobs, k)
  {
    if k == 0 {
      NoLoad(jobs, a, m);
    } else {
      TotalLoadStep(jobs, a, m, k);
      LoadsAddUp(jobs, a, m, k - 1);
    }
  }

  lemma {:induction false} NoLoad(jobs: seq<nat>, a: seq<nat>, m: nat)
    ensures TotalLoad(jobs, a, m, 0) == 0
  {
    if m > 0 { NoLoad(jobs, a, m - 1); }
  }

  lemma {:induction false} LoadMonotone(jobs: seq<nat>, a: seq<nat>, p: nat, k: nat, n: nat)
    requires k <= n <= |jobs| && n <= |a|
    ensures Load(jobs, a, p, k) <= Load(jobs, a, p, n)
    decreases n
  {
    if k < n { LoadMonotone(jobs, a, p, k, n - 1); }
  }

  /** m machines loaded with at least lo each carry at least m * lo in total. */
  lemma {:induction false} TotalAtLeast(jobs: seq<nat>, a: seq<nat>, m: nat, k: nat, lo: nat)
    requires k <= |jobs| && k <= |a| && forall p :: 0 <= p < m ==> lo <= Load(jobs, a, p, k)
    ensures m * lo <= TotalLoad(jobs, a, m, k)
  {
    if m > 0 {
      TotalAtLeast(jobs, a, m - 1, k, lo);
      assert m * lo == (m - 1) * lo + lo;
    }
  }

  /** m machines loaded with at most hi each carry at most m * hi in total. */
  lemma {:induction false} TotalAtMost(jobs: seq<nat>, a: seq<nat>, m: nat, k: nat, hi: nat)
    requires k <= |jobs| && k <= |a| && forall p :: 0 <= p < m ==> Load(jobs, a, p, k) <= hi
    ensures TotalLoad(jobs, a, m, k) <= m * hi
  {
    if m > 0 {
      TotalAtMost(jobs, a, m - 1, k, hi);
      assert m * hi == (m - 1) * hi + hi;
    }
  }

  lemma {:induction false} LoadOfPrefix(jobs: seq<nat>, a: seq<nat>, b: seq<nat>, p: nat, k: nat)
    requires k <= |jobs| && k <= |a| && k <= |b| && forall j :: 0 <= j < k ==> a[j] == b[j]
    ensures Load(jobs, a, p, k) == Load(jobs, b, p, k)
  {
    if k > 0 { LoadOfPrefix(jobs, a, b, p, k - 1); }
  }

  lemma LoadAppend(jobs: seq<nat>, a: seq<nat>, x: nat, p: nat)
    requires |a| < |jobs|
    ensures Load(jobs, a + [x], p, |a| + 1) == Load(jobs, a, p, |a|) + if x == p then jobs[|a|] else 0
  {
    LoadOfPrefix(jobs, a, a + [x], p, |a|);
  }

  // ---------- No machine stays empty ----------

  /** Count jobs instead of their sizes. */
  function Ones(jobs: seq<nat>): (r: seq<nat>)
    ensures |r| == |jobs|
  {
    seq(|jobs|, j => 1)
  }

  lemma {:induction false} CountOfLoad(jobs: seq<nat>, a: seq<nat>, p: nat, k: nat)
    requires Positive(jobs) && k <= |jobs| && k <= |a|
    ensures Load(Ones(jobs), a, p, k) == 0 <==> Load(jobs, a, p, k) == 0
    ensures Total(Ones(jobs), k) == k
  {
    if k > 0 { CountOfLoad(jobs, a, p, k - 1); }
  }

  /** While some machine is empty, greedy never puts a second job on any machine. */
  lemma {:induction false} OneEach(jobs: seq<nat>, a: seq<nat>, m: nat, k: nat, p: nat, idle: nat)
    requires Greedy(jobs, a, m) && Positive(jobs) && k <= |jobs| && idle < m
    requires k > 0 ==> Load(jobs, a, idle, k - 1) == 0
    ensures Load(Ones(jobs), a, p, k) <= 1
  {
    if k > 0 {
      LoadMonotone(jobs, a, idle, if k > 1 then k - 2 else 0, k - 1);
      OneEach(jobs, a, m, k - 1, p, idle);
      assert LeastLoaded(jobs, a, m, k - 1);
      CountOfLoad(jobs, a, a[k - 1], k - 1);
    }
  }

  lemma {:induction false} TotalWithIdle(jobs: seq<nat>, a: seq<nat>, m: nat, k: nat, idle: nat)
    requires k <= |jobs| && k <= |a| && idle < m && Load(jobs, a, idle, k) == 0
    requires forall p :: 0 <= p < m ==> Load(jobs, a, p, k) <= 1
    ensures TotalLoad(jobs, a, m, k) <= m - 1
  {
    if idle < m - 1 {
      TotalWithIdle(jobs, a, m - 1, k, idle);
    } else {
      TotalAtMost(jobs, a, m - 1, k, 1);
    }
  }

  /** With at least as many jobs as machines, every machine gets a job. */
  lemma NoMachineEmpty(jobs: seq<nat>, a: seq<nat>, m: nat, idle: nat)
    requires Greedy(jobs, a, m) && Positive(jobs) && m <= |jobs| && idle < m
    ensures Load(jobs, a, idle, |jobs|) > 0
  {
    var n := |jobs|;
    if Load(jobs, a, idle, n) == 0 {
      LoadMonotone(jobs, a, idle, n - 1, n);
      forall p | 0 <= p < m ensures Load(Ones(jobs), a, p, n) <= 1 { OneEach(jobs, a, m, n, p, idle); }
      CountOfLoad(jobs, a, idle, n);
      TotalWithIdle(Ones(jobs), a, m, n, idle);
      LoadsAddUp(Ones(jobs), a, m, n);
    }
  }

  /** Some machine is empty while fewer jobs than machines have been assigned. */
  lemma IdleMachine(jobs: seq<nat>, a: seq<nat>, m: nat, k: nat) returns (idle: nat)
    requires IsAssignment(jobs, a, m) && Positive(jobs) && k < m && k <= |jobs|
    ensures idle < m && Load(jobs, a, idle, k) == 0
  {
    if forall p :: 0 <= p < m ==> 1 <= Load(Ones(jobs), a, p, k) {
      TotalAtLeast(Ones(jobs), a, m, k, 1);
      LoadsAddUp(Ones(jobs), a, m, k);
      CountOfLoad(jobs, a, 0, k);
      assert false;
    }
    idle :| 0 <= idle < m && Load(Ones(jobs), a, idle, k) < 1;
    CountOfLoad(jobs, a, idle, k);
  }

  /** With no more jobs than machines, each machine runs at most one job. */
  lemma AtMostOneEach(jobs: seq<nat>, a: seq<nat>, m: nat, p: nat)
    requires Greedy(jobs, a, m) && Positive(jobs) && |jobs| <= m
    ensures Load(Ones(jobs), a, p, |jobs|) <= 1
  {
    if |jobs| > 0 {
      var idle := IdleMachine(jobs, a, m, |jobs| - 1);
      OneEach(jobs, a, m, |jobs|, p, idle);
    }
  }

  // ---------- Balance ----------

  /** The last job on a machine, when it has one. */
  lemma {:induction false} LastJob(jobs: seq<nat>, a: seq<nat>, p: nat, n: nat) returns (k: nat)
    requires n <= |jobs| && n <= |a| && Load(jobs, a, p, n) > 0
    ensures k < n && a[k] == p && Load(jobs, a, p, n) == Load(jobs, a, p, k) + jobs[k]
  {
    if a[n - 1] == p && jobs[n - 1] > 0 {
      k := n - 1;
    } else {
      k := LastJob(jobs, a, p, n - 1);
    }
  }

  /** The loads of any two machines differ by at most the largest job. */
  lemma LoadsClose(jobs: seq<nat>, a: seq<nat>, m: nat, p: nat, q: nat)
    requires Greedy(jobs, a, m) && LargestFirst(jobs) && p < m && q < m && |jobs| > 0
    ensures Load(jobs, a, p, |jobs|) <= Load(jobs, a, q, |jobs|) + jobs[0]
  {
    if Load(jobs, a, p, |jobs|) > 0 {
      var k := LastJob(jobs, a, p, |jobs|);
      assert LeastLoaded(jobs, a, m, k);
      LoadMonotone(jobs, a, q, k, |jobs|);
    }
  }

  // ---------- The approximation bound ----------

  /** Job k and its predecessors, weighted 2 if too large to share a machine with job k within opt. */
  function Weights(jobs: seq<nat>, k: nat, opt: nat): (r: seq<nat>)
    requires k < |jobs|
    ensures |r| == |jobs|
  {
    seq(|jobs|, j requires 0 <= j < |jobs| => if j < k && jobs[j] + jobs[k] > opt then 2 else 1)
  }

  /** Within opt, a machine of any schedule carries weight at most 2, when job k is the smallest of the
      jobs 0 to k and exceeds a third of opt. */
  lemma {:induction false} WeightAtMostTwo(jobs: seq<nat>, b: seq<nat>, q: nat, k: nat, opt: nat, j: nat)
    requires LargestFirst(jobs) && k < |jobs| == |b| && j <= k + 1
    requires 3 * jobs[k] > opt && Load(jobs, b, q, j) <= opt
    ensures var w := Load(Weights(jobs, k, opt), b, q, j);
            && w <= 2
            && (w >= 1 ==> Load(jobs, b, q, j) >= jobs[k])
            && (w == 2 ==> Load(jobs, b, q, j) + jobs[k] > opt)
  {
    if j > 0 { WeightAtMostTwo(jobs, b, q, k, opt, j - 1); }
  }

  /** A machine that cannot take job k within opt carries weight at least 2. */
  lemma {:induction false} WeightAtLeastTwo(jobs: seq<nat>, a: seq<nat>, p: nat, k: nat, opt: nat, j: nat)
    requires j <= k < |jobs| == |a|
    ensures var w := Load(Weights(jobs, k, opt), a, p, j);
            && (w == 0 ==> Load(jobs, a, p, j) == 0)
            && (w == 1 ==> Load(jobs, a, p, j) + jobs[k] <= opt)
  {
    if j > 0 { WeightAtLeastTwo(jobs, a, p, k, opt, j - 1); }
  }

  /** A schedule within opt has at most twice as much weight as machines. */
  lemma WeightWithin(jobs: seq<nat>, b: seq<nat>, m: nat, k: nat, opt: nat)
    requires IsAssignment(jobs, b, m) && LargestFirst(jobs) && k < |jobs|
    requires Within(jobs, b, m, opt) && 3 * jobs[k] > opt
    ensures Total(Weights(jobs, k, opt), k + 1) <= 2 * m
  {
    var w, n := Weights(jobs, k, opt), k + 1;
    forall q | 0 <= q < m ensures Load(w, b, q, n) <= 2 {
      LoadMonotone(jobs, b, q, n, |jobs|);
      WeightAtMostTwo(jobs, b, q, k, opt, n);
    }
    TotalAtMost(w, b, m, n, 2);
    LoadsAddUp(w, b, m, n);
  }

  /** If greedy cannot place job k within opt, its machines already carry twice their number in weight. */
  lemma WeightBeyond(jobs: seq<nat>, a: seq<nat>, m: nat, k: nat, opt: nat)
    requires Greedy(jobs, a, m) && k < |jobs| && jobs[k] <= opt && Load(jobs, a, a[k], k) + jobs[k] > opt
    ensures Total(Weights(jobs, k, opt), k) >= 2 * m
  {
    var w := Weights(jobs, k, opt);
    assert LeastLoaded(jobs, a, m, k);
    forall p | 0 <= p < m ensures 2 <= Load(w, a, p, k) { WeightAtLeastTwo(jobs, a, p, k, opt, k); }
    TotalAtLeast(w, a, m, k, 2);
    LoadsAddUp(w, a, m, k);
  }

  /** A job larger than a third of the best possible bound is finished by greedy within that bound. */
  lemma LargeJobFits(jobs: seq<nat>, a: seq<nat>, b: seq<nat>, m: nat, k: nat, opt: nat)
    requires Greedy(jobs, a, m) && IsAssignment(jobs, b, m) && LargestFirst(jobs)
    requires k < |jobs| && Within(jobs, b, m, opt) && 3 * jobs[k] > opt
    ensures Load(jobs, a, a[k], k) + jobs[k] <= opt
  {
    LoadMonotone(jobs, b, b[k], k + 1, |jobs|);
    assert Load(jobs, b, b[k], |jobs|) <= opt;
    WeightWithin(jobs, b, m, k, opt);
    if Load(jobs, a, a[k], k) + jobs[k] > opt { WeightBeyond(jobs, a, m, k, opt); }
  }

  /** The load that job k meets, averaged over all machines. */
  lemma AverageBound(jobs: seq<nat>, a: seq<nat>, b: seq<nat>, m: nat, k: nat, opt: nat)
    requires Greedy(jobs, a, m) && IsAssignment(jobs, b, m) && k < |jobs| && Within(jobs, b, m, opt)
    ensures m * Load(jobs, a, a[k], k) + jobs[k] <= m * opt
  {
    assert LeastLoaded(jobs, a, m, k);
    TotalAtLeast(jobs, a, m, k, Load(jobs, a, a[k], k));
    LoadsAddUp(jobs, a, m, k);
    var n := k + 1;
    forall q | 0 <= q < m ensures Load(jobs, b, q, n) <= opt { LoadMonotone(jobs, b, q, n, |jobs|); }
    TotalAtMost(jobs, b, m, n, opt);
    LoadsAddUp(jobs, b, m, n);
  }

  /** The load is at most 4/3 - 1/(3m) times opt. */
  predicate WithinBound(m: nat, load: nat, opt: nat) {
    3 * m * load <= (4 * m - 1) * opt
  }

  /** Graham's bound: greedy largest-first is within 4/3 - 1/(3m) of every other schedule. */
  lemma LargestFirstBound(jobs: seq<nat>, a: seq<nat>, b: seq<nat>, m: nat, p: nat, opt: nat)
    requires Greedy(jobs, a, m) && IsAssignment(jobs, b, m) && LargestFirst(jobs)
    requires p < m && Within(jobs, b, m, opt)
    ensures WithinBound(m, Load(jobs, a, p, |jobs|), opt)
  {
    if Load(jobs, a, p, |jobs|) > 0 {
      var k := LastJob(jobs, a, p, |jobs|);
      AverageBound(jobs, a, b, m, k, opt);
      if 3 * jobs[k] > opt { LargeJobFits(jobs, a, b, m, k, opt); }
      BoundArithmetic(m, Load(jobs, a, p, k), jobs[k], opt);
    } else {
      assert 3 * m * Load(jobs, a, p, |jobs|) == 0;
    }
  }

  lemma Scaled(c: nat, x: nat, y: nat)
    requires x <= y
    ensures c * x <= c * y
  {
  }

  lemma BoundArithmetic(m: nat, load: nat, job: nat, opt: nat)
    requires m > 0 && m * load + job <= m * opt
    requires 3 * job > opt ==> load + job <= opt
    ensures 3 * m * (load + job) <= (4 * m - 1) * opt
  {
    if 3 * job > opt {
      Scaled(3 * m, load + job, opt);
      Scaled(opt, 3 * m, 4 * m - 1);
    } else {
      Scaled(m - 1, 3 * job, opt);
      SplitProduct(m, load, job);
    }
  }

  lemma SplitProduct(m: nat, load: nat, job: nat)
    requires m > 0
    ensures 3 * m * (load + job) == 3 * (m * load + job) + (m - 1) * (3 * job)
  {
  }

  /** A single job per machine is optimal on any number of machines. */
  lemma {:induction false} SingleJobBound(jobs: seq<nat>, a: seq<nat>, b: seq<nat>, c: nat, p: nat, k: nat, opt: nat)
    requires k <= |jobs| == |a| && IsAssignment(jobs, b, c) && Within(jobs, b, c, opt)
    requires Load(Ones(jobs), a, p, k) <= 1
    ensures Load(jobs, a, p, k) <= opt
    ensures Load(Ones(jobs), a, p, k) == 0 ==> Load(jobs, a, p, k) == 0
  {
    if k > 0 {
      SingleJobBound(jobs, a, b, c, p, k - 1, opt);
      LoadMonotone(jobs, b, b[k - 1], k, |jobs|);
    }
  }

  /** The bound also holds against schedules on more machines, once every job has a machine of its own. */
  lemma BoundAtAnyWidth(jobs: seq<nat>, a: seq<nat>, b: seq<nat>, m: nat, c: nat, p: nat, opt: nat)
    requires Greedy(jobs, a, m) && LargestFirst(jobs) && Positive(jobs) && p < m
    requires m == c || (m == |jobs| && m < c)
    requires IsAssignment(jobs, b, c) && Within(jobs, b, c, opt)
    ensures WithinBound(m, Load(jobs, a, p, |jobs|), opt)
  {
    if m == c {
      LargestFirstBound(jobs, a, b, m, p, opt);
    } else {
      AtMostOneEach(jobs, a, m, p);
      SingleJobBound(jobs, a, b, c, p, |jobs|, opt);
      Scaled(3 * m, Load(jobs, a, p, |jobs|), opt);
      Scaled(opt, 3 * m, 4 * m - 1);
    }
  }
}
