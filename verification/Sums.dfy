/** Sums of natural-number weights over finite sets of keys. */
module Sums {

  /** The total weight of the keys in s. */
  ghost function SumOver<K(!new)>(s: set<K>, w: map<K, nat>): nat
    requires s <= w.Keys
  {
    if s == {} then 0 else
      var x :| x in s;
      w[x] + SumOver(s - {x}, w)
  }

  /** Any member can be split off first. */
  lemma {:induction false} SplitOff<K(!new)>(s: set<K>, w: map<K, nat>, x: K)
    requires s <= w.Keys && x in s
    ensures SumOver(s, w) == w[x] + SumOver(s - {x}, w)
    decreases |s|
  {
    var y :| y in s && SumOver(s, w) == w[y] + SumOver(s - {y}, w);
    if x != y {
      SplitOff(s - {y}, w, x);
      SplitOff(s - {x}, w, y);
      assert s - {y} - {x} == s - {x} - {y};
    }
  }

  /** Weights outside s do not matter. */
  lemma {:induction false} SameWeights<K(!new)>(s: set<K>, v: map<K, nat>, w: map<K, nat>)
    requires s <= v.Keys && s <= w.Keys && forall x :: x in s ==> v[x] == w[x]
    ensures SumOver(s, v) == SumOver(s, w)
    decreases |s|
  {
    if s != {} {
      var x :| x in s;
      SplitOff(s, v, x);
      SplitOff(s, w, x);
      SameWeights(s - {x}, v, w);
    }
  }

  /** Dropping keys of weight zero keeps the sum. */
  lemma {:induction false} DropZeros<K(!new)>(s: set<K>, t: set<K>, w: map<K, nat>)
    requires t <= s <= w.Keys && forall x :: x in s - t ==> w[x] == 0
    ensures SumOver(s, w) == SumOver(t, w)
    decreases |s - t|
  {
    if s - t != {} {
      var x :| x in s - t;
      SplitOff(s, w, x);
      assert s - {x} - t == s - t - {x};
      DropZeros(s - {x}, t, w);
    } else {
      assert s == t;
    }
  }

  /** Adding one unit at a key of s, or a new key of weight one, adds one to the sum. */
  lemma Increment<K(!new)>(w: map<K, nat>, x: K, old': nat)
    requires old' == if x in w then w[x] else 0
    ensures SumOver(w[x := old' + 1].Keys, w[x := old' + 1]) == SumOver(w.Keys, w) + 1
  {
    var w' := w[x := old' + 1];
    SplitOff(w'.Keys, w', x);
    SameWeights(w'.Keys - {x}, w', w);
    if x in w {
      assert w'.Keys - {x} == w.Keys - {x};
      SplitOff(w.Keys, w, x);
    } else {
      assert w'.Keys - {x} == w.Keys;
    }
  }

  lemma OneMore(k: nat, q: nat)
    requires k > 0
    ensures k * q == (k - 1) * q + q
  {
  }

  lemma Monotone(k: nat, a: nat, b: nat)
    requires a <= b
    ensures k * a <= k * b
  {
  }

  /** Every weight lies between lo and hi, so the sum lies between |s| * lo and |s| * hi. */
  lemma {:induction false} SumBetween<K(!new)>(s: set<K>, w: map<K, nat>, lo: nat, hi: nat)
    requires s <= w.Keys && forall x :: x in s ==> lo <= w[x] <= hi
    ensures |s| * lo <= SumOver(s, w) <= |s| * hi
    decreases |s|
  {
    if s != {} {
      var x :| x in s;
      SplitOff(s, w, x);
      var t := s - {x};
      SumBetween(t, w, lo, hi);
      assert |t| == |s| - 1;
      OneMore(|s|, lo);
      OneMore(|s|, hi);
    }
  }

  /** A key of s whose weight is least. */
  lemma {:induction false} Least<K(!new)>(s: set<K>, w: map<K, nat>) returns (m: K)
    requires s != {} && s <= w.Keys
    ensures m in s && forall x :: x in s ==> w[m] <= w[x]
    decreases |s|
  {
    m :| m in s;
    var rest := s - {m};
    assert s == rest + {m};
    if rest != {} {
      var m' := Least(rest, w);
      if w[m'] < w[m] { m := m'; }
    }
  }

  /** v is the floor or the ceiling of n / k. */
  predicate EvenShare(v: nat, n: nat, k: nat) {
    k > 0 && (v == n / k || v == (n + k - 1) / k)
  }

  /** Weights that never differ by more than one are all the floor or the ceiling of the average. */
  lemma FloorOrCeiling<K(!new)>(s: set<K>, w: map<K, nat>, x: K)
    requires x in s && s <= w.Keys
    requires forall y, z :: y in s && z in s ==> w[y] <= w[z] + 1
    ensures EvenShare(w[x], SumOver(s, w), |s|)
  {
    var m := Least(s, w);
    var lo := w[m];
    WithOne(s, w, lo, m);
    if w[x] != lo { WithOne(s, w, lo, x); }
    Shares(SumOver(s, w), |s|, lo, w[x]);
  }

  lemma Shares(n: nat, k: nat, lo: nat, v: nat)
    requires k > 0 && lo <= v <= lo + 1
    requires k * lo <= n <= k * lo + k - 1
    requires v == lo + 1 ==> k * lo + 1 <= n
    ensures EvenShare(v, n, k)
  {
    if v == lo {
      Quotient(n, k, lo);
    } else {
      OneMore(lo + 1, k);
      Quotient(n + k - 1, k, lo + 1);
    }
  }

  /** The sum, bounded by splitting off one key. */
  lemma WithOne<K(!new)>(s: set<K>, w: map<K, nat>, lo: nat, x: K)
    requires x in s && s <= w.Keys && forall y :: y in s ==> lo <= w[y] <= lo + 1
    ensures |s| * lo + (w[x] - lo) <= SumOver(s, w) <= |s| * lo + |s| - 1 + (w[x] - lo)
  {
    SplitOff(s, w, x);
    SumBetween(s - {x}, w, lo, lo + 1);
    assert |s - {x}| == |s| - 1;
    OneMore(|s|, lo);
    OneMore(|s|, lo + 1);
    OneMore(lo + 1, |s|);
  }

  lemma Quotient(n: nat, k: nat, q: nat)
    requires k > 0 && k * q <= n < k * q + k
    ensures n / k == q
  {
    var d := n / k;
    if d < q {
      Monotone(k, d + 1, q);
    } else if d > q {
      Monotone(k, q + 1, d);
    }
  }
}
