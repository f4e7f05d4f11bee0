/**
 The few string operations the procedures rely on: trimming, lower-casing, joining,
 splitting at a separator, and decimal numerals.
 */
module Text {

  /** The character ranges that Go's unicode.IsSpace accepts. */
  const WHITE_SPACE: seq<(char, char)> := [
    ('\U{0009}', '\U{000D}'), (' ', ' '), ('\U{0085}', '\U{0085}'), ('\U{00A0}', '\U{00A0}'),
    ('\U{1680}', '\U{1680}'), ('\U{2000}', '\U{200A}'), ('\U{2028}', '\U{2029}'),
    ('\U{202F}', '\U{202F}'), ('\U{205F}', '\U{205F}'), ('\U{3000}', '\U{3000}')]

  predicate InRanges(c: char, ranges: seq<(char, char)>) {
    ranges != [] && (ranges[0].0 <= c <= ranges[0].1 || InRanges(c, ranges[1..]))
  }

  predicate IsSpace(c: char) {
    InRanges(c, WHITE_SPACE)
  }

  lemma {:induction false} OutsideRanges(c: char, ranges: seq<(char, char)>)
    requires forall k :: 0 <= k < |ranges| ==> !(ranges[k].0 <= c <= ranges[k].1)
    ensures !InRanges(c, ranges)
  {
    if ranges != [] { OutsideRanges(c, ranges[1..]); }
  }

  /** The first position from i on that holds no white space. */
  function SkipForward(s: string, i: nat): (r: nat)
    requires i <= |s|
    ensures i <= r <= |s| && (r < |s| ==> !IsSpace(s[r]))
    decreases |s| - i
  {
    if i < |s| && IsSpace(s[i]) then SkipForward(s, i + 1) else i
  }

  /** The end of s[..j] without its trailing white space. */
  function SkipBackward(s: string, j: nat): (r: nat)
    requires j <= |s|
    ensures r <= j && (r > 0 ==> !IsSpace(s[r - 1]))
  {
    if j > 0 && IsSpace(s[j - 1]) then SkipBackward(s, j - 1) else j
  }

  function TrimSpace(s: string): string {
    var start, end := SkipForward(s, 0), SkipBackward(s, |s|);
    if start < end then s[start..end] else ""
  }

  /** No white space at either end. */
  predicate Trimmed(s: string) {
    s != "" ==> !IsSpace(s[0]) && !IsSpace(s[|s| - 1])
  }

  predicate IsBlank(s: string) {
    TrimSpace(s) == ""
  }

  /** Trimming removes only white space, from both ends. */
  lemma TrimSpaceTrims(s: string)
    ensures Trimmed(TrimSpace(s))
    ensures Trimmed(s) ==> TrimSpace(s) == s
    ensures TrimSpace(TrimSpace(s)) == TrimSpace(s)
  {
    assert forall t: string :: Trimmed(t) ==> TrimSpace(t) == t;
  }

  lemma {:induction false} SkippedForward(s: string, i: nat)
    requires i <= |s|
    ensures forall k :: i <= k < SkipForward(s, i) ==> IsSpace(s[k])
    decreases |s| - i
  {
    hide IsSpace;
    if i < |s| && IsSpace(s[i]) { SkippedForward(s, i + 1); }
  }

  lemma {:induction false} SkippedBackward(s: string, j: nat)
    requires j <= |s|
    ensures forall k :: SkipBackward(s, j) <= k < j ==> IsSpace(s[k])
  {
    hide IsSpace;
    if j > 0 && IsSpace(s[j - 1]) { SkippedBackward(s, j - 1); }
  }

  /** Only white space is removed, and only at the ends. */
  lemma TrimSpaceKeeps(s: string) returns (start: nat, end: nat)
    ensures start <= end <= |s| && TrimSpace(s) == s[start..end]
    ensures forall k :: 0 <= k < start || end <= k < |s| ==> IsSpace(s[k])
  {
    hide IsSpace;
    SkippedForward(s, 0);
    SkippedBackward(s, |s|);
    start, end := SkipForward(s, 0), SkipBackward(s, |s|);
    if start >= end { start, end := |s|, |s|; }
  }

  function LowerChar(c: char): char {
    if 'A' <= c <= 'Z' then c + ('a' - 'A') else c
  }

  lemma LowerCharSpace(c: char)
    ensures IsSpace(LowerChar(c)) <==> IsSpace(c)
  {
    if 'A' <= c <= 'Z' {
      OutsideRanges(c, WHITE_SPACE);
      OutsideRanges(LowerChar(c), WHITE_SPACE);
    }
  }

  function ToLower(s: string): (r: string)
    ensures |r| == |s|
    ensures forall i :: 0 <= i < |s| ==> r[i] == LowerChar(s[i])
  {
    seq(|s|, i requires 0 <= i < |s| => LowerChar(s[i]))
  }

  /** Endpoint names are compared after trimming and lower-casing. */
  function Normalize(endpoint: string): string {
    ToLower(TrimSpace(endpoint))
  }

  /** The same character, or the same letter of the alphabet in the other case. */
  predicate SameLetter(c: char, d: char) {
    || c == d
    || ('A' <= c <= 'Z' && d as int == c as int + 32)
    || ('A' <= d <= 'Z' && c as int == d as int + 32)
  }

  lemma LowerSame(c: char, d: char)
    ensures LowerChar(c) == LowerChar(d) <==> SameLetter(c, d)
  {
  }

  /** Two names are the same up to surrounding white space and the case of letters. */
  lemma NormalizeSame(a: string, b: string)
    ensures Normalize(a) == Normalize(b) <==>
      |TrimSpace(a)| == |TrimSpace(b)| && forall i :: 0 <= i < |TrimSpace(a)| ==> SameLetter(TrimSpace(a)[i], TrimSpace(b)[i])
  {
    hide TrimSpace, LowerChar, SameLetter;
    var s, t := TrimSpace(a), TrimSpace(b);
    if |s| == |t| {
      forall i | 0 <= i < |s| ensures ToLower(s)[i] == ToLower(t)[i] <==> SameLetter(s[i], t[i]) { LowerSame(s[i], t[i]); }
    }
  }

  lemma NormalizeIdempotent(s: string)
    ensures Normalize(Normalize(s)) == Normalize(s)
  {
    var n := Normalize(s);
    var t := TrimSpace(s);
    TrimSpaceTrims(s);
    if t != "" {
      LowerCharSpace(t[0]);
      LowerCharSpace(t[|t| - 1]);
    }
    assert Trimmed(n);
    TrimSpaceTrims(n);
    assert ToLower(n) == n;
  }

  function Digit(d: nat): char
    requires d < 10
  {
    ['0', '1', '2', '3', '4', '5', '6', '7', '8', '9'][d]
  }

  /** The decimal numeral of n. */
  function Decimal(n: nat): (r: string)
    ensures r != ""
  {
    if n < 10 then [Digit(n)] else Decimal(n / 10) + [Digit(n % 10)]
  }

  /** The number that a text of digits stands for. */
  function NumberOf(s: string): int {
    if s == "" then 0 else 10 * NumberOf(s[..|s| - 1]) + (s[|s| - 1] as int - '0' as int)
  }

  /** A numeral consists of digits, stands for its number, and has no leading zero. */
  lemma {:induction false} DecimalStandsFor(n: nat)
    ensures NumberOf(Decimal(n)) == n && forall i :: 0 <= i < |Decimal(n)| ==> '0' <= Decimal(n)[i] <= '9'
    ensures n > 0 ==> Decimal(n)[0] != '0'
  {
    if n < 10 {
      assert Decimal(n)[..0] == "";
    } else {
      DecimalStandsFor(n / 10);
      assert Decimal(n)[..|Decimal(n)| - 1] == Decimal(n / 10);
    }
  }

  lemma {:induction false} DecimalInjective(m: nat, n: nat)
    requires Decimal(m) == Decimal(n)
    ensures m == n
  {
    var a, b := Decimal(m), Decimal(n);
    assert a[|a| - 1] == Digit(m % 10) && b[|b| - 1] == Digit(n % 10);
    if m >= 10 && n >= 10 {
      assert Decimal(m / 10) == a[..|a| - 1] && Decimal(n / 10) == b[..|b| - 1];
      DecimalInjective(m / 10, n / 10);
    }
  }
}
