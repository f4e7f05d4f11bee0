/** Blanking the comments of a Lean source (remove_lean_comments in common/tools/gentheorems.py). */
module LeanComments {
  import opened Results

  /** The source has the two characters at position i. */
  predicate Mark(s: string, i: nat, a: char, b: char) {
    i + 1 < |s| && s[i] == a && s[i + 1] == b
  }

  /** The first newline from i on, or the end of the source. */
  function LineEnd(s: string, i: nat): (e: nat)
    requires i <= |s|
    ensures i <= e <= |s| && (e < |s| ==> s[e] == '\n')
    ensures forall j :: i <= j < e ==> s[j] != '\n'
    decreases |s| - i
  {
    if i == |s| || s[i] == '\n' then i else LineEnd(s, i + 1)
  }

  /** The number of backslashes directly before position i. */
  function Backslashes(s: string, i: nat): nat
    requires i <= |s|
  {
    if i > 0 && s[i - 1] == '\\' then Backslashes(s, i - 1) + 1 else 0
  }

  /** Whether position i + 1 is inside a string literal, given whether i is. */
  function QuotedAfter(s: string, i: nat, quoted: bool): bool
    requires i < |s|
  {
    if s[i] == '"' && Backslashes(s, i) % 2 == 0 then !quoted else quoted
  }

  function Blanks(n: nat): (r: string)
    ensures |r| == n && forall j :: 0 <= j < n ==> r[j] == ' '
  {
    seq(n, j => ' ')
  }

  function After(head: string, tail: Option<string>): Option<string> {
    if tail.Some? then Some(head + tail.value) else None
  }

  /** The source from position i on without its comments, at a nesting depth of block comments and inside or
      outside a string literal; nothing if a block comment is left open. */
  function Stripped(s: string, i: nat, depth: nat, quoted: bool): (r: Option<string>)
    requires i <= |s|
    ensures r.Some? ==> |r.value| == |s| - i
    decreases |s| - i
  {
    if i == |s| then if depth == 0 then Some("") else None
    else if depth > 0 then
      if Mark(s, i, '/', '-') then After("  ", Stripped(s, i + 2, depth + 1, quoted))
      else if Mark(s, i, '-', '/') then After("  ", Stripped(s, i + 2, depth - 1, quoted))
      else After(if s[i] == '\n' then "\n" else " ", Stripped(s, i + 1, depth, quoted))
    else if !quoted && Mark(s, i, '-', '-') then
      var e := LineEnd(s, i);
      After(Blanks(e - i), Stripped(s, e, 0, false))
    else if !quoted && Mark(s, i, '/', '-') then After("  ", Stripped(s, i + 2, 1, quoted))
    else After([s[i]], Stripped(s, i + 1, 0, QuotedAfter(s, i, quoted)))
  }

  datatype Error = UnterminatedBlockComment

  function WithoutComments(s: string): Result<string, Error> {
    var r := Stripped(s, 0, 0, false);
    if r.Some? then Success(r.value) else Failure(UnterminatedBlockComment)
  }

  method CountBackslashes(s: string, index: nat) returns (backslashes: nat)
    requires index <= |s|
    ensures backslashes == Backslashes(s, index)
  {
    backslashes := 0;
    var previous := index;
    while previous > 0 && s[previous - 1] == '\\'
      invariant 0 <= previous <= index && backslashes + Backslashes(s, previous) == Backslashes(s, index)
    {
      backslashes, previous := backslashes + 1, previous - 1;
    }
  }

  method RemoveLeanComments(source: string) returns (r: Result<string, Error>)
    ensures r == WithoutComments(source)
  {
    var output, index, blockDepth, inString := "", 0, 0, false;
    AfterNothing(Stripped(source, 0, 0, false));
    while index < |source|
      invariant 0 <= index <= |source| && 0 <= blockDepth
      invariant Stripped(source, 0, 0, false) == After(output, Stripped(source, index, blockDepth, inString))
      decreases |source| - index
    {
      ghost var rest := Stripped(source, index, blockDepth, inString);
      ghost var before := output;
      if blockDepth > 0 {
        if Mark(source, index, '/', '-') {
          blockDepth, output, index := blockDepth + 1, output + "  ", index + 2;
        } else if Mark(source, index, '-', '/') {
          blockDepth, output, index := blockDepth - 1, output + "  ", index + 2;
        } else {
          output := output + if source[index] == '\n' then "\n" else " ";
          index := index + 1;
        }
      } else if !inString && Mark(source, index, '-', '-') {
        var lineEnd := LineEnd(source, index);
        output, index := output + Blanks(lineEnd - index), lineEnd;
      } else if !inString && Mark(source, index, '/', '-') {
        blockDepth, output, index := 1, output + "  ", index + 2;
      } else {
        output := output + [source[index]];
        if source[index] == '"' {
          var backslashes := CountBackslashes(source, index);
          if backslashes % 2 == 0 { inString := !inString; }
        }
        index := index + 1;
      }
      AfterAfter(before, output[|before|..], Stripped(source, index, blockDepth, inString));
      assert output == before + output[|before|..];
    }
    if blockDepth != 0 { return Failure(UnterminatedBlockComment); }
    assert output + "" == output;
    return Success(output);
  }

  lemma AfterNothing(tail: Option<string>)
    ensures After("", tail) == tail
  {
    if tail.Some? { assert "" + tail.value == tail.value; }
  }

  lemma AfterAfter(a: string, b: string, tail: Option<string>)
    ensures After(a, After(b, tail)) == After(a + b, tail)
  {
    if tail.Some? { assert a + (b + tail.value) == (a + b) + tail.value; }
  }

  // ---------- What stays and what goes ----------

  datatype Kind = Code | Literal | Comment

  /** The part of the source that each position from i on belongs to. */
  function Kinds(s: string, i: nat, depth: nat, quoted: bool): (r: seq<Kind>)
    requires i <= |s|
    ensures |r| == |s| - i
    decreases |s| - i
  {
    if i == |s| then []
    else if depth > 0 then
      if Mark(s, i, '/', '-') then [Comment, Comment] + Kinds(s, i + 2, depth + 1, quoted)
      else if Mark(s, i, '-', '/') then [Comment, Comment] + Kinds(s, i + 2, depth - 1, quoted)
      else [Comment] + Kinds(s, i + 1, depth, quoted)
    else if !quoted && Mark(s, i, '-', '-') then
      var e := LineEnd(s, i);
      seq(e - i, j => Comment) + Kinds(s, e, 0, false)
    else if !quoted && Mark(s, i, '/', '-') then [Comment, Comment] + Kinds(s, i + 2, 1, quoted)
    else [if quoted then Literal else Code] + Kinds(s, i + 1, 0, QuotedAfter(s, i, quoted))
  }

  /** One step of the scan: so many positions of a kind, and the mode after them. */
  datatype Step = Step(length: nat, kind: Kind, depth: nat, quoted: bool)

  function StepAt(s: string, i: nat, depth: nat, quoted: bool): (step: Step)
    requires i < |s|
    ensures 0 < step.length <= |s| - i
  {
    if depth > 0 then
      if Mark(s, i, '/', '-') then Step(2, Comment, depth + 1, quoted)
      else if Mark(s, i, '-', '/') then Step(2, Comment, depth - 1, quoted)
      else Step(1, Comment, depth, quoted)
    else if !quoted && Mark(s, i, '-', '-') then Step(LineEnd(s, i) - i, Comment, 0, false)
    else if !quoted && Mark(s, i, '/', '-') then Step(2, Comment, 1, quoted)
    else Step(1, if quoted then Literal else Code, 0, QuotedAfter(s, i, quoted))
  }

  /** The scanned characters: kept, or blanked except for newlines. */
  function Kept(s: string, i: nat, step: Step): (r: string)
    requires i + step.length <= |s|
    ensures |r| == step.length
  {
    seq(step.length, j requires 0 <= j < step.length => if step.kind.Comment? && s[i + j] != '\n' then ' ' else s[i + j])
  }

  lemma StrippedStep(s: string, i: nat, depth: nat, quoted: bool)
    requires i < |s|
    ensures var step := StepAt(s, i, depth, quoted);
            && Stripped(s, i, depth, quoted) == After(Kept(s, i, step), Stripped(s, i + step.length, step.depth, step.quoted))
            && Kinds(s, i, depth, quoted)
               == seq(step.length, j => step.kind) + Kinds(s, i + step.length, step.depth, step.quoted)
  {
    var step := StepAt(s, i, depth, quoted);
    if depth > 0 {
      assert Kept(s, i, step) == if step.length == 2 then "  " else if s[i] == '\n' then "\n" else " ";
    } else if !quoted && Mark(s, i, '-', '-') {
      assert Kept(s, i, step) == Blanks(step.length);
    } else if !quoted && Mark(s, i, '/', '-') {
      assert Kept(s, i, step) == "  ";
    } else {
      assert Kept(s, i, step) == [s[i]];
    }
    assert seq(step.length, j => step.kind) == if step.length == 1 then [step.kind] else if step.length == 2 then [step.kind, step.kind]
      else seq(step.length, j => step.kind);
  }

  /** A position of a comment is blanked unless it is a newline; every other position keeps its character. */
  lemma {:induction false} BlankedFrom(s: string, i: nat, depth: nat, quoted: bool, j: nat)
    requires i <= |s| && Stripped(s, i, depth, quoted).Some? && j < |s| - i
    ensures Stripped(s, i, depth, quoted).value[j]
         == if Kinds(s, i, depth, quoted)[j].Comment? && s[i + j] != '\n' then ' ' else s[i + j]
    decreases |s| - i
  {
    hide Stripped, Kinds, StepAt;
    var step := StepAt(s, i, depth, quoted);
    StrippedStep(s, i, depth, quoted);
    if j >= step.length { BlankedFrom(s, i + step.length, step.depth, step.quoted, j - step.length); }
  }

  /** The result has the length of the source, the same newlines, and code and string literals unchanged;
      everything else that differs was a comment and is a blank now. */
  lemma OnlyCommentsBlanked(s: string, j: nat)
    requires WithoutComments(s).Success? && j < |s|
    ensures var r, kind := WithoutComments(s).value, Kinds(s, 0, 0, false)[j];
            && |r| == |s|
            && (r[j] == '\n' <==> s[j] == '\n')
            && (kind != Comment ==> r[j] == s[j])
            && (kind == Comment && s[j] != '\n' ==> r[j] == ' ')
  {
    BlankedFrom(s, 0, 0, false, j);
  }

  /** The nesting depth of block comments at the end of the source. */
  function EndDepth(s: string, i: nat, depth: nat, quoted: bool): nat
    requires i <= |s|
    decreases |s| - i
  {
    if i == |s| then depth else
      var step := StepAt(s, i, depth, quoted);
      EndDepth(s, i + step.length, step.depth, step.quoted)
  }

  /** A source is refused exactly when a block comment is still open at its end. */
  lemma {:induction false} RefusedWhenOpen(s: string, i: nat, depth: nat, quoted: bool)
    requires i <= |s|
    ensures Stripped(s, i, depth, quoted).None? <==> EndDepth(s, i, depth, quoted) > 0
    decreases |s| - i
  {
    if i < |s| {
      var step := StepAt(s, i, depth, quoted);
      StrippedStep(s, i, depth, quoted);
      RefusedWhenOpen(s, i + step.length, step.depth, step.quoted);
    }
  }

  // ---------- Idempotence ----------

  /** A run of blanks outside strings stays as it is. */
  lemma {:induction false} BlanksStay(r: string, i: nat, e: nat)
    requires i <= e <= |r| && forall j :: i <= j < e ==> r[j] == ' ' || r[j] == '\n'
    requires Stripped(r, e, 0, false) == Some(r[e..])
    ensures Stripped(r, i, 0, false) == Some(r[i..])
    decreases e - i
  {
    if i < e {
      BlanksStay(r, i + 1, e);
      assert r[i..] == [r[i]] + r[i + 1..];
    }
  }

  /** The first character of a stripped rest is the source's own, or blank. */
  lemma FirstCharacter(s: string, i: nat, quoted: bool)
    requires i < |s| && Stripped(s, i, 0, quoted).Some?
    ensures Stripped(s, i, 0, quoted).value[0] == s[i] || Stripped(s, i, 0, quoted).value[0] == ' '
  {
  }

  /** Scanning the result sees the quotes of the source alike: before the position the two have equally many
      backslashes, unless the position is behind a line comment, where no quote can be. */
  predicate SameEscapes(s: string, r: string, i: nat)
    requires i <= |s| == |r|
  {
    Backslashes(s, i) == Backslashes(r, i) || i == |s| || s[i] == '\n'
  }

  /** After a step the two scans still see quotes alike. */
  lemma EscapesAfterComment(s: string, r: string, i: nat, depth: nat, quoted: bool)
    requires i < |s| == |r| && StepAt(s, i, depth, quoted).kind.Comment? && (depth > 0 ==> !quoted)
    requires var step := StepAt(s, i, depth, quoted); r[i..i + step.length] == Kept(s, i, step)
    ensures var step := StepAt(s, i, depth, quoted);
            !step.quoted && !quoted && (step.depth == 0 ==> SameEscapes(s, r, i + step.length))
  {
    var step := StepAt(s, i, depth, quoted);
    if step.depth == 0 && depth > 0 { assert r[i + 1] == r[i..i + 2][1] == ' '; }
  }

  lemma {:induction false} StrippedAgain(s: string, r: string, i: nat, depth: nat, quoted: bool)
    requires i <= |s| == |r| && Stripped(s, i, depth, quoted) == Some(r[i..])
    requires (depth > 0 ==> !quoted) && (depth == 0 ==> SameEscapes(s, r, i))
    ensures Stripped(r, i, 0, quoted) == Some(r[i..])
    decreases |s| - i
  {
    hide StepAt, SameEscapes, Kinds;
    if i == |s| {
      assert r[i..] == "";
    } else {
      var step := StepAt(s, i, depth, quoted);
      var e := i + step.length;
      StrippedStep(s, i, depth, quoted);
      var kept, rest := Kept(s, i, step), Stripped(s, e, step.depth, step.quoted).value;
      assert r[i..] == kept + rest;
      assert r[i..e] == (kept + rest)[..step.length] == kept && r[e..] == (kept + rest)[step.length..] == rest;
      if step.kind.Comment? {
        EscapesAfterComment(s, r, i, depth, quoted);
        StrippedAgain(s, r, e, step.depth, step.quoted);
        forall j | i <= j < e ensures r[j] == ' ' || r[j] == '\n' { assert r[j] == Kept(s, i, step)[j - i]; }
        BlanksStay(r, i, e);
      } else {
        CodeStep(s, i, depth, quoted);
        CodeAgain(s, r, i, quoted);
      }
    }
  }

  lemma CodeStep(s: string, i: nat, depth: nat, quoted: bool)
    requires i < |s| && !StepAt(s, i, depth, quoted).kind.Comment?
    ensures depth == 0 && (quoted || !(Mark(s, i, '-', '-') || Mark(s, i, '/', '-')))
  {
  }

  lemma CodeAgain(s: string, r: string, i: nat, quoted: bool)
    requires i < |s| == |r| && Stripped(s, i, 0, quoted) == Some(r[i..]) && SameEscapes(s, r, i)
    requires quoted || !(Mark(s, i, '-', '-') || Mark(s, i, '/', '-'))
    ensures Stripped(r, i, 0, quoted) == Some(r[i..])
    decreases |s| - i, 0
  {
    var quoted' := QuotedAfter(s, i, quoted);
    assert r[i] == r[i..][0] == s[i];
    assert r[i + 1..] == r[i..][1..];
    assert Stripped(s, i + 1, 0, quoted') == Some(r[i + 1..]);
    StrippedAgain(s, r, i + 1, 0, quoted');
    if i + 1 < |s| {
      FirstCharacter(s, i + 1, quoted');
      assert r[i + 1] == r[i + 1..][0];
    }
    assert r[i..] == [r[i]] + r[i + 1..];
  }

  /** Removing comments a second time changes nothing, on every source that is accepted. */
  lemma RemovingTwice(s: string)
    requires WithoutComments(s).Success?
    ensures WithoutComments(WithoutComments(s).value) == WithoutComments(s)
  {
    var r := WithoutComments(s).value;
    assert r[0..] == r;
    StrippedAgain(s, r, 0, 0, false);
  }

  /** A double quote opens or closes a string literal exactly when the run of backslashes before it has even length. */
  lemma {:induction false} BackslashRun(s: string, i: nat, n: nat)
    requires n <= i <= |s| && (forall j :: i - n <= j < i ==> s[j] == '\\') && (i > n ==> s[i - n - 1] != '\\')
    ensures Backslashes(s, i) == n
  {
    if n > 0 { BackslashRun(s, i - 1, n - 1); }
  }

  lemma QuotesToggle(s: string, i: nat, n: nat, quoted: bool)
    requires n <= i < |s| && (forall j :: i - n <= j < i ==> s[j] == '\\') && (i > n ==> s[i - n - 1] != '\\')
    ensures QuotedAfter(s, i, quoted) != quoted <==> s[i] == '"' && n % 2 == 0
  {
    BackslashRun(s, i, n);
  }
}
