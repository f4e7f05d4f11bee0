/** Unpadded base64url (section 5 of RFC 4648), with a decoder as tolerant as Go's RawURLEncoding: it skips line
    breaks and ignores the unused bits of the last character. */
module Base64Url {
  import opened Results

  type Byte = b: int | 0 <= b < 256
  type Sextet = x: int | 0 <= x < 64

  /** A to Z, a to z, 0 to 9, then - and _. */
  function Char(x: Sextet): char {
    if x < 26 then 'A' + x as char
    else if x < 52 then 'a' + (x - 26) as char
    else if x < 62 then '0' + (x - 52) as char
    else if x == 62 then '-'
    else '_'
  }

  function Value(c: char): Option<Sextet> {
    if 'A' <= c <= 'Z' then Some((c - 'A') as int)
    else if 'a' <= c <= 'z' then Some((c - 'a') as int + 26)
    else if '0' <= c <= '9' then Some((c - '0') as int + 52)
    else if c == '-' then Some(62)
    else if c == '_' then Some(63)
    else None
  }

  lemma ValueOfChar(x: Sextet)
    ensures Value(Char(x)) == Some(x) && Char(x) != '.' && Char(x) != '\n' && Char(x) != '\r'
  {
  }

  // The four sextets of three bytes, and the three bytes of four sextets.

  function Sextet0(b0: Byte): Sextet { b0 / 4 }

  function Sextet1(b0: Byte, b1: Byte): Sextet { b0 % 4 * 16 + b1 / 16 }

  function Sextet2(b1: Byte, b2: Byte): Sextet { b1 % 16 * 4 + b2 / 64 }

  function Sextet3(b2: Byte): Sextet { b2 % 64 }

  function Byte0(x: Sextet, y: Sextet): Byte { x * 4 + y / 16 }

  function Byte1(y: Sextet, z: Sextet): Byte { y % 16 * 16 + z / 4 }

  function Byte2(z: Sextet, w: Sextet): Byte { z % 4 * 64 + w }

  /** Three bytes become four characters; one or two bytes at the end become two or three. */
  function Encode(bytes: seq<Byte>): string {
    if |bytes| == 0 then ""
    else if |bytes| == 1 then [Char(Sextet0(bytes[0])), Char(Sextet1(bytes[0], 0))]
    else if |bytes| == 2 then [Char(Sextet0(bytes[0])), Char(Sextet1(bytes[0], bytes[1])), Char(Sextet2(bytes[1], 0))]
    else
      [Char(Sextet0(bytes[0])), Char(Sextet1(bytes[0], bytes[1])), Char(Sextet2(bytes[1], bytes[2])), Char(Sextet3(bytes[2]))]
      + Encode(bytes[3..])
  }

  function WithoutLineBreaks(text: string): string {
    if text == "" then ""
    else if text[0] == '\r' || text[0] == '\n' then WithoutLineBreaks(text[1..])
    else [text[0]] + WithoutLineBreaks(text[1..])
  }

  function DecodeUnbroken(text: string): Option<seq<Byte>> {
    if |text| == 0 then Some([])
    else if |text| == 1 then None
    else
      var a, b := Value(text[0]), Value(text[1]);
      if a.None? || b.None? then None
      else if |text| == 2 then Some([Byte0(a.value, b.value)])
      else
        var c := Value(text[2]);
        if c.None? then None
        else if |text| == 3 then Some([Byte0(a.value, b.value), Byte1(b.value, c.value)])
        else
          var d, rest := Value(text[3]), DecodeUnbroken(text[4..]);
          if d.None? || rest.None? then None
          else Some([Byte0(a.value, b.value), Byte1(b.value, c.value), Byte2(c.value, d.value)] + rest.value)
  }

  function Decode(text: string): Option<seq<Byte>> {
    DecodeUnbroken(WithoutLineBreaks(text))
  }

  lemma {:induction false} Unbroken(text: string)
    requires forall i :: 0 <= i < |text| ==> text[i] != '\n' && text[i] != '\r'
    ensures WithoutLineBreaks(text) == text
  {
    if text != "" { Unbroken(text[1..]); }
  }

  lemma {:induction false} EncodedCharacters(bytes: seq<Byte>, i: nat)
    requires i < |Encode(bytes)|
    ensures Encode(bytes)[i] != '.' && Encode(bytes)[i] != '\n' && Encode(bytes)[i] != '\r'
  {
    hide Sextet0, Sextet1, Sextet2, Sextet3;
    if |bytes| >= 3 && i >= 4 { EncodedCharacters(bytes[3..], i - 4); }
  }

  /** The bits of a byte, split over two characters and put together again. */
  lemma Packing(b0: Byte, b1: Byte, b2: Byte)
    ensures Byte0(Sextet0(b0), Sextet1(b0, b1)) == b0
    ensures Byte1(Sextet1(b0, b1), Sextet2(b1, b2)) == b1
    ensures Byte2(Sextet2(b1, b2), Sextet3(b2)) == b2
  {
  }

  /** The characters of full bytes, split and put together again. */
  lemma Unpacking(x: Sextet, y: Sextet, z: Sextet, w: Sextet)
    ensures Sextet0(Byte0(x, y)) == x && Sextet1(Byte0(x, y), Byte1(y, z)) == y
    ensures Sextet2(Byte1(y, z), Byte2(z, w)) == z && Sextet3(Byte2(z, w)) == w
    ensures Sextet1(Byte0(x, y), 0) == y / 16 * 16 && Sextet2(Byte1(y, z), 0) == z / 4 * 4
  {
  }

  /** Four characters decode to three bytes, before whatever follows. */
  lemma DecodeGroup(x: Sextet, y: Sextet, z: Sextet, w: Sextet, tail: string)
    ensures DecodeUnbroken([Char(x), Char(y), Char(z), Char(w)] + tail)
         == if DecodeUnbroken(tail).None? then None else Some([Byte0(x, y), Byte1(y, z), Byte2(z, w)] + DecodeUnbroken(tail).value)
  {
    hide Char, Value, DecodeUnbroken;
    ValueOfChar(x);
    ValueOfChar(y);
    ValueOfChar(z);
    ValueOfChar(w);
    var text := [Char(x), Char(y), Char(z), Char(w)] + tail;
    assert text[0] == Char(x) && text[1] == Char(y) && text[2] == Char(z) && text[3] == Char(w) && text[4..] == tail;
    DecodeLong(text);
  }

  predicate GroupInAlphabet(text: string)
    requires |text| >= 4
  {
    Value(text[0]).Some? && Value(text[1]).Some? && Value(text[2]).Some? && Value(text[3]).Some?
  }

  lemma DecodeLong(text: string)
    requires |text| >= 4
    ensures DecodeUnbroken(text) ==
      if !GroupInAlphabet(text) || DecodeUnbroken(text[4..]).None? then None
      else
        var x, y, z, w := Value(text[0]).value, Value(text[1]).value, Value(text[2]).value, Value(text[3]).value;
        Some([Byte0(x, y), Byte1(y, z), Byte2(z, w)] + DecodeUnbroken(text[4..]).value)
  {
    hide Value, Byte0, Byte1, Byte2;
  }

  lemma DecodePart(x: Sextet, y: Sextet, z: Sextet)
    ensures DecodeUnbroken([Char(x), Char(y)]) == Some([Byte0(x, y)])
    ensures DecodeUnbroken([Char(x), Char(y), Char(z)]) == Some([Byte0(x, y), Byte1(y, z)])
  {
    hide Char, Value, Byte0, Byte1, Byte2;
    ValueOfChar(x);
    ValueOfChar(y);
    ValueOfChar(z);
  }

  lemma EncodeLong(bytes: seq<Byte>)
    requires |bytes| >= 3
    ensures Encode(bytes) ==
      [Char(Sextet0(bytes[0])), Char(Sextet1(bytes[0], bytes[1])), Char(Sextet2(bytes[1], bytes[2])), Char(Sextet3(bytes[2]))] + Encode(bytes[3..])
  {
  }

  lemma EncodeShort(b0: Byte, b1: Byte)
    ensures Encode([]) == "" && Encode([b0]) == [Char(Sextet0(b0)), Char(Sextet1(b0, 0))]
    ensures Encode([b0, b1]) == [Char(Sextet0(b0)), Char(Sextet1(b0, b1)), Char(Sextet2(b1, 0))]
  {
    hide Char;
  }

  lemma {:induction false} DecodeEncodedUnbroken(bytes: seq<Byte>)
    ensures DecodeUnbroken(Encode(bytes)) == Some(bytes)
  {
    hide Char, Value, DecodeUnbroken, Encode, Byte0, Byte1, Byte2, Sextet0, Sextet1, Sextet2, Sextet3;
    if |bytes| == 0 {
      EncodeShort(0, 0);
      DecodeNothing();
    } else if |bytes| == 1 {
      assert bytes == [bytes[0]];
      EncodeShort(bytes[0], 0);
      Packing(bytes[0], 0, 0);
      DecodePart(Sextet0(bytes[0]), Sextet1(bytes[0], 0), 0);
    } else if |bytes| == 2 {
      assert bytes == [bytes[0], bytes[1]];
      EncodeShort(bytes[0], bytes[1]);
      Packing(bytes[0], bytes[1], 0);
      DecodePart(Sextet0(bytes[0]), Sextet1(bytes[0], bytes[1]), Sextet2(bytes[1], 0));
    } else {
      EncodeLong(bytes);
      Packing(bytes[0], bytes[1], bytes[2]);
      DecodeEncodedUnbroken(bytes[3..]);
      DecodeGroup(Sextet0(bytes[0]), Sextet1(bytes[0], bytes[1]), Sextet2(bytes[1], bytes[2]), Sextet3(bytes[2]), Encode(bytes[3..]));
      assert bytes == [bytes[0], bytes[1], bytes[2]] + bytes[3..];
    }
  }

  lemma DecodeNothing()
    ensures DecodeUnbroken("") == Some([])
  {
  }

  /** Decoding undoes encoding. */
  lemma DecodeEncoded(bytes: seq<Byte>)
    ensures Decode(Encode(bytes)) == Some(bytes)
  {
    forall i | 0 <= i < |Encode(bytes)| ensures Encode(bytes)[i] != '\n' && Encode(bytes)[i] != '\r' {
      EncodedCharacters(bytes, i);
    }
    Unbroken(Encode(bytes));
    DecodeEncodedUnbroken(bytes);
  }

  /** A text that encodes its own decoding. */
  predicate Canonical(text: string) {
    Decode(text).Some? && Encode(Decode(text).value) == text
  }

  /** Decoding with the re-encoding check accepts exactly the encodings, each of a single byte string. */
  lemma CanonicalTexts(text: string, bytes: seq<Byte>)
    ensures (Canonical(text) && Decode(text).value == bytes) <==> text == Encode(bytes)
  {
    DecodeEncoded(bytes);
  }

  /** The decoder alone accepts more: a line break in front passes... */
  lemma LineBreakPasses(bytes: seq<Byte>)
    ensures Decode("\n" + Encode(bytes)) == Some(bytes) && !Canonical("\n" + Encode(bytes))
  {
    hide Encode, DecodeUnbroken;
    DecodeEncoded(bytes);
    assert ("\n" + Encode(bytes))[1..] == Encode(bytes);
    assert |"\n" + Encode(bytes)| == 1 + |Encode(bytes)|;
  }

  // ---------- Exactly what the decoder accepts ----------

  predicate Alphabetic(text: string) {
    forall i :: 0 <= i < |text| ==> Value(text[i]).Some?
  }

  /** The bits of the last character that belong to no byte. */
  function StrayBits(text: string): int {
    if text == "" || Value(text[|text| - 1]).None? then 0
    else if |text| % 4 == 2 then Value(text[|text| - 1]).value % 16
    else if |text| % 4 == 3 then Value(text[|text| - 1]).value % 4
    else 0
  }

  lemma CharOfValue(c: char)
    requires Value(c).Some?
    ensures Char(Value(c).value) == c
  {
  }

  lemma {:induction false} DecodesUnbroken(text: string)
    ensures DecodeUnbroken(text).Some? <==> Alphabetic(text) && |text| % 4 != 1
  {
    hide Value, DecodeUnbroken, Alphabetic;
    if |text| < 4 {
      DecodesShort(text);
    } else {
      DecodesUnbroken(text[4..]);
      DecodesLong(text);
    }
  }

  lemma DecodesShort(text: string)
    requires |text| < 4
    ensures DecodeUnbroken(text).Some? <==> Alphabetic(text) && |text| % 4 != 1
  {
    hide Value, Byte0, Byte1, Byte2;
  }

  lemma DecodesLong(text: string)
    requires |text| >= 4
    ensures DecodeUnbroken(text).Some? <==> GroupInAlphabet(text) && DecodeUnbroken(text[4..]).Some?
    ensures Alphabetic(text) <==> GroupInAlphabet(text) && Alphabetic(text[4..])
  {
    hide Value, DecodeUnbroken;
    DecodeLong(text);
    assert forall i :: 4 <= i < |text| ==> text[i] == text[4..][i - 4];
  }

  lemma SameChar(x: Sextet, y: Sextet)
    ensures Char(x) == Char(y) <==> x == y
  {
    ValueOfChar(x);
    ValueOfChar(y);
  }

  /** The last group, re-encoded: two characters for one byte, three for two. */
  lemma ShortReencoded(text: string)
    requires |text| < 4 && DecodeUnbroken(text).Some?
    ensures Encode(DecodeUnbroken(text).value) == text <==> StrayBits(text) == 0
  {
    hide Value, Char, Encode, Byte0, Byte1, Byte2, Sextet0, Sextet1, Sextet2, Sextet3;
    EncodeShort(0, 0);
    if |text| > 0 {
      var x, y := Value(text[0]).value, Value(text[1]).value;
      CharOfValue(text[0]);
      CharOfValue(text[1]);
      if |text| == 2 {
        EncodeShort(Byte0(x, y), 0);
        Unpacking(x, y, 0, 0);
        SameChar(y, y / 16 * 16);
      } else {
        var z := Value(text[2]).value;
        CharOfValue(text[2]);
        EncodeShort(Byte0(x, y), Byte1(y, z));
        Unpacking(x, y, z, 0);
        SameChar(z, z / 4 * 4);
      }
    }
  }

  lemma FullGroup(x: Sextet, y: Sextet, z: Sextet, w: Sextet, rest: seq<Byte>)
    ensures Encode([Byte0(x, y), Byte1(y, z), Byte2(z, w)] + rest) == [Char(x), Char(y), Char(z), Char(w)] + Encode(rest)
  {
    hide Char, Encode, Byte0, Byte1, Byte2, Sextet0, Sextet1, Sextet2, Sextet3;
    var bytes := [Byte0(x, y), Byte1(y, z), Byte2(z, w)] + rest;
    assert bytes[0] == Byte0(x, y) && bytes[1] == Byte1(y, z) && bytes[2] == Byte2(z, w) && bytes[3..] == rest;
    EncodeLong(bytes);
    Unpacking(x, y, z, w);
  }

  lemma {:induction false} Reencoded(text: string)
    requires DecodeUnbroken(text).Some?
    ensures Encode(DecodeUnbroken(text).value) == text <==> StrayBits(text) == 0
  {
    hide Value, Char, Encode, DecodeUnbroken, StrayBits, Byte0, Byte1, Byte2;
    if |text| < 4 {
      ShortReencoded(text);
    } else {
      var tail := text[4..];
      DecodeLong(text);
      Reencoded(tail);
      SameStrayBits(text);
      var x, y, z, w := Value(text[0]).value, Value(text[1]).value, Value(text[2]).value, Value(text[3]).value;
      CharOfValue(text[0]);
      CharOfValue(text[1]);
      CharOfValue(text[2]);
      CharOfValue(text[3]);
      FullGroup(x, y, z, w, DecodeUnbroken(tail).value);
      GroupAndRest(text, Encode(DecodeUnbroken(tail).value));
    }
  }

  lemma SameStrayBits(text: string)
    requires |text| >= 4
    ensures StrayBits(text) == StrayBits(text[4..])
  {
    hide Value;
    if |text| > 4 { assert text[|text| - 1] == text[4..][|text| - 5]; }
  }

  lemma GroupAndRest(text: string, rest: string)
    requires |text| >= 4
    ensures [text[0], text[1], text[2], text[3]] + rest == text <==> rest == text[4..]
  {
    assert text == [text[0], text[1], text[2], text[3]] + text[4..];
    assert ([text[0], text[1], text[2], text[3]] + rest)[4..] == rest;
  }

  /** ... and so do stray bits in the last character. Exactly: the decoder accepts the texts that, without their line
      breaks, use the alphabet and do not leave one character over; the re-encoding check refuses those among them that
      have a line break or stray bits. */
  lemma StrayBitsPass(text: string)
    ensures var unbroken := WithoutLineBreaks(text);
            && (Decode(text).Some? <==> Alphabetic(unbroken) && |unbroken| % 4 != 1)
            && (Decode(text).Some? ==> (Canonical(text) <==> unbroken == text && StrayBits(text) == 0))
  {
    hide DecodeUnbroken, Value, Encode, StrayBits;
    var unbroken := WithoutLineBreaks(text);
    DecodesUnbroken(unbroken);
    if Decode(text).Some? {
      Reencoded(unbroken);
      if Canonical(text) { CanonicalUnbroken(text, Decode(text).value); }
    }
  }

  lemma CanonicalUnbroken(text: string, bytes: seq<Byte>)
    requires text == Encode(bytes)
    ensures WithoutLineBreaks(text) == text
  {
    forall i | 0 <= i < |text| ensures text[i] != '\n' && text[i] != '\r' { EncodedCharacters(bytes, i); }
    Unbroken(text);
  }

  // ---------- The bits ----------

  /** The number that three bytes make up. */
  function Group(b0: Byte, b1: Byte, b2: Byte): int {
    (b0 as int * 256 + b1 as int) * 256 + b2 as int
  }

  /** The characters at a position make up the number by their places in the alphabet. */
  predicate Spells(text: string, at: nat, number: int) {
    && at + 4 <= |text|
    && Value(text[at]).Some? && Value(text[at + 1]).Some? && Value(text[at + 2]).Some? && Value(text[at + 3]).Some?
    && number == ((Value(text[at]).value as int * 64 + Value(text[at + 1]).value as int) * 64 + Value(text[at + 2]).value as int) * 64
                 + Value(text[at + 3]).value as int
  }

  lemma GroupBits(b0: Byte, b1: Byte, b2: Byte)
    ensures ((Sextet0(b0) as int * 64 + Sextet1(b0, b1) as int) * 64 + Sextet2(b1, b2) as int) * 64 + Sextet3(b2) as int == Group(b0, b1, b2)
  {
  }

  /** Each full group of three bytes is written as the four characters whose places in the alphabet of section 5 of
      RFC 4648 make up the same 24 bits. */
  lemma {:induction false} EncodesBits(bytes: seq<Byte>, g: nat)
    requires 3 * g + 3 <= |bytes|
    ensures Spells(Encode(bytes), 4 * g, Group(bytes[3 * g], bytes[3 * g + 1], bytes[3 * g + 2]))
  {
    hide Sextet0, Sextet1, Sextet2, Sextet3, Char, Value, Group;
    var tail := bytes[3..];
    if g > 0 {
      EncodesBits(tail, g - 1);
      var head := Encode(bytes)[..4];
      assert Encode(bytes) == head + Encode(tail);
      SpelledLater(head, Encode(tail), 4 * (g - 1), Group(bytes[3 * g], bytes[3 * g + 1], bytes[3 * g + 2]));
    } else {
      GroupBits(bytes[0], bytes[1], bytes[2]);
      ValueOfChar(Sextet0(bytes[0]));
      ValueOfChar(Sextet1(bytes[0], bytes[1]));
      ValueOfChar(Sextet2(bytes[1], bytes[2]));
      ValueOfChar(Sextet3(bytes[2]));
    }
  }

  lemma SpelledLater(head: string, text: string, at: nat, number: int)
    requires Spells(text, at, number)
    ensures Spells(head + text, |head| + at, number)
  {
    hide Value;
  }
}
