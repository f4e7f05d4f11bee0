/**
 MCP capability tokens: the bridge's issuer and verifier (common/mcpbridge/capability.go), and the launcher's
 own issuer and key-file reader (internal/mcpcap/capability.go).
 */
module Capability {
  import opened Base64Url
  import opened Results
  import opened Text

  const VERSION := "adj.mcp.capability.v1"
  const TOKEN_PREFIX := "adjmcp1"
  const KEY_PREFIX := "adjmcpkey1."
  const MINIMUM_KEY_BYTES := 32
  const AUDIENCES := ["quick", "aar", "aard", "adc"]

  datatype Assignment = Assignment(version: string, audience: string, caseID: string, assignmentType: string, principalID: string)

  datatype Error =
    | ShortKey | BadVersion | BadAudience | MissingField(name: string) | PaddedField(name: string)
    | BadFormat | BadSignatureEncoding | BadSignature | BadPayloadEncoding | BadPayload | NotCanonical | OtherAudience
    | BadPrincipal | BadAssignmentType | BadKeyFile

  /** The keyed digest (HMAC-SHA-256) and the JSON form of an assignment; `unmarshal` is the strict decoder,
      which refuses unknown fields and anything after the value. */
  datatype Primitives = Primitives(
    mac: (seq<Byte>, string) -> seq<Byte>,
    marshal: Assignment -> seq<Byte>,
    unmarshal: seq<Byte> -> Option<Assignment>)

  /** Digests have 32 bytes. */
  ghost predicate DigestSized(p: Primitives) {
    forall key, message :: |p.mac(key, message)| == 32
  }

  /** An assignment whose JSON form is not empty and reads back as itself, as for valid UTF-8 fields. */
  predicate RoundTrips(p: Primitives, a: Assignment) {
    p.marshal(a) != [] && p.unmarshal(p.marshal(a)) == Some(a)
  }

  // ---------- Segments ----------

  /** The parts of a text between dots. */
  function Split(text: string): (r: seq<string>)
    ensures |r| > 0
  {
    if text == "" then [""]
    else if text[0] == '.' then [""] + Split(text[1..])
    else
      var rest := Split(text[1..]);
      [[text[0]] + rest[0]] + rest[1..]
  }

  function Joined(parts: seq<string>): string {
    if parts == [] then "" else if |parts| == 1 then parts[0] else parts[0] + "." + Joined(parts[1..])
  }

  predicate Dotless(text: string) {
    forall i :: 0 <= i < |text| ==> text[i] != '.'
  }

  lemma {:induction false} JoinedSplit(text: string)
    ensures Joined(Split(text)) == text
  {
    if text != "" {
      var rest := Split(text[1..]);
      JoinedSplit(text[1..]);
      if text[0] != '.' {
        var parts := Split(text);
        assert parts[1..] == rest[1..];
        if |parts| > 1 { assert [text[0]] + rest[0] + "." + Joined(rest[1..]) == [text[0]] + (rest[0] + "." + Joined(rest[1..])); }
      } else {
        assert Split(text)[1..] == rest;
      }
    }
  }

  lemma {:induction false} SplitDotless(text: string)
    requires Dotless(text)
    ensures Split(text) == [text]
  {
    if text != "" {
      assert Dotless(text[1..]);
      SplitDotless(text[1..]);
      assert [text[0]] + text[1..] == text;
    }
  }

  lemma {:induction false} SplitAtDot(head: string, tail: string)
    requires Dotless(head)
    ensures Split(head + "." + tail) == [head] + Split(tail)
  {
    var text := head + "." + tail;
    if head == "" {
      assert text[1..] == tail;
    } else {
      assert text[1..] == head[1..] + "." + tail;
      SplitAtDot(head[1..], tail);
      assert [text[0]] + head[1..] == head;
    }
  }

  lemma EncodingDotless(bytes: seq<Byte>)
    ensures Dotless(Encode(bytes))
  {
    forall i | 0 <= i < |Encode(bytes)| ensures Encode(bytes)[i] != '.' { EncodedCharacters(bytes, i); }
  }

  lemma PrefixDotless()
    ensures Dotless(TOKEN_PREFIX)
  {
  }

  // ---------- The bridge ----------

  function FieldError(name: string, value: string): Option<Error> {
    if IsBlank(value) then Some(MissingField(name))
    else if value != TrimSpace(value) then Some(PaddedField(name))
    else None
  }

  function AssignmentError(a: Assignment): Option<Error> {
    if a.version != VERSION then Some(BadVersion)
    else if a.audience !in AUDIENCES then Some(BadAudience)
    else if FieldError("case_id", a.caseID).Some? then FieldError("case_id", a.caseID)
    else if FieldError("assignment_type", a.assignmentType).Some? then FieldError("assignment_type", a.assignmentType)
    else FieldError("principal_id", a.principalID)
  }

  function Signature(p: Primitives, key: seq<Byte>, segment: string): seq<Byte> {
    p.mac(key, VERSION + "\n" + segment)
  }

  function Token(p: Primitives, key: seq<Byte>, a: Assignment): string {
    var segment := Encode(p.marshal(a));
    TOKEN_PREFIX + "." + segment + "." + Encode(Signature(p, key, segment))
  }

  /** The version is set by the issuer. */
  function IssueCapability(p: Primitives, key: seq<Byte>, a: Assignment): Result<string, Error> {
    var a' := a.(version := VERSION);
    if |key| < MINIMUM_KEY_BYTES then Failure(ShortKey)
    else if AssignmentError(a').Some? then Failure(AssignmentError(a').value)
    else Success(Token(p, key, a'))
  }

  function VerifyCapability(p: Primitives, key: seq<Byte>, token: string, audience: string): Result<Assignment, Error> {
    var parts := Split(token);
    if |key| < MINIMUM_KEY_BYTES then Failure(ShortKey)
    else if |parts| != 3 || parts[0] != TOKEN_PREFIX || parts[1] == "" || parts[2] == "" then Failure(BadFormat)
    else
      var signature := Decode(parts[2]);
      if signature.None? || |signature.value| != 32 || Encode(signature.value) != parts[2] then Failure(BadSignatureEncoding)
      else if signature.value != Signature(p, key, parts[1]) then Failure(BadSignature)
      else if Decode(parts[1]).None? || Encode(Decode(parts[1]).value) != parts[1] then Failure(BadPayloadEncoding)
      else
        var payload := Decode(parts[1]).value;
        var a := p.unmarshal(payload);
        if a.None? then Failure(BadPayload)
        else if payload != p.marshal(a.value) then Failure(NotCanonical)
        else if AssignmentError(a.value).Some? then Failure(AssignmentError(a.value).value)
        else if a.value.audience != TrimSpace(audience) then Failure(OtherAudience)
        else Success(a.value)
  }

  /** Whatever is accepted was issued: the token is, character for character, the one issued for the result. */
  lemma AcceptedWasIssued(p: Primitives, key: seq<Byte>, token: string, audience: string)
    requires VerifyCapability(p, key, token, audience).Success?
    ensures var a := VerifyCapability(p, key, token, audience).value;
            IssueCapability(p, key, a) == Success(token) && a.version == VERSION && a.audience == TrimSpace(audience)
  {
    hide Encode, Decode, FieldError;
    var parts := Split(token);
    var a := VerifyCapability(p, key, token, audience).value;
    JoinedSplit(token);
    JoinedThree(parts);
    assert a.(version := VERSION) == a;
  }

  /** The signature binds the payload: an accepted token carries, in its last part, the digest of exactly the version
      and its middle part, and the result is what the middle part reads as, with a known audience and proper fields. */
  lemma SignatureBinds(p: Primitives, key: seq<Byte>, token: string, audience: string)
    requires VerifyCapability(p, key, token, audience).Success?
    ensures var parts, a := Split(token), VerifyCapability(p, key, token, audience).value;
            && token == parts[0] + "." + parts[1] + "." + parts[2]
            && |key| >= 32 && |parts| == 3 && parts[0] == "adjmcp1"
            && Decode(parts[2]) == Some(p.mac(key, "adj.mcp.capability.v1" + "\n" + parts[1]))
            && Decode(parts[1]).Some? && p.unmarshal(Decode(parts[1]).value) == Some(a) && p.marshal(a) == Decode(parts[1]).value
            && a.version == "adj.mcp.capability.v1" && a.audience in ["quick", "aar", "aard", "adc"] && a.audience == TrimSpace(audience)
            && (forall field :: field in [a.caseID, a.assignmentType, a.principalID] ==> field != "" && field == TrimSpace(field))
  {
    hide Encode, Decode, Split, TrimSpace;
    JoinedSplit(token);
    JoinedThree(Split(token));
  }

  lemma JoinedThree(parts: seq<string>)
    requires |parts| == 3
    ensures Joined(parts) == parts[0] + "." + parts[1] + "." + parts[2]
  {
    var rest := parts[1..];
    assert rest[1..] == [parts[2]];
    assert Joined(rest[1..]) == parts[2];
    assert Joined(rest) == parts[1] + "." + parts[2];
    assert parts[0] + "." + (parts[1] + "." + parts[2]) == parts[0] + "." + parts[1] + "." + parts[2];
  }

  lemma SplitToken(segment: string, signature: string)
    requires Dotless(segment) && Dotless(signature)
    ensures Split(TOKEN_PREFIX + "." + segment + "." + signature) == [TOKEN_PREFIX, segment, signature]
  {
    hide Split;
    PrefixDotless();
    var tail := segment + "." + signature;
    assert TOKEN_PREFIX + "." + segment + "." + signature == TOKEN_PREFIX + "." + tail;
    SplitAtDot(TOKEN_PREFIX, tail);
    SplitAtDot(segment, signature);
    SplitDotless(signature);
  }

  lemma EncodingNotEmpty(bytes: seq<Byte>)
    requires bytes != []
    ensures Encode(bytes) != ""
  {
  }

  /** Every issued token is accepted for its own audience and for no other, with the assignment it was issued for. */
  lemma IssuedIsAccepted(p: Primitives, key: seq<Byte>, a: Assignment, audience: string)
    requires DigestSized(p) && RoundTrips(p, a.(version := VERSION)) && IssueCapability(p, key, a).Success?
    ensures VerifyCapability(p, key, IssueCapability(p, key, a).value, audience)
         == if a.audience == TrimSpace(audience) then Success(a.(version := VERSION)) else Failure(OtherAudience)
  {
    hide Encode, Decode, FieldError, Split, TrimSpace;
    var a' := a.(version := VERSION);
    var payload := p.marshal(a');
    var segment := Encode(payload);
    var signature := Signature(p, key, segment);
    EncodingDotless(payload);
    EncodingDotless(signature);
    SplitToken(segment, Encode(signature));
    DecodeEncoded(payload);
    DecodeEncoded(signature);
    EncodingNotEmpty(payload);
    EncodingNotEmpty(signature);
  }

  /** Verification accepts a token with a result exactly when it is the token issued for that result. */
  lemma VerifiesExactlyTheIssued(p: Primitives, key: seq<Byte>, token: string, audience: string, a: Assignment)
    requires DigestSized(p) && RoundTrips(p, a) && a.version == VERSION
    ensures VerifyCapability(p, key, token, audience) == Success(a)
       <==> IssueCapability(p, key, a) == Success(token) && a.audience == TrimSpace(audience)
  {
    hide VerifyCapability, IssueCapability, TrimSpace;
    if VerifyCapability(p, key, token, audience) == Success(a) { AcceptedWasIssued(p, key, token, audience); }
    if IssueCapability(p, key, a) == Success(token) {
      assert a.(version := VERSION) == a;
      IssuedIsAccepted(p, key, a, audience);
    }
  }

  // ---------- The launcher ----------

  datatype Claims = Claims(audience: string, caseID: string, assignmentType: string, principalID: string)

  function AsAssignment(claims: Claims): Assignment {
    Assignment(VERSION, claims.audience, claims.caseID, claims.assignmentType, claims.principalID)
  }

  /** Which principals may hold which assignments. */
  function ClaimsError(claims: Claims): Option<Error> {
    if claims.assignmentType == "lawyer" then
      if claims.principalID != "plaintiff" && claims.principalID != "defendant" then Some(BadPrincipal) else None
    else if claims.assignmentType == "observer" then
      if claims.principalID != "observer" then Some(BadPrincipal) else None
    else if claims.assignmentType == "council" then
      if claims.audience != "aar" && claims.audience != "aard" then Some(BadAudience) else None
    else if claims.assignmentType == "juror" then
      if claims.audience != "adc" then Some(BadAudience) else None
    else Some(BadAssignmentType)
  }

  function FieldsError(claims: Claims): Option<Error> {
    if FieldError("audience", claims.audience).Some? then FieldError("audience", claims.audience)
    else if FieldError("case_id", claims.caseID).Some? then FieldError("case_id", claims.caseID)
    else if FieldError("assignment_type", claims.assignmentType).Some? then FieldError("assignment_type", claims.assignmentType)
    else FieldError("principal_id", claims.principalID)
  }

  /** The launcher composes the token itself. */
  function Issue(p: Primitives, key: seq<Byte>, claims: Claims): Result<string, Error> {
    if |key| < MINIMUM_KEY_BYTES then Failure(ShortKey)
    else if FieldsError(claims).Some? then Failure(FieldsError(claims).value)
    else if claims.audience !in AUDIENCES then Failure(BadAudience)
    else if ClaimsError(claims).Some? then Failure(ClaimsError(claims).value)
    else
      var segment := Encode(p.marshal(AsAssignment(claims)));
      var signature := p.mac(key, VERSION + "\n" + segment);
      Success(TOKEN_PREFIX + "." + segment + "." + Encode(signature))
  }

  lemma AudienceTrimmed(audience: string)
    requires audience in AUDIENCES
    ensures FieldError("audience", audience).None?
  {
    OutsideRanges(audience[0], WHITE_SPACE);
    OutsideRanges(audience[|audience| - 1], WHITE_SPACE);
    TrimSpaceTrims(audience);
  }

  /** The launcher issues a token exactly when the bridge would and its own rules on principals hold, and the
      two tokens are identical. */
  lemma LauncherAgrees(p: Primitives, key: seq<Byte>, claims: Claims)
    ensures Issue(p, key, claims).Success? <==> IssueCapability(p, key, AsAssignment(claims)).Success? && ClaimsError(claims).None?
    ensures Issue(p, key, claims).Success? ==> Issue(p, key, claims) == IssueCapability(p, key, AsAssignment(claims))
  {
    hide FieldError, ClaimsError, Encode;
    if claims.audience in AUDIENCES { AudienceTrimmed(claims.audience); }
  }

  predicate Proper(field: string) {
    field != "" && TrimSpace(field) == field
  }

  lemma ProperFields(name: string, value: string)
    ensures FieldError(name, value).None? <==> Proper(value)
  {
  }

  /** The launcher issues tokens to exactly these: a side's lawyer, an observer, a council member of one of the two
      arbitrations, or a juror of the court, for an audience that exists and for fields without surrounding space. */
  lemma LauncherIssues(p: Primitives, key: seq<Byte>, claims: Claims)
    ensures Issue(p, key, claims).Success? <==>
      && |key| >= 32 && claims.audience in ["quick", "aar", "aard", "adc"]
      && Proper(claims.caseID) && Proper(claims.assignmentType) && Proper(claims.principalID)
      && match claims.assignmentType
         case "lawyer" => claims.principalID in ["plaintiff", "defendant"]
         case "observer" => claims.principalID == "observer"
         case "council" => claims.audience in ["aar", "aard"]
         case "juror" => claims.audience == "adc"
         case _ => false
  {
    hide FieldError, Encode, Proper;
    ProperFields("case_id", claims.caseID);
    ProperFields("assignment_type", claims.assignmentType);
    ProperFields("principal_id", claims.principalID);
    if claims.audience in AUDIENCES { AudienceTrimmed(claims.audience); }
  }

  // ---------- Key files ----------

  function EncodeKeyFile(key: seq<Byte>): string {
    KEY_PREFIX + Encode(key) + "\n"
  }

  /** The single line of a key file after its prefix. */
  function KeySegment(contents: string): Option<string> {
    if contents == "" || contents[|contents| - 1] != '\n' then None
    else
      var line := contents[..|contents| - 1];
      if '\n' in line || !(KEY_PREFIX <= line) then None else Some(line[|KEY_PREFIX|..])
  }

  /** The launcher's reader. */
  function ParseKeyFile(contents: string): Result<seq<Byte>, Error> {
    var segment := KeySegment(contents);
    if segment.None? || Decode(segment.value).None? then Failure(BadKeyFile)
    else if |Decode(segment.value).value| < MINIMUM_KEY_BYTES then Failure(ShortKey)
    else Success(Decode(segment.value).value)
  }

  /** The bridge's reader, which also insists on the canonical encoding. */
  function LoadSigningKey(contents: string): Result<seq<Byte>, Error> {
    var segment := KeySegment(contents);
    if segment.None? || Decode(segment.value).None? || Encode(Decode(segment.value).value) != segment.value then Failure(BadKeyFile)
    else if |Decode(segment.value).value| < MINIMUM_KEY_BYTES then Failure(ShortKey)
    else Success(Decode(segment.value).value)
  }

  lemma KeySegmentOfFile(key: seq<Byte>)
    ensures KeySegment(EncodeKeyFile(key)) == Some(Encode(key))
  {
    var line := KEY_PREFIX + Encode(key);
    assert EncodeKeyFile(key)[..|EncodeKeyFile(key)| - 1] == line;
    forall i | 0 <= i < |line| ensures line[i] != '\n' {
      if i >= |KEY_PREFIX| { EncodedCharacters(key, i - |KEY_PREFIX|); }
    }
  }

  /** The bridge accepts a key file exactly when it is the file written for the key; the launcher accepts that
      file too, with the same key. */
  lemma KeyFiles(contents: string, key: seq<Byte>)
    ensures LoadSigningKey(contents) == Success(key) <==> contents == EncodeKeyFile(key) && |key| >= MINIMUM_KEY_BYTES
    ensures LoadSigningKey(contents) == Success(key) ==> ParseKeyFile(contents) == Success(key)
  {
    hide Encode, Decode;
    if contents == EncodeKeyFile(key) {
      KeySegmentOfFile(key);
      DecodeEncoded(key);
    }
    if LoadSigningKey(contents) == Success(key) {
      var line := contents[..|contents| - 1];
      assert line == KEY_PREFIX + line[|KEY_PREFIX|..];
      assert contents == line + "\n";
    }
  }
}
