/**
  Signed page cursors: unpadded base64url (section 5 of RFC 4648) of a payload and of its
  signature, joined by a dot. The JSON text of a payload and the keyed hash are parameters.
 */
module Cursors {
  import opened Prelude

  type Byte = n: nat | n < 256 witness 0

  // ----- base64url -----

  function Symbol(n: nat): (c: char)
    requires n < 64
    ensures c != '.' && c != '='
  {
    if n < 26 then ('A' as int + n) as char
    else if n < 52 then ('a' as int + n - 26) as char
    else if n < 62 then ('0' as int + n - 52) as char
    else if n == 62 then '-' else '_'
  }

  /** The decoder also knows the two symbols of the plain alphabet. */
  function Sextet(c: char): (r: Option<nat>)
    ensures r.Some? ==> r.value < 64
  {
    if 'A' <= c <= 'Z' then Some(c as int - 'A' as int)
    else if 'a' <= c <= 'z' then Some(c as int - 'a' as int + 26)
    else if '0' <= c <= '9' then Some(c as int - '0' as int + 52)
    else if c == '-' || c == '+' then Some(62)
    else if c == '_' || c == '/' then Some(63)
    else None
  }

  // The four sextets of three bytes, and the three bytes of four sextets.
  function Sextet0(a: Byte): (r: nat)
    ensures r < 64
  {
    a / 4
  }

  function Sextet1(a: Byte, b: Byte): (r: nat)
    ensures r < 64
  {
    a % 4 * 16 + b / 16
  }

  function Sextet2(b: Byte, c: Byte): (r: nat)
    ensures r < 64
  {
    b % 16 * 4 + c / 64
  }

  function Sextet3(c: Byte): (r: nat)
    ensures r < 64
  {
    c % 64
  }

  function Byte0(w: nat, x: nat): Byte
    requires w < 64 && x < 64
  {
    w * 4 + x / 16
  }

  function Byte1(x: nat, y: nat): Byte
    requires x < 64 && y < 64
  {
    x % 16 * 16 + y / 4
  }

  function Byte2(y: nat, z: nat): Byte
    requires y < 64 && z < 64
  {
    y % 4 * 64 + z
  }

  /** Three bytes become four symbols; one or two left over become two or three. */
  function Encode(b: seq<Byte>): string {
    if b == [] then []
    else if |b| == 1 then [Symbol(Sextet0(b[0])), Symbol(Sextet1(b[0], 0))]
    else if |b| == 2 then [Symbol(Sextet0(b[0])), Symbol(Sextet1(b[0], b[1])), Symbol(Sextet2(b[1], 0))]
    else
      [Symbol(Sextet0(b[0])), Symbol(Sextet1(b[0], b[1])), Symbol(Sextet2(b[1], b[2])), Symbol(Sextet3(b[2]))]
      + Encode(b[3..])
  }

  predicate AllSymbols(s: string) {
    forall i | 0 <= i < |s| :: Sextet(s[i]).Some?
  }

  function Values(s: string): (r: seq<nat>)
    requires AllSymbols(s)
    ensures |r| == |s| && forall i | 0 <= i < |r| :: r[i] < 64
  {
    seq(|s|, i requires 0 <= i < |s| => Sextet(s[i]).value)
  }

  function Unpack(v: seq<nat>): seq<Byte>
    requires forall i | 0 <= i < |v| :: v[i] < 64
  {
    if |v| < 2 then []
    else if |v| == 2 then [Byte0(v[0], v[1])]
    else if |v| == 3 then [Byte0(v[0], v[1]), Byte1(v[1], v[2])]
    else [Byte0(v[0], v[1]), Byte1(v[1], v[2]), Byte2(v[2], v[3])] + Unpack(v[4..])
  }

  predicate RightPadding(symbols: nat, padding: int) {
    (symbols % 4 == 0 && padding == 0) || (symbols % 4 == 2 && padding == 2) || (symbols % 4 == 3 && padding == 1)
  }

  function WithoutPadding(s: string): string {
    if s != [] && s[|s| - 1] == '=' then WithoutPadding(s[..|s| - 1]) else s
  }

  /** Pad to a multiple of four, then decode strictly: only whole groups and exactly their padding. */
  function Decode(s: string): Option<seq<Byte>> {
    var body := WithoutPadding(s);
    if AllSymbols(body) && RightPadding(|body|, |s| + (-|s|) % 4 - |body|) then Some(Unpack(Values(body))) else None
  }

  lemma {:induction false} EncodedLength(b: seq<Byte>)
    ensures |Encode(b)| == |b| / 3 * 4 + (if |b| % 3 == 0 then 0 else |b| % 3 + 1)
    ensures forall i | 0 <= i < |Encode(b)| :: Encode(b)[i] != '.' && Encode(b)[i] != '='
    decreases |b|
  {
    if |b| >= 3 { EncodedLength(b[3..]); }
  }

  lemma GroupBack(a: Byte, b: Byte, c: Byte)
    ensures Byte0(Sextet0(a), Sextet1(a, b)) == a
    ensures Byte1(Sextet1(a, b), Sextet2(b, c)) == b
    ensures Byte2(Sextet2(b, c), Sextet3(c)) == c
  {
  }

  lemma FirstBack(a: Byte, b: Byte)
    ensures Byte0(Sextet0(a), Sextet1(a, b)) == a
  {
  }

  lemma ValueOf(n: nat)
    requires n < 64
    ensures Sextet(Symbol(n)) == Some(n)
  {
  }

  // Each of the next three lemmas names the sextets, so that what follows need not divide.
  lemma EncodeOne(b: seq<Byte>) returns (w: nat, x: nat)
    requires |b| == 1
    ensures w < 64 && x < 64 && Encode(b) == [Symbol(w), Symbol(x)] && Unpack([w, x]) == b
  {
    w, x := Sextet0(b[0]), Sextet1(b[0], 0);
    FirstBack(b[0], 0);
    assert Unpack([w, x]) == [Byte0(w, x)];
  }

  lemma EncodeTwo(b: seq<Byte>) returns (w: nat, x: nat, y: nat)
    requires |b| == 2
    ensures w < 64 && x < 64 && y < 64 && Encode(b) == [Symbol(w), Symbol(x), Symbol(y)] && Unpack([w, x, y]) == b
  {
    w, x, y := Sextet0(b[0]), Sextet1(b[0], b[1]), Sextet2(b[1], 0);
    GroupBack(b[0], b[1], 0);
  }

  lemma EncodeGroup(b: seq<Byte>) returns (w: nat, x: nat, y: nat, z: nat)
    requires |b| >= 3
    ensures w < 64 && x < 64 && y < 64 && z < 64
    ensures Encode(b) == [Symbol(w), Symbol(x), Symbol(y), Symbol(z)] + Encode(b[3..])
    ensures b == [Byte0(w, x), Byte1(x, y), Byte2(y, z)] + b[3..]
  {
    w, x, y, z := Sextet0(b[0]), Sextet1(b[0], b[1]), Sextet2(b[1], b[2]), Sextet3(b[2]);
    GroupBack(b[0], b[1], b[2]);
  }

  lemma TwoValues(w: nat, x: nat)
    requires w < 64 && x < 64
    ensures AllSymbols([Symbol(w), Symbol(x)]) && Values([Symbol(w), Symbol(x)]) == [w, x]
  {
    ValueOf(w);
    ValueOf(x);
  }

  lemma ThreeValues(w: nat, x: nat, y: nat)
    requires w < 64 && x < 64 && y < 64
    ensures AllSymbols([Symbol(w), Symbol(x), Symbol(y)]) && Values([Symbol(w), Symbol(x), Symbol(y)]) == [w, x, y]
  {
    ValueOf(w);
    ValueOf(x);
    ValueOf(y);
  }

  lemma TailOne(b: seq<Byte>)
    requires |b| == 1
    ensures AllSymbols(Encode(b)) && Unpack(Values(Encode(b))) == b
  {
    var w, x := EncodeOne(b);
    TwoValues(w, x);
  }

  lemma TailTwo(b: seq<Byte>)
    requires |b| == 2
    ensures AllSymbols(Encode(b)) && Unpack(Values(Encode(b))) == b
  {
    var w, x, y := EncodeTwo(b);
    ThreeValues(w, x, y);
  }

  lemma GroupValues(w: nat, x: nat, y: nat, z: nat, rest: string)
    requires w < 64 && x < 64 && y < 64 && z < 64 && AllSymbols(rest)
    ensures var s := [Symbol(w), Symbol(x), Symbol(y), Symbol(z)] + rest;
            AllSymbols(s) && Values(s) == [w, x, y, z] + Values(rest)
  {
    ValueOf(w);
    ValueOf(x);
    ValueOf(y);
    ValueOf(z);
    var s := [Symbol(w), Symbol(x), Symbol(y), Symbol(z)] + rest;
    forall i | 4 <= i < |s| ensures s[i] == rest[i - 4] {}
  }

  lemma UnpackGroup(w: nat, x: nat, y: nat, z: nat, rest: seq<nat>)
    requires w < 64 && x < 64 && y < 64 && z < 64 && forall i | 0 <= i < |rest| :: rest[i] < 64
    ensures var v := [w, x, y, z] + rest;
            && (forall i | 0 <= i < |v| :: v[i] < 64)
            && Unpack(v) == [Byte0(w, x), Byte1(x, y), Byte2(y, z)] + Unpack(rest)
  {
    var v := [w, x, y, z] + rest;
    assert v[4..] == rest;
  }

  lemma HeadGroup(b: seq<Byte>)
    requires |b| >= 3 && AllSymbols(Encode(b[3..])) && Unpack(Values(Encode(b[3..]))) == b[3..]
    ensures AllSymbols(Encode(b)) && Unpack(Values(Encode(b))) == b
  {
    var rest := Encode(b[3..]);
    var w, x, y, z := EncodeGroup(b);
    GroupValues(w, x, y, z, rest);
    UnpackGroup(w, x, y, z, Values(rest));
  }

  lemma {:induction false} EncodedUnpacks(b: seq<Byte>)
    ensures AllSymbols(Encode(b)) && Unpack(Values(Encode(b))) == b
    decreases |b|
  {
    if b == [] {
    } else if |b| == 1 {
      TailOne(b);
    } else if |b| == 2 {
      TailTwo(b);
    } else {
      EncodedUnpacks(b[3..]);
      HeadGroup(b);
    }
  }

  lemma PaddingFits(bytes: nat)
    ensures var n := bytes / 3 * 4 + (if bytes % 3 == 0 then 0 else bytes % 3 + 1);
            RightPadding(n, n + (-n) % 4 - n)
  {
    var k := bytes / 3 * 4;
    assert k % 4 == 0;
  }

  lemma NothingToStrip(s: string)
    requires forall i | 0 <= i < |s| :: s[i] != '='
    ensures WithoutPadding(s) == s
  {
  }

  /** Decoding undoes encoding, on all byte strings. */
  lemma Base64RoundTrip(b: seq<Byte>)
    ensures Decode(Encode(b)) == Some(b)
  {
    EncodedLength(b);
    EncodedUnpacks(b);
    NothingToStrip(Encode(b));
    PaddingFits(|b|);
  }

  // ----- Which texts decode -----

  /** A symbol of the url alphabet or of the plain one. */
  predicate InAlphabet(c: char) {
    'A' <= c <= 'Z' || 'a' <= c <= 'z' || '0' <= c <= '9' || c in {'-', '_', '+', '/'}
  }

  predicate Alphabetic(s: string) {
    forall i | 0 <= i < |s| :: InAlphabet(s[i])
  }

  function Equals(k: nat): string {
    if k == 0 then [] else Equals(k - 1) + "="
  }

  /** So many padding signs may follow so many symbols: all that are due, or fewer. */
  predicate MayPad(symbols: nat, k: nat) {
    (symbols % 4 == 0 && k == 0) || (symbols % 4 == 2 && k <= 2) || (symbols % 4 == 3 && k <= 1)
  }

  lemma {:induction false} PaddedBody(body: string, k: nat)
    requires body == [] || body[|body| - 1] != '='
    ensures |Equals(k)| == k && WithoutPadding(body + Equals(k)) == body
    decreases k
  {
    if k == 0 {
      assert body + Equals(0) == body;
    } else {
      PaddedBody(body, k - 1);
      var s := body + Equals(k);
      assert s[..|s| - 1] == body + Equals(k - 1);
    }
  }

  lemma {:induction false} BodyPadded(s: string) returns (k: nat)
    ensures s == WithoutPadding(s) + Equals(k) && |s| == |WithoutPadding(s)| + k
    decreases |s|
  {
    if s != [] && s[|s| - 1] == '=' {
      var less := BodyPadded(s[..|s| - 1]);
      k := less + 1;
      assert s == s[..|s| - 1] + "=";
      assert s == WithoutPadding(s) + (Equals(less) + "=");
    } else {
      k := 0;
      assert s + [] == s;
    }
  }

  lemma PaddingCounts(symbols: nat, k: nat)
    ensures RightPadding(symbols, symbols + k + (-(symbols + k)) % 4 - symbols) <==> MayPad(symbols, k)
  {
  }

  lemma AlphabetIsSymbols(s: string)
    ensures Alphabetic(s) <==> AllSymbols(s)
  {
  }

  lemma PaddedDecodes(body: string, k: nat)
    requires MayPad(|body|, k) && Alphabetic(body)
    ensures Decode(body + Equals(k)).Some?
  {
    if body != [] { assert InAlphabet(body[|body| - 1]); }
    PaddedBody(body, k);
    AlphabetIsSymbols(body);
    PaddingCounts(|body|, k);
  }

  lemma DecodedIsPadded(s: string) returns (body: string, k: nat)
    requires Decode(s).Some?
    ensures s == body + Equals(k) && MayPad(|body|, k) && Alphabetic(body)
  {
    body := WithoutPadding(s);
    k := BodyPadded(s);
    AlphabetIsSymbols(body);
    PaddingCounts(|body|, k);
  }

  /** A text decodes if and only if it is symbols of either alphabet with no more padding than is due. */
  lemma DecodesIffPadded(s: string)
    ensures Decode(s).Some? <==>
              exists body: string, k: nat :: s == body + Equals(k) && MayPad(|body|, k) && Alphabetic(body)
  {
    if Decode(s).Some? { var body, k := DecodedIsPadded(s); }
    if body: string, k: nat :| s == body + Equals(k) && MayPad(|body|, k) && Alphabetic(body) {
      PaddedDecodes(body, k);
    }
  }

  function UrlSymbol(c: char): char {
    if c == '+' then '-' else if c == '/' then '_' else c
  }

  function UrlSafe(s: string): string {
    seq(|s|, i requires 0 <= i < |s| => UrlSymbol(s[i]))
  }

  lemma {:induction false} SafeBody(s: string)
    ensures WithoutPadding(UrlSafe(s)) == UrlSafe(WithoutPadding(s))
    decreases |s|
  {
    if s != [] && s[|s| - 1] == '=' {
      assert UrlSafe(s)[..|s| - 1] == UrlSafe(s[..|s| - 1]);
      SafeBody(s[..|s| - 1]);
    }
  }

  /** The two symbols in which the alphabets differ are read alike. */
  lemma AlphabetsAgree(s: string)
    ensures Decode(UrlSafe(s)) == Decode(s)
  {
    SafeBody(s);
    var body, safe := WithoutPadding(s), UrlSafe(WithoutPadding(s));
    assert forall i | 0 <= i < |body| :: Sextet(safe[i]) == Sextet(body[i]);
    if AllSymbols(body) {
      assert Values(safe) == Values(body);
    } else {
      var i :| 0 <= i < |body| && Sextet(body[i]).None?;
      assert Sextet(safe[i]).None?;
    }
  }

  // ----- Cursors -----

  datatype Cursor = Cursor(agent: nat, filters: nat, after: int)
  datatype Payload = Payload(version: int, cursor: Cursor)
  datatype CursorError = Malformed | BadSignature | BadPayload | BadVersion | OtherAgent | OtherFilters

  /** The text of a payload, reading it back, and the keyed hash. */
  datatype Codec = Codec(render: Payload -> seq<Byte>, parse: seq<Byte> -> Option<Payload>,
    sign: seq<Byte> -> seq<Byte>)

  const LONGEST := 2048

  function EncodeCursor(codec: Codec, cursor: Cursor): string {
    var payload := codec.render(Payload(1, cursor));
    Encode(payload) + "." + Encode(codec.sign(payload))
  }

  function Dots(s: string): nat {
    if s == [] then 0 else Dots(s[1..]) + if s[0] == '.' then 1 else 0
  }

  function DotAt(s: string): (i: nat)
    ensures i <= |s| && (Dots(s) > 0 ==> i < |s| && s[i] == '.') && forall j | 0 <= j < i :: s[j] != '.'
  {
    if s == [] || s[0] == '.' then 0 else DotAt(s[1..]) + 1
  }

  /** The checks of a decoded payload: its signature first, then what it says. */
  function Check(codec: Codec, payload: seq<Byte>, signature: seq<Byte>, agent: nat, filters: nat)
    : Result<Cursor, CursorError>
  {
    if signature != codec.sign(payload) then Err(BadSignature)
    else
      var data := codec.parse(payload);
      if data.None? then Err(BadPayload)
      else if data.value.version != 1 || data.value.cursor.after < 0 then Err(BadVersion)
      else if data.value.cursor.agent != agent then Err(OtherAgent)
      else if data.value.cursor.filters != filters then Err(OtherFilters)
      else Ok(data.value.cursor)
  }

  function DecodeCursor(codec: Codec, token: string, agent: nat, filters: nat): Result<Cursor, CursorError> {
    if token == [] || |token| > LONGEST || Dots(token) != 1 then Err(Malformed)
    else
      var dot := DotAt(token);
      var payload, signature := Decode(token[..dot]), Decode(token[dot + 1..]);
      if payload.None? || signature.None? then Err(Malformed)
      else Check(codec, payload.value, signature.value, agent, filters)
  }

  lemma {:induction false} DotsJoin(a: string, b: string)
    requires forall i | 0 <= i < |a| :: a[i] != '.'
    requires forall i | 0 <= i < |b| :: b[i] != '.'
    ensures Dots(a + "." + b) == 1 && DotAt(a + "." + b) == |a|
    decreases |a|
  {
    var s := a + "." + b;
    if a == [] {
      assert s[1..] == b;
      NoDots(b);
    } else {
      assert s[1..] == a[1..] + "." + b;
      DotsJoin(a[1..], b);
    }
  }

  lemma {:induction false} NoDots(b: string)
    requires forall i | 0 <= i < |b| :: b[i] != '.'
    ensures Dots(b) == 0
    decreases |b|
  {
    if b != [] { NoDots(b[1..]); }
  }

  /**
    A cursor the server issued comes back as itself exactly when its token is within the length
    limit; for another agent or other filters it is refused as such.
   */
  lemma CursorRoundTrip(codec: Codec, cursor: Cursor, agent: nat, filters: nat)
    requires codec.parse(codec.render(Payload(1, cursor))) == Some(Payload(1, cursor)) && cursor.after >= 0
    ensures DecodeCursor(codec, EncodeCursor(codec, cursor), agent, filters) ==
              if |EncodeCursor(codec, cursor)| > 2048 then Err(Malformed)
              else if cursor.agent != agent then Err(OtherAgent)
              else if cursor.filters != filters then Err(OtherFilters)
              else Ok(cursor)
  {
    var payload := codec.render(Payload(1, cursor));
    var a, b := Encode(payload), Encode(codec.sign(payload));
    EncodedLength(payload);
    EncodedLength(codec.sign(payload));
    DotsJoin(a, b);
    var token := EncodeCursor(codec, cursor);
    assert token[..|a|] == a && token[|a| + 1..] == b;
    Base64RoundTrip(payload);
    Base64RoundTrip(codec.sign(payload));
  }

  /** What is accepted was signed: it carries a payload of this agent, these filters and the hash of that payload. */
  lemma AcceptedWasSigned(codec: Codec, token: string, agent: nat, filters: nat)
    ensures var r := DecodeCursor(codec, token, agent, filters);
            r.Ok? ==>
              && r.value.agent == agent && r.value.filters == filters && r.value.after >= 0
              && exists payload ::
                   codec.parse(payload) == Some(Payload(1, r.value))
                     && Decode(token[DotAt(token) + 1..]) == Some(codec.sign(payload))
  {
    var r := DecodeCursor(codec, token, agent, filters);
    if r.Ok? {
      var payload := Decode(token[..DotAt(token)]).value;
      assert codec.parse(payload) == Some(Payload(1, r.value));
    }
  }

  /** The token is two parts of base64url, a payload and something after it, around its only dot. */
  ghost predicate Parts(token: string, payload: seq<Byte>, signature: seq<Byte>) {
    && 0 < |token| <= 2048
    && exists a: string, b: string ::
         && token == a + "." + b && '.' !in a && '.' !in b
         && Decode(a) == Some(payload) && Decode(b) == Some(signature)
  }

  lemma SplitAt(s: string, i: nat)
    requires i < |s| && s[i] == '.'
    ensures s == s[..i] + "." + s[i + 1..]
  {
  }

  lemma OnlyDot(token: string)
    requires Dots(token) == 1
    ensures var i := DotAt(token);
            i < |token| && token == token[..i] + "." + token[i + 1..] && '.' !in token[..i] && '.' !in token[i + 1..]
  {
    var i := DotAt(token);
    SplitAt(token, i);
    DotsSplit(token, i);
    NoDotsLeft(token[i + 1..]);
    forall j | 0 <= j < i ensures token[..i][j] != '.' {
      assert token[..i][j] == token[j];
    }
  }

  lemma {:induction false} DotsSplit(s: string, i: nat)
    requires i < |s| && s[i] == '.' && forall j | 0 <= j < i :: s[j] != '.'
    ensures Dots(s) == 1 + Dots(s[i + 1..])
    decreases i
  {
    if i > 0 {
      DotsSplit(s[1..], i - 1);
      assert s[1..][i..] == s[i + 1..];
    }
  }

  lemma {:induction false} NoDotsLeft(s: string)
    requires Dots(s) == 0
    ensures '.' !in s
    decreases |s|
  {
    if s != [] { NoDotsLeft(s[1..]); }
  }

  ghost predicate Decodes(token: string, payload: seq<Byte>, signature: seq<Byte>) {
    && token != [] && |token| <= LONGEST && Dots(token) == 1
    && Decode(token[..DotAt(token)]) == Some(payload) && Decode(token[DotAt(token) + 1..]) == Some(signature)
  }

  lemma PartsDecode(token: string, payload: seq<Byte>, signature: seq<Byte>)
    requires Parts(token, payload, signature)
    ensures Decodes(token, payload, signature)
  {
    var a: string, b: string :|
      token == a + "." + b && '.' !in a && '.' !in b && Decode(a) == Some(payload) && Decode(b) == Some(signature);
    DotsJoin(a, b);
    assert token[..|a|] == a && token[|a| + 1..] == b;
  }

  lemma DecodedParts(token: string, payload: seq<Byte>, signature: seq<Byte>)
    requires Decodes(token, payload, signature)
    ensures Parts(token, payload, signature)
  {
    OnlyDot(token);
  }

  /**
    What a token is answered: accepted if and only if both parts decode, the second is the hash of
    the first, and the first reads as a payload of this version, agent and filters. A wrong hash
    is told apart from a payload that does not fit, and both from a token without two parts.
   */
  lemma AcceptedIffSigned(codec: Codec, token: string, agent: nat, filters: nat)
    ensures var r := DecodeCursor(codec, token, agent, filters);
            && (forall c: Cursor :: r == Ok(c) <==>
                  && c.agent == agent && c.filters == filters && c.after >= 0
                  && exists payload :: Parts(token, payload, codec.sign(payload))
                      && codec.parse(payload) == Some(Payload(1, c)))
            && (r == Err(BadSignature) <==>
                  exists payload, signature :: Parts(token, payload, signature) && signature != codec.sign(payload))
            && (r == Err(Malformed) <==> forall payload, signature :: !Parts(token, payload, signature))
  {
    forall payload, signature | Parts(token, payload, signature)
      ensures Checked(codec, payload, signature, agent, filters, DecodeCursor(codec, token, agent, filters))
    {
      PartsDecode(token, payload, signature);
      CheckedParts(codec, token, agent, filters, payload, signature);
    }
    WithoutParts(codec, token, agent, filters);
    OneWay(codec, token, agent, filters, DecodeCursor(codec, token, agent, filters));
  }

  /** The answer to a token with these parts. */
  ghost predicate Checked(codec: Codec, payload: seq<Byte>, signature: seq<Byte>, agent: nat, filters: nat,
      r: Result<Cursor, CursorError>) {
    && r != Err(Malformed) && (r == Err(BadSignature) <==> signature != codec.sign(payload))
    && forall c: Cursor :: r == Ok(c) <==>
         && signature == codec.sign(payload) && codec.parse(payload) == Some(Payload(1, c))
         && c.agent == agent && c.filters == filters && c.after >= 0
  }

  lemma CheckedParts(codec: Codec, token: string, agent: nat, filters: nat, payload: seq<Byte>, signature: seq<Byte>)
    requires Decodes(token, payload, signature)
    ensures Checked(codec, payload, signature, agent, filters, DecodeCursor(codec, token, agent, filters))
  {
    CheckChecks(codec, payload, signature, agent, filters);
  }

  lemma CheckChecks(codec: Codec, payload: seq<Byte>, signature: seq<Byte>, agent: nat, filters: nat)
    ensures Checked(codec, payload, signature, agent, filters, Check(codec, payload, signature, agent, filters))
  {
  }

  lemma WithoutParts(codec: Codec, token: string, agent: nat, filters: nat)
    ensures (forall payload, signature :: !Parts(token, payload, signature)) ==>
      DecodeCursor(codec, token, agent, filters) == Err(Malformed)
  {
    if token != [] && |token| <= LONGEST && Dots(token) == 1 {
      var payload, signature := Decode(token[..DotAt(token)]), Decode(token[DotAt(token) + 1..]);
      if payload.Some? && signature.Some? { DecodedParts(token, payload.value, signature.value); }
    }
  }

  lemma OneWay(codec: Codec, token: string, agent: nat, filters: nat, r: Result<Cursor, CursorError>)
    requires forall payload, signature | Parts(token, payload, signature) ::
               Checked(codec, payload, signature, agent, filters, r)
    requires (forall payload, signature :: !Parts(token, payload, signature)) ==> r == Err(Malformed)
    ensures forall c: Cursor :: r == Ok(c) <==>
              && c.agent == agent && c.filters == filters && c.after >= 0
              && exists payload :: Parts(token, payload, codec.sign(payload))
                  && codec.parse(payload) == Some(Payload(1, c))
    ensures r == Err(BadSignature) <==>
              exists payload, signature :: Parts(token, payload, signature) && signature != codec.sign(payload)
    ensures r == Err(Malformed) <==> forall payload, signature :: !Parts(token, payload, signature)
  {
    if payload, signature :| Parts(token, payload, signature) {
      assert Checked(codec, payload, signature, agent, filters, r);
    }
  }
}
