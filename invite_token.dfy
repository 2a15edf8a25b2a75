/**
 * The invite token codec of src/lib/inviteToken.ts: an `inv_` tag in front
 * of the URL-safe base64 of the JSON payload (section 5 of RFC 4648, with the
 * padding of section 3.2 stripped), and the parser that undoes it and checks
 * the payload's shape.
 *
 * UTF-8, the standard base64 of section 4 of RFC 4648 and JSON are platform
 * functions the module calls; they are parameters here (`Codecs`), and
 * `Lawful` states the laws the proofs rely on.
 */
module InviteToken {
  import opened Wrappers
  import opened Catalog
  import opened FormData

  /** An octet. */
  newtype byte = x: int | 0 <= x < 256

  /** The platform functions the codec calls. */
  datatype Codecs = Codecs(
    /** `TextEncoder.encode`. */
    utf8Encode: string -> seq<byte>,
    /** `TextDecoder.decode`. */
    utf8Decode: seq<byte> -> string,
    /** `btoa` over the bytes of a binary string: the padded base64 of section 4 of RFC 4648. */
    base64Encode: seq<byte> -> string,
    /** `atob`: none where it throws. */
    base64Decode: string -> Option<seq<byte>>,
    /** `JSON.stringify`. */
    stringify: Value -> string,
    /** `JSON.parse`: none where it throws. */
    parse: string -> Option<Value>)

  /** The 64 characters of the standard base64 alphabet. */
  predicate InAlphabet(ch: char) {
    'A' <= ch <= 'Z' || 'a' <= ch <= 'z' || '0' <= ch <= '9' || ch == '+' || ch == '/'
  }

  /** `s.replace(/=+$/g, "")`: every trailing '=' removed. */
  function StripPadding(s: string): (r: string)
    ensures |r| <= |s| && r == s[..|r|]
    ensures r == [] || r[|r| - 1] != '='
    ensures forall i :: |r| <= i < |s| ==> s[i] == '='
  {
    if s != [] && s[|s| - 1] == '=' then StripPadding(s[..|s| - 1]) else s
  }

  /** The shape of standard base64 text: whole quanta, at most two '=' at the end, the alphabet before them. */
  predicate Base64Shaped(e: string) {
    var body := StripPadding(e);
    && |e| % 4 == 0
    && |e| - |body| <= 2
    && forall i :: 0 <= i < |body| ==> InAlphabet(body[i])
  }

  /** The laws of the platform functions: each decoder undoes its encoder, and base64 text is well shaped. */
  ghost predicate Lawful(c: Codecs) {
    && (forall s :: c.utf8Decode(c.utf8Encode(s)) == s)
    && (forall b :: c.base64Decode(c.base64Encode(b)) == Some(b))
    && (forall b :: Base64Shaped(c.base64Encode(b)))
    && (forall v :: c.parse(c.stringify(v)) == Some(v))
  }

  function ToUrlChar(ch: char): char {
    if ch == '+' then '-' else if ch == '/' then '_' else ch
  }

  function FromUrlChar(ch: char): char {
    if ch == '-' then '+' else if ch == '_' then '/' else ch
  }

  /** `.replace(/\+/g, "-").replace(/\//g, "_")`: no '+' or '/' is left and nothing else changes. */
  function ToUrlAlphabet(s: string): (r: string)
    ensures |r| == |s|
    ensures forall i :: 0 <= i < |r| ==> r[i] != '+' && r[i] != '/'
    ensures forall i :: 0 <= i < |r| && s[i] != '+' && s[i] != '/' ==> r[i] == s[i]
  {
    seq(|s|, i requires 0 <= i < |s| => ToUrlChar(s[i]))
  }

  /** `.replace(/-/g, "+").replace(/_/g, "/")`: no '-' or '_' is left and nothing else changes. */
  function FromUrlAlphabet(s: string): (r: string)
    ensures |r| == |s|
    ensures forall i :: 0 <= i < |r| ==> r[i] != '-' && r[i] != '_'
    ensures forall i :: 0 <= i < |r| && s[i] != '-' && s[i] != '_' ==> r[i] == s[i]
  {
    seq(|s|, i requires 0 <= i < |s| => FromUrlChar(s[i]))
  }

  /** Text in the standard alphabet survives the trip to the URL-safe alphabet and back. */
  lemma AlphabetRoundTrip(s: string)
    requires forall i :: 0 <= i < |s| ==> InAlphabet(s[i])
    ensures FromUrlAlphabet(ToUrlAlphabet(s)) == s
  {
  }

  /**
   * `b64 + "===".slice((b64.length + 3) % 4)` (line 38): between zero and
   * three '=' are appended, so that the length becomes a multiple of four.
   */
  function Repad(b64: string): (r: string)
    ensures |r| % 4 == 0 && |b64| <= |r| <= |b64| + 3
    ensures r[..|b64|] == b64
    ensures forall i :: |b64| <= i < |r| ==> r[i] == '='
  {
    b64 + "==="[(|b64| + 3) % 4..]
  }

  /** A binary string: one character below 256 per byte. */
  predicate Binary(s: string) {
    forall i :: 0 <= i < |s| ==> s[i] as int < 256
  }

  /** `String.fromCharCode` of each byte, as `atob` returns and line 17 builds. */
  function BinaryOf(bytes: seq<byte>): (r: string)
    ensures |r| == |bytes| && Binary(r)
    ensures forall i :: 0 <= i < |r| ==> r[i] as int == bytes[i] as int
  {
    seq(|bytes|, i requires 0 <= i < |bytes| => (bytes[i] as int) as char)
  }

  /** The bytes a binary string stands for, as `btoa` reads them and line 43 stores them. */
  function BytesOf(binary: string): (r: seq<byte>)
    requires Binary(binary)
    ensures |r| == |binary|
    ensures forall i :: 0 <= i < |r| ==> r[i] as int == binary[i] as int
  {
    seq(|binary|, i requires 0 <= i < |binary| => (binary[i] as int) as byte)
  }

  /** A byte sequence read as a binary string and back is unchanged. */
  lemma BinaryRoundTrip(bytes: seq<byte>)
    ensures BytesOf(BinaryOf(bytes)) == bytes
  {
  }

  /** `base64UrlEncodeFromString` (lines 12-34): UTF-8, base64, URL-safe alphabet, padding stripped. */
  function UrlEncode(c: Codecs, str: string): string {
    StripPadding(ToUrlAlphabet(c.base64Encode(c.utf8Encode(str))))
  }

  /** `base64UrlDecodeToString` (lines 36-55): none where `atob` throws. */
  function UrlDecode(c: Codecs, token: string): Option<string> {
    match c.base64Decode(Repad(FromUrlAlphabet(token)))
    case None => None
    case Some(bytes) => Some(c.utf8Decode(bytes))
  }

  /**
   * The browser path of `base64UrlEncodeFromString` (lines 14-19): the UTF-8
   * bytes are copied one by one into a binary string, which `btoa` encodes.
   */
  method Base64UrlEncodeFromString(c: Codecs, str: string) returns (token: string)
    ensures token == UrlEncode(c, str)
  {
    var utf8 := c.utf8Encode(str);
    var binary := "";
    for i := 0 to |utf8|
      invariant binary == BinaryOf(utf8[..i])
    {
      binary := binary + [(utf8[i] as int) as char];
    }
    assert utf8[..|utf8|] == utf8;
    BinaryRoundTrip(utf8);
    var b64 := c.base64Encode(BytesOf(binary));
    token := StripPadding(ToUrlAlphabet(b64));
  }

  /**
   * The browser path of `base64UrlDecodeToString` (lines 37-44): the token is
   * mapped back to the standard alphabet and re-padded, `atob` yields a binary
   * string, and its characters are copied one by one into a byte array that
   * is decoded as UTF-8.
   */
  method Base64UrlDecodeToString(c: Codecs, token: string) returns (r: Option<string>)
    ensures r == UrlDecode(c, token)
  {
    var b64 := FromUrlAlphabet(token);
    var padded := Repad(b64);
    var decoded := c.base64Decode(padded);
    if decoded.None? {
      return None;
    }
    var binary := BinaryOf(decoded.value);
    var bytes := new byte[|binary|];
    for i := 0 to |binary|
      invariant forall j :: 0 <= j < i ==> bytes[j] == decoded.value[j]
    {
      bytes[i] := (binary[i] as int) as byte;
    }
    assert bytes[..] == decoded.value;
    r := Some(c.utf8Decode(bytes[..]));
  }

  /** Stripping a run of '=' from text that does not end in '=' gives back that text. */
  lemma {:induction false} StripPaddingAppend(x: string, pad: string)
    requires x == [] || x[|x| - 1] != '='
    requires forall i :: 0 <= i < |pad| ==> pad[i] == '='
    ensures StripPadding(x + pad) == x
  {
    if pad == [] {
      assert x + pad == x;
    } else {
      var shorter := pad[..|pad| - 1];
      assert (x + pad)[..|x + pad| - 1] == x + shorter;
      StripPaddingAppend(x, shorter);
    }
  }

  /** On base64 text, stripping the padding commutes with the change of alphabet. */
  lemma StripAfterSwap(e: string)
    requires Base64Shaped(e)
    ensures StripPadding(ToUrlAlphabet(e)) == ToUrlAlphabet(StripPadding(e))
  {
    var body := StripPadding(e);
    var pad := e[|body|..];
    assert e == body + pad;
    assert ToUrlAlphabet(e) == ToUrlAlphabet(body) + pad;
    StripPaddingAppend(ToUrlAlphabet(body), pad);
  }

  /** The decoder's re-padding restores exactly the padding the encoder stripped. */
  lemma RepadRestores(e: string)
    requires Base64Shaped(e)
    ensures Repad(FromUrlAlphabet(ToUrlAlphabet(StripPadding(e)))) == e
  {
    var body := StripPadding(e);
    AlphabetRoundTrip(body);
    var pad := e[|body|..];
    assert e == body + pad;
    PadLength(|e|, |pad|);
    assert "==="[(|body| + 3) % 4..] == pad;
  }

  /** Re-padding a length that lost `n` of a whole quantum's characters adds back exactly `n`. */
  lemma PadLength(m: int, n: int)
    requires m % 4 == 0 && 0 <= n <= 2 && n <= m
    ensures (m - n + 3) % 4 == 3 - n
  {
  }

  /** The encoder's output uses the URL-safe alphabet: no '+', no '/' and no '='. */
  lemma UrlEncodeIsUrlSafe(c: Codecs, str: string)
    requires Lawful(c)
    ensures forall i :: 0 <= i < |UrlEncode(c, str)| ==> UrlEncode(c, str)[i] !in "+/="
  {
    var e := c.base64Encode(c.utf8Encode(str));
    assert Base64Shaped(e);
    StripAfterSwap(e);
  }

  /** Decoding undoes encoding. */
  lemma UrlRoundTrip(c: Codecs, str: string)
    requires Lawful(c)
    ensures UrlDecode(c, UrlEncode(c, str)) == Some(str)
  {
    var bytes := c.utf8Encode(str);
    var e := c.base64Encode(bytes);
    assert Base64Shaped(e);
    StripAfterSwap(e);
    RepadRestores(e);
    assert c.base64Decode(e) == Some(bytes);
  }

  /** The `employee` record of the payload. */
  datatype Employee = Employee(id: string, name: string, email: string, phone: Option<string>)

  /** `Omit<InviteTokenPayloadV1, "v">`: the payload as the caller supplies it. */
  datatype Payload = Payload(
    id: string,
    journeyType: JourneyType,
    employee: Employee,
    prefilledData: map<string, Value>,
    issuedAt: string)

  /** The JSON object of an employee; an absent phone is not written. */
  function EmployeeJson(e: Employee): Value {
    Obj(map["id" := Str(e.id), "name" := Str(e.name), "email" := Str(e.email)]
        + (if e.phone.Some? then map["phone" := Str(e.phone.value)] else map[]))
  }

  /** `{ v: 1, ...payload }` (line 58) as a JSON object. */
  function PayloadJson(p: Payload): (r: Value)
    ensures r.Obj? && "v" in r.fields && r.fields["v"] == Num(1)
  {
    Obj(map[
      "v" := Num(1),
      "id" := Str(p.id),
      "journeyType" := Str(JourneyTypeName(p.journeyType)),
      "employee" := EmployeeJson(p.employee),
      "prefilledData" := Obj(p.prefilledData),
      "issuedAt" := Str(p.issuedAt)])
  }

  /** `j?.key`: the member of an object, none for a missing key or a non-object. */
  function Member(j: Value, key: string): (r: Option<Value>)
    ensures r.Some? <==> j.Obj? && key in j.fields
    ensures r.Some? ==> r.value == j.fields[key]
  {
    if j.Obj? && key in j.fields then Some(j.fields[key]) else None
  }

  /** `!!j?.key`. */
  predicate HasTruthy(j: Value, key: string) {
    Member(j, key).Some? && Truthy(Member(j, key).value)
  }

  /** The shape check of lines 69-70: version 1 and a truthy id, journeyType and employee.id. */
  predicate Accepted(j: Value) {
    && Member(j, "v") == Some(Num(1))
    && HasTruthy(j, "id")
    && HasTruthy(j, "journeyType")
    && Member(j, "employee").Some?
    && HasTruthy(Member(j, "employee").value, "id")
  }

  const Prefix: string := "inv_"

  predicate HasPrefix(s: string) {
    |Prefix| <= |s| && s[..|Prefix|] == Prefix
  }

  /** `createInviteToken` (lines 57-60). */
  function CreateInviteToken(c: Codecs, p: Payload): (r: string)
    ensures HasPrefix(r)
    ensures r[|Prefix|..] == UrlEncode(c, c.stringify(PayloadJson(p)))
  {
    Prefix + UrlEncode(c, c.stringify(PayloadJson(p)))
  }

  /**
   * `parseInviteToken` (lines 62-75): none for a token without the tag, for a
   * failed decode or JSON parse, and for a payload the shape check rejects.
   */
  function ParseInviteToken(c: Codecs, token: string): (r: Option<Value>)
    ensures !HasPrefix(token) ==> r.None?
    ensures r.Some? ==> Accepted(r.value)
    ensures r.Some? <==>
      && HasPrefix(token) && UrlDecode(c, token[|Prefix|..]).Some?
      && c.parse(UrlDecode(c, token[|Prefix|..]).value).Some?
      && Accepted(c.parse(UrlDecode(c, token[|Prefix|..]).value).value)
    ensures r.Some? ==> c.parse(UrlDecode(c, token[|Prefix|..]).value) == Some(r.value)
  {
    if !HasPrefix(token) then None
    else
      match UrlDecode(c, token[|Prefix|..])
      case None => None
      case Some(json) =>
        match c.parse(json)
        case None => None
        case Some(parsed) => if Accepted(parsed) then Some(parsed) else None
  }

  /**
   * Parsing a created token gives back the payload with `v = 1`, provided
   * its id and employee id are non-empty; otherwise it gives none.
   */
  lemma ParseCreateRoundTrip(c: Codecs, p: Payload)
    requires Lawful(c)
    ensures ParseInviteToken(c, CreateInviteToken(c, p)) ==
      if p.id != "" && p.employee.id != "" then Some(PayloadJson(p)) else None
  {
    var json := c.stringify(PayloadJson(p));
    var token := CreateInviteToken(c, p);
    UrlRoundTrip(c, json);
    assert HasPrefix(token);
    assert UrlDecode(c, token[|Prefix|..]) == Some(json);
    assert c.parse(json) == Some(PayloadJson(p));
    PayloadAccepted(p);
  }

  /** The shape check accepts a created payload exactly when its id and employee id are non-empty. */
  lemma PayloadAccepted(p: Payload)
    ensures Accepted(PayloadJson(p)) <==> p.id != "" && p.employee.id != ""
  {
    var j := PayloadJson(p);
    assert Member(j, "v") == Some(Num(1));
    assert Member(j, "id") == Some(Str(p.id));
    assert JourneyTypeName(p.journeyType) != "";
    assert Member(j, "journeyType") == Some(Str(JourneyTypeName(p.journeyType)));
    var e := EmployeeJson(p.employee);
    assert Member(j, "employee") == Some(e);
    assert Member(e, "id") == Some(Str(p.employee.id));
  }

  /** The text after the tag of a created token uses the URL-safe alphabet. */
  lemma CreatedTokenIsUrlSafe(c: Codecs, p: Payload)
    requires Lawful(c)
    ensures var t := CreateInviteToken(c, p);
      forall i :: |Prefix| <= i < |t| ==> t[i] !in "+/="
  {
    var t := CreateInviteToken(c, p);
    var json := c.stringify(PayloadJson(p));
    UrlEncodeIsUrlSafe(c, json);
    assert forall i :: |Prefix| <= i < |t| ==> t[i] == UrlEncode(c, json)[i - |Prefix|];
  }
}
