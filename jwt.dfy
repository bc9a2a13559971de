/** The application's simplified token: `jwt.<base64 of the JSON claims>.signature`,
    where the claims are the payload plus an expiry one day ahead. JSON
    encoding and parsing are parameters; base64 is the browser's. */
module Jwt {
  import opened Common
  import opened Strings
  import opened Base64

  /** One day in milliseconds. */
  const DAY_MS: nat := 24 * 60 * 60 * 1000

  /** What `JSON.parse` can give: a scalar or a flat object. */
  datatype Json = Scalar(v: JsonValue) | Obj(fields: Object)

  /** JavaScript truthiness of a parsed value; objects are always truthy. */
  predicate TruthyJson(j: Json) {
    match j
    case Obj(_) => true
    case Scalar(JNull) => false
    case Scalar(JBool(b)) => b
    case Scalar(JNumber(n)) => n != 0
    case Scalar(JString(s)) => s != ""
  }

  /** `{ ...payload, exp: now + 24h }`: the payload with `exp` set last, so
      it overrides an `exp` the payload carried. */
  function Claims(payload: Object, now: nat): (c: Object)
    ensures "exp" in c && c["exp"] == JNumber(now + DAY_MS)
    ensures forall k :: k != "exp" ==> (k in c <==> k in payload)
    ensures forall k :: k != "exp" && k in payload ==> c[k] == payload[k]
  {
    payload["exp" := JNumber(now + DAY_MS)]
  }

  /** `generateToken(payload)` at time `now`; `None` where `btoa` throws
      because the JSON text holds a character above 0xFF. The token splits
      on `.` into `jwt`, the base64 text of the claims, and `signature`. */
  function GenerateToken(payload: Object, now: nat, stringify: Object -> string): (r: Option<string>)
    ensures r.Some? <==> IsByteString(stringify(Claims(payload, now)))
    ensures r.Some? ==>
      var parts := Split(r.value, '.');
      |parts| == 3 && parts[0] == "jwt" && parts[2] == "signature"
      && Atob(parts[1]) == Some(stringify(Claims(payload, now)))
  {
    var text := stringify(Claims(payload, now));
    match Btoa(text)
    case None => None
    case Some(data) =>
      TokenParts(data);
      RoundTrip(text);
      Some(Token(data))
  }

  /** `jwt.${data}.signature` */
  function Token(data: string): string {
    "jwt" + ['.'] + data + ['.'] + "signature"
  }

  /** A token splits on its two dots into the marker, the data and the
      signature, provided the data holds no dot. */
  lemma TokenParts(data: string)
    requires '.' !in data
    ensures Split(Token(data), '.') == ["jwt", data, "signature"]
  {
    assert '.' !in "jwt" && '.' !in "signature";
    SplitThree("jwt", data, "signature", '.');
  }

  /** `decodeToken(token)`: `None` for a falsy token, a token without a dot,
      one that does not split into exactly three parts, or a middle part that
      `atob` or `JSON.parse` rejects. */
  function DecodeToken(token: Option<string>, parse: string -> Option<Json>): (r: Option<Json>)
    ensures !Truthy(token) ==> r.None?
    ensures Truthy(token) && '.' !in token.value ==> r.None?
    ensures Truthy(token) && |Split(token.value, '.')| != 3 ==> r.None?
    ensures r.Some? ==> var middle := Split(token.value, '.')[1];
      Atob(middle).Some? && parse(Atob(middle).value) == r
    ensures (Truthy(token) && '.' in token.value && |Split(token.value, '.')| == 3
             && Atob(Split(token.value, '.')[1]).Some?) ==>
      r == parse(Atob(Split(token.value, '.')[1]).value)
    ensures (Truthy(token) && |Split(token.value, '.')| == 3
             && Atob(Split(token.value, '.')[1]).None?) ==> r.None?
  {
    if !Truthy(token) || '.' !in token.value then None
    else
      var parts := Split(token.value, '.');
      if |parts| != 3 then None
      else
        match Atob(parts[1])
        case None => None
        case Some(text) => parse(text)
  }

  /** The number `Date.now() < payload.exp` compares with: `null` is 0 and a
      boolean 0 or 1; `None` stands for `NaN`, against which `<` is false. */
  function ExpNumber(v: JsonValue): Option<int> {
    match v
    case JNumber(n) => Some(n)
    case JNull => Some(0)
    case JBool(b) => Some(if b then 1 else 0)
    case JString(_) => None
  }

  /** `isTokenValid(token)` at time `now`. */
  function IsTokenValid(token: Option<string>, now: nat, parse: string -> Option<Json>): (valid: bool)
    ensures DecodeToken(token, parse).None? ==> !valid
    ensures valid <==>
      && DecodeToken(token, parse).Some?
      && DecodeToken(token, parse).value.Obj?
      && "exp" in DecodeToken(token, parse).value.fields
      && ExpNumber(DecodeToken(token, parse).value.fields["exp"]).Some?
      && now < ExpNumber(DecodeToken(token, parse).value.fields["exp"]).value
  {
    match DecodeToken(token, parse)
    case None => false
    case Some(payload) =>
      if !TruthyJson(payload) then false
      else
        match payload
        case Scalar(_) => false
        case Obj(fields) =>
          "exp" in fields && ExpNumber(fields["exp"]).Some? && now < ExpNumber(fields["exp"]).value
  }

  /** A token decodes to the claims it was made from, provided the JSON text
      is Latin-1 and `JSON.parse` reads back what `JSON.stringify` wrote. */
  lemma TokenRoundTrip(payload: Object, now: nat, stringify: Object -> string, parse: string -> Option<Json>)
    requires IsByteString(stringify(Claims(payload, now)))
    requires parse(stringify(Claims(payload, now))) == Some(Obj(Claims(payload, now)))
    ensures GenerateToken(payload, now, stringify).Some?
    ensures DecodeToken(GenerateToken(payload, now, stringify), parse) == Some(Obj(Claims(payload, now)))
  {
    var t := GenerateToken(payload, now, stringify).value;
    assert t[3] == '.';
  }

  /** A token minted at `minted` is accepted exactly before one day has
      passed. */
  lemma TokenLifetime(payload: Object, minted: nat, now: nat, stringify: Object -> string, parse: string -> Option<Json>)
    requires IsByteString(stringify(Claims(payload, minted)))
    requires parse(stringify(Claims(payload, minted))) == Some(Obj(Claims(payload, minted)))
    ensures IsTokenValid(GenerateToken(payload, minted, stringify), now, parse) <==> now < minted + DAY_MS
  {
    TokenRoundTrip(payload, minted, stringify, parse);
  }
}
