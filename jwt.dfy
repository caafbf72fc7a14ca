/** The claim checks the client makes on its bearer credential (jwt.py). The signature
    is never checked: the client only reads the payload of a token it just received from
    the identity provider or wrote itself into an owner-only file. */
module Jwt {
  import opened Common
  import opened Strings

  /** The claims the client reads from a payload; an absent claim is `None`.
      `nbf` and `exp` are POSIX timestamps in whole seconds. */
  datatype Claims = Claims(preferredUsername: Option<string>, nbf: Option<int>, exp: Option<int>)

  /** Base64 and JSON decoding of a padded payload segment: the claims it holds, or `None`
      when the decoding raises. */
  type Decoder = string -> Option<Claims>

  /** `token.split(".", 3)[1] + "=="`: the payload segment with padding appended, or the
      IndexError Python raises when the token has no ".". */
  function PayloadSegment(token: string): (r: Result<string>)
    ensures r.Err? <==> '.' !in token
    ensures r.Err? ==> r.error == IndexError
    ensures r.Ok? ==> |r.value| >= 2 && r.value[|r.value| - 2..] == "=="
  {
    var parts := Split(token, '.', 3);
    SplitPieces(token, '.', 3);
    if |parts| < 2 then Err(IndexError) else Ok(parts[1] + "==")
  }

  /** The second dot-separated segment is the payload, whatever follows a third dot. */
  lemma PayloadSegmentOf(header: string, payload: string, rest: string)
    requires '.' !in header && '.' !in payload
    ensures PayloadSegment(header + "." + payload + "." + rest) == Ok(payload + "==")
    ensures PayloadSegment(header + "." + payload) == Ok(payload + "==")
  {
    SplitAfter(header, '.', payload + "." + rest, 3);
    assert header + "." + payload + "." + rest == header + ['.'] + (payload + "." + rest);
    SplitAfter(payload, '.', rest, 2);
    assert payload + "." + rest == payload + ['.'] + rest;
    SplitAfter(header, '.', payload, 3);
    SplitPieces(payload, '.', 2);
  }

  /** `extract_payload`: no claims for no token; otherwise the decoded payload segment,
      or the failure its extraction or decoding raises. */
  function ExtractPayload(token: Option<string>, decode: Decoder): (r: Result<Option<Claims>>)
    ensures token.None? <==> r == Ok(None)
    ensures token.Some? && '.' !in token.value ==> r == Err(IndexError)
    ensures r.Ok? && r.value.Some? ==>
      token.Some? && PayloadSegment(token.value).Ok? && decode(PayloadSegment(token.value).value) == r.value
    ensures token.Some? && PayloadSegment(token.value).Ok? ==>
      var decoded := decode(PayloadSegment(token.value).value);
      && (decoded.Some? ==> r == Ok(decoded))
      && (decoded.None? ==> r == Err(DecodeError))
  {
    match token
    case None => Ok(None)
    case Some(t) =>
      match PayloadSegment(t)
      case Err(e) => Err(e)
      case Ok(segment) =>
        match decode(segment)
        case None => Err(DecodeError)
        case Some(claims) => Ok(Some(claims))
  }

  /** Whether `now` lies in the inclusive window the claims allow; a missing bound does
      not constrain its side. */
  predicate InWindow(c: Claims, now: int)
  {
    (c.nbf.None? || c.nbf.value <= now) && (c.exp.None? || now <= c.exp.value)
  }

  /** `get_username`: no user for a missing or empty token, otherwise the
      `preferred_username` claim when present. */
  function GetUsername(token: Option<string>, decode: Decoder): (r: Result<Option<string>>)
    ensures token.None? || token == Some("") ==> r == Ok(None)
    ensures token.Some? && token.value != "" ==>
      (r.Err? <==> ExtractPayload(token, decode).Err?)
    ensures r.Ok? && r.value.Some? ==>
      token.Some? && ExtractPayload(token, decode) == Ok(Some(ExtractPayload(token, decode).value.value))
      && ExtractPayload(token, decode).value.value.preferredUsername == r.value
    ensures token.Some? && token.value != "" && ExtractPayload(token, decode).Ok? ==>
      r == Ok(ExtractPayload(token, decode).value.value.preferredUsername)
  {
    if token.None? || token.value == "" then Ok(None)
    else
      match ExtractPayload(token, decode)
      case Err(e) => Err(e)
      case Ok(payload) => Ok(payload.value.preferredUsername)
  }

  /** `valid`: false for a missing or empty token without decoding anything; otherwise
      whether `now` lies in the window of the decoded claims, or the decoding failure. */
  function Valid(token: Option<string>, now: int, decode: Decoder): (r: Result<bool>)
    ensures token.None? || token == Some("") ==> r == Ok(false)
    ensures r == Ok(true) <==>
      token.Some? && token.value != "" && ExtractPayload(token, decode).Ok?
      && InWindow(ExtractPayload(token, decode).value.value, now)
    ensures r.Err? <==> token.Some? && token.value != "" && ExtractPayload(token, decode).Err?
  {
    if token.None? || token.value == "" then Ok(false)
    else
      match ExtractPayload(token, decode)
      case Err(e) => Err(e)
      case Ok(payload) =>
        var claims := payload.value;
        if claims.nbf.Some? && claims.nbf.value > now then Ok(false)
        else if claims.exp.Some? && claims.exp.value < now then Ok(false)
        else Ok(true)
  }

  /** The window's edges: `nbf == now` and `exp == now` are accepted, one second
      beyond either bound is refused, and absent bounds accept every instant. */
  lemma WindowBoundaries(c: Claims, now: int)
    ensures c.nbf == Some(now) && (c.exp.None? || now <= c.exp.value) ==> InWindow(c, now)
    ensures c.exp == Some(now) && (c.nbf.None? || c.nbf.value <= now) ==> InWindow(c, now)
    ensures c.nbf == Some(now + 1) ==> !InWindow(c, now)
    ensures c.exp == Some(now - 1) ==> !InWindow(c, now)
    ensures c.nbf.None? && c.exp.None? ==> InWindow(c, now)
  {
  }

  /** Two tokens with the same payload segment get the same verdict and the same user. */
  lemma SameSegmentSameClaims(t1: string, t2: string, now: int, decode: Decoder)
    requires t1 != "" && t2 != "" && PayloadSegment(t1) == PayloadSegment(t2)
    ensures Valid(Some(t1), now, decode) == Valid(Some(t2), now, decode)
    ensures GetUsername(Some(t1), decode) == GetUsername(Some(t2), decode)
  {
    assert ExtractPayload(Some(t1), decode) == ExtractPayload(Some(t2), decode);
  }

  /** A token is judged on its payload segment alone: appending to its last segment (the
      newline a cache file adds, say) does not change the verdict when the token has its
      three segments. */
  lemma ValidIgnoresSignatureSuffix(header: string, payload: string, signature: string, suffix: string,
                                    now: int, decode: Decoder)
    requires '.' !in header && '.' !in payload
    ensures Valid(Some(header + "." + payload + "." + signature + suffix), now, decode)
         == Valid(Some(header + "." + payload + "." + signature), now, decode)
    ensures GetUsername(Some(header + "." + payload + "." + signature + suffix), decode)
         == GetUsername(Some(header + "." + payload + "." + signature), decode)
  {
    var token := header + "." + payload + "." + signature;
    var longer := token + suffix;
    assert longer == header + "." + payload + "." + (signature + suffix);
    PayloadSegmentOf(header, payload, signature + suffix);
    PayloadSegmentOf(header, payload, signature);
    assert |token| > 0 && |longer| > 0;
    SameSegmentSameClaims(longer, token, now, decode);
  }
}
