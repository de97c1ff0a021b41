/** `createSolapiAuthHeader`: the `Authorization` value for the SMS provider.
    The clock, the random salt and the HMAC-SHA256 digest are inputs. */
module Signer {
  import opened Wrappers
  import opened Js

  /** The computation `createHmac('sha256', secret).update(message).digest('hex')`:
      the hex digest, or the error it throws (Node throws when the secret is
      not a string or buffer, for instance when `SOLAPI_API_SECRET` is unset). */
  type Hmac = (Option<string>, string) -> Result<string, ErrorObject>

  /** The header's fixed text up to the API key. */
  const HeaderStart: string := "HMAC-SHA256 apiKey="
  const DateLabel: string := ", date="
  const SaltLabel: string := ", salt="
  const SignatureLabel: string := ", signature="

  function AuthHeader(apiKey: string, date: string, salt: string, signature: string): string {
    HeaderStart + apiKey + DateLabel + date + SaltLabel + salt + SignatureLabel + signature
  }

  /** `createSolapiAuthHeader(apiKey, apiSecret)` with the ISO-8601 time `now`
      and the hex `salt`: the signature is the HMAC of `now + salt` under the
      secret, and a throwing HMAC propagates its error. */
  function CreateAuthHeader(apiKey: Option<string>, apiSecret: Option<string>, now: string, salt: string, hmac: Hmac)
    : (r: Result<string, ErrorObject>)
    ensures r.Err? <==> hmac(apiSecret, now + salt).Err?
    ensures r.Err? ==> r.error == hmac(apiSecret, now + salt).error
    ensures r.Ok? && ',' !in now && ',' !in salt && ',' !in hmac(apiSecret, now + salt).value ==>
      ParseAuthHeader(r.value) == Some(AuthFields(EnvText(apiKey), now, salt, hmac(apiSecret, now + salt).value))
  {
    match hmac(apiSecret, now + salt)
    case Err(e) => Err(e)
    case Ok(signature) =>
      var header := AuthHeader(EnvText(apiKey), now, salt, signature);
      // Both branches give the same header; the first only brings in the
      // round-trip lemma, whose precondition holds there, for the last ensures.
      if ',' !in now && ',' !in salt && ',' !in signature then
        ParseAuthHeaderRoundTrip(EnvText(apiKey), now, salt, signature);
        Ok(header)
      else
        Ok(header)
  }

  /** The four values a header carries, in header order. */
  datatype AuthFields = AuthFields(apiKey: string, date: string, salt: string, signature: string)

  /** Index of the last comma in `s`, or -1 when there is none. */
  function LastComma(s: string): (k: int)
    ensures -1 <= k < |s|
    ensures k >= 0 ==> s[k] == ','
    ensures forall j :: k < j < |s| ==> s[j] != ','
  {
    if s == [] then -1 else if s[|s| - 1] == ',' then |s| - 1 else LastComma(s[..|s| - 1])
  }

  /** Cuts `s` at its last comma, which must begin `tag`: what stands before
      the tag, and what follows it. */
  function CutLast(s: string, tag: string): Option<(string, string)> {
    var k := LastComma(s);
    if k >= 0 && |s| - k >= |tag| && s[k..k + |tag|] == tag then Some((s[..k], s[k + |tag|..]))
    else None
  }

  /** Reads a header back into its fields, from the right: signature, salt,
      date, and what remains is the API key. */
  function ParseAuthHeader(h: string): Option<AuthFields> {
    if |h| < |HeaderStart| || h[..|HeaderStart|] != HeaderStart then None
    else
      match CutLast(h[|HeaderStart|..], SignatureLabel)
      case None => None
      case Some((r1, signature)) =>
        match CutLast(r1, SaltLabel)
        case None => None
        case Some((r2, salt)) =>
          match CutLast(r2, DateLabel)
          case None => None
          case Some((apiKey, date)) => Some(AuthFields(apiKey, date, salt, signature))
  }

  lemma CutLastOf(a: string, tag: string, b: string)
    requires |tag| > 0 && tag[0] == ',' && ',' !in tag[1..] && ',' !in b
    ensures CutLast(a + tag + b, tag) == Some((a, b))
  {
    var s := a + tag + b;
    var k := LastComma(s);
    assert s[|a|] == ',';
    forall j | |a| < j < |s|
      ensures s[j] != ','
    {
      if j < |a| + |tag| {
        assert s[j] == tag[1..][j - |a| - 1];
      } else {
        assert s[j] == b[j - |a| - |tag|];
      }
    }
    assert k == |a|;
    assert s[k..k + |tag|] == tag;
    assert s[..k] == a && s[k + |tag|..] == b;
  }

  /** The header keeps its fields in the order apiKey, date, salt, signature
      and loses none of them: whenever date, salt and signature contain no
      comma (an ISO-8601 time and hex strings never do), parsing gives them back. */
  lemma ParseAuthHeaderRoundTrip(apiKey: string, date: string, salt: string, signature: string)
    requires ',' !in date && ',' !in salt && ',' !in signature
    ensures ParseAuthHeader(AuthHeader(apiKey, date, salt, signature)) == Some(AuthFields(apiKey, date, salt, signature))
  {
    var h := AuthHeader(apiKey, date, salt, signature);
    var r2 := apiKey + DateLabel + date;
    var r1 := r2 + SaltLabel + salt;
    assert h[..|HeaderStart|] == HeaderStart;
    assert h[|HeaderStart|..] == r1 + SignatureLabel + signature;
    CutLastOf(r1, SignatureLabel, signature);
    CutLastOf(r2, SaltLabel, salt);
    CutLastOf(apiKey, DateLabel, date);
  }
}
