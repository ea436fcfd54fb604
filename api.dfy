/** The shared HTTP client (src/services/api.ts): its base URL, normalised
    once from the environment, and the default headers that `setAuthToken`
    edits in place. Request and response logging is not modelled. */
module Api {
  import opened Base
  import opened Text

  const AuthorizationHeader := "Authorization"

  /** Strips every trailing '/'. */
  function StripTrailingSlashes(s: string): (r: string)
    ensures r <= s
    ensures r == [] || r[|r| - 1] != '/'
    ensures forall i :: |r| <= i < |s| ==> s[i] == '/'
  {
    if s != [] && s[|s| - 1] == '/' then StripTrailingSlashes(s[..|s| - 1]) else s
  }

  /** `BASE = (API_URL || "").trim().replace(/\/+$/, "")`: the configured URL,
      trimmed, with no trailing slash. */
  function NormalizeBase(apiUrl: Option<string>): (r: string)
    ensures r == [] || r[|r| - 1] != '/'
    ensures |r| <= |OrDefault(apiUrl, "")|
  {
    StripTrailingSlashes(Trim(OrDefault(apiUrl, "")))
  }

  /** A URL already free of surrounding whitespace and trailing slashes is
      taken as it is. */
  lemma NormalizeBaseKeepsCleanUrl(url: string)
    requires url == [] || (!IsSpace(url[0]) && !IsSpace(url[|url| - 1]) && url[|url| - 1] != '/')
    ensures NormalizeBase(Some(url)) == url
  {
    TrimNoSurroundingSpace(url);
  }

  /** Normalising again changes nothing, provided the first pass did not
      leave whitespace at the end (the slash strip runs after the trim). */
  lemma NormalizeBaseIdempotent(apiUrl: Option<string>)
    requires var b := NormalizeBase(apiUrl); b == [] || !IsSpace(b[|b| - 1])
    ensures NormalizeBase(Some(NormalizeBase(apiUrl))) == NormalizeBase(apiUrl)
  {
    var b := NormalizeBase(apiUrl);
    var t := Trim(OrDefault(apiUrl, ""));
    if b != [] {
      assert b[0] == t[0];
    }
    NormalizeBaseKeepsCleanUrl(b);
  }

  /** Whitespace before trailing slashes survives the first pass, so the
      normalisation is not idempotent in general: "a /" gives "a ", which
      normalises to "a". */
  lemma NormalizeBaseNotIdempotent()
    ensures NormalizeBase(Some("a /")) == "a "
    ensures NormalizeBase(Some("a ")) == "a"
  {
    FirstPassKeepsSpace();
    SecondPassTrims();
  }

  lemma FirstPassKeepsSpace()
    ensures NormalizeBase(Some("a /")) == "a "
  {
    var raw: string := "a /";
    var once: string := "a ";
    assert !IsSpace(raw[0]) && !IsSpace(raw[|raw| - 1]);
    TrimNoSurroundingSpace(raw);
    assert raw[..|raw| - 1] == once;
    assert StripTrailingSlashes(raw) == StripTrailingSlashes(once);
  }

  lemma SecondPassTrims()
    ensures NormalizeBase(Some("a ")) == "a"
  {
    var once: string := "a ";
    var r := Trim(once);
    assert !IsSpace(once[0]) && IsSpace(once[1]);
    assert TrimOffset(once) == 0;
    assert |r| == 1;
    assert r == once[..1];
    assert OrDefault(Some(once), "") == once;
    assert StripTrailingSlashes(r) == r;
  }

  /** The header set after `setAuthToken(token)`: a truthy token installs
      "Bearer <token>", null or "" removes the entry; nothing else moves. */
  function WithAuthToken(headers: map<string, string>, token: Option<string>): (r: map<string, string>)
    ensures Truthy(token) ==> AuthorizationHeader in r && r[AuthorizationHeader] == "Bearer " + token.value
    ensures !Truthy(token) ==> AuthorizationHeader !in r
    ensures forall k :: k != AuthorizationHeader ==> (k in r <==> k in headers)
    ensures forall k :: k != AuthorizationHeader && k in r ==> r[k] == headers[k]
  {
    if Truthy(token) then headers[AuthorizationHeader := "Bearer " + token.value]
    else headers - {AuthorizationHeader}
  }

  /** A later call overrides an earlier one. */
  lemma WithAuthTokenOverrides(headers: map<string, string>, first: Option<string>, second: Option<string>)
    ensures WithAuthToken(WithAuthToken(headers, first), second) == WithAuthToken(headers, second)
  {
    var l := WithAuthToken(WithAuthToken(headers, first), second);
    var r := WithAuthToken(headers, second);
    assert l.Keys == r.Keys;
  }

  /** The header set after a sequence of `setAuthToken` calls. */
  function AfterTokens(headers: map<string, string>, tokens: seq<Option<string>>): map<string, string>
    decreases |tokens|
  {
    if tokens == [] then headers else AfterTokens(WithAuthToken(headers, tokens[0]), tokens[1..])
  }

  /** In a sequence of calls the last one wins. */
  lemma {:induction false} LastTokenWins(headers: map<string, string>, tokens: seq<Option<string>>)
    requires tokens != []
    ensures AfterTokens(headers, tokens) == WithAuthToken(headers, tokens[|tokens| - 1])
    decreases |tokens|
  {
    if |tokens| > 1 {
      LastTokenWins(WithAuthToken(headers, tokens[0]), tokens[1..]);
      WithAuthTokenOverrides(headers, tokens[0], tokens[|tokens| - 1]);
    }
  }

  /** `api1`: the axios instance every screen uses. */
  class Client {
    const baseUrl: string
    var commonHeaders: map<string, string>

    constructor (apiUrl: Option<string>)
      ensures baseUrl == NormalizeBase(apiUrl)
      ensures commonHeaders == map[]
    {
      baseUrl := NormalizeBase(apiUrl);
      commonHeaders := map[];
    }

    /** `setAuthToken` */
    method SetAuthToken(token: Option<string>)
      modifies this
      ensures commonHeaders == WithAuthToken(old(commonHeaders), token)
    {
      if Truthy(token) {
        commonHeaders := commonHeaders[AuthorizationHeader := "Bearer " + token.value];
      } else {
        commonHeaders := commonHeaders - {AuthorizationHeader};
      }
    }
  }
}
