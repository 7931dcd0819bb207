/**
 * `src/api/http.ts`: the CSRF token read from the cookie string and the
 * request interceptor that copies it into a header. The cookie string is a
 * parameter instead of `document.cookie`; the axios instance is not modelled.
 */
module Http {
  import opened Types

  const CookieKey: string := "csrftoken="

  /** The regular expression `/csrftoken=([^;]+)/` can match starting at `i`. */
  predicate MatchesAt(s: string, i: int) {
    && 0 <= i
    && i + |CookieKey| < |s|
    && s[i..i + |CookieKey|] == CookieKey
    && s[i + |CookieKey|] != ';'
  }

  /** The longest run of characters other than ';' that starts at `j`. */
  function ValueRun(s: string, j: nat): (r: string)
    requires j <= |s|
    ensures j + |r| <= |s| && r == s[j..j + |r|]
    ensures ';' !in r
    ensures j + |r| == |s| || s[j + |r|] == ';'
    decreases |s| - j
  {
    if j == |s| || s[j] == ';' then [] else [s[j]] + ValueRun(s, j + 1)
  }

  /** The leftmost position at or after `i` where the expression matches. */
  function FirstMatchFrom(s: string, i: nat): (r: Option<nat>)
    ensures r.Some? ==> i <= r.value && MatchesAt(s, r.value)
    ensures r.Some? ==> forall k :: i <= k < r.value ==> !MatchesAt(s, k)
    ensures r.None? ==> forall k :: i <= k ==> !MatchesAt(s, k)
    decreases |s| - i
  {
    if i + |CookieKey| >= |s| then None
    else if MatchesAt(s, i) then Some(i)
    else FirstMatchFrom(s, i + 1)
  }

  /**
   * `getCSRFToken()`: the capture group of the leftmost match, which runs to
   * the next ';' or to the end of the cookie string.
   */
  function GetCsrfToken(cookie: string): (r: Option<string>)
    ensures r.Some? <==> exists i :: MatchesAt(cookie, i)
    ensures r.Some? ==> |r.value| > 0 && ';' !in r.value
    ensures r.Some? ==> exists i :: && MatchesAt(cookie, i)
                                    && (forall k :: 0 <= k < i ==> !MatchesAt(cookie, k))
                                    && r.value == ValueRun(cookie, i + |CookieKey|)
  {
    match FirstMatchFrom(cookie, 0)
    case None => None
    case Some(i) => Some(ValueRun(cookie, i + |CookieKey|))
  }

  /** The key need not start a cookie: any text may precede it. */
  lemma UnanchoredMatch()
    ensures GetCsrfToken("xcsrftoken=v") == Some("v")
  {
    var s := "xcsrftoken=v";
    assert !MatchesAt(s, 0) by { assert s[0..10][0] == 'x'; }
    assert MatchesAt(s, 1) by { assert s[1..11] == CookieKey; }
    assert ValueRun(s, 11) == "v";
  }

  /** A key followed at once by ';' does not match; the search moves on to the next occurrence. */
  lemma EmptyValueSkipped()
    ensures GetCsrfToken("csrftoken=;csrftoken=ab") == Some("ab")
  {
    var head, tail := "csrftoken=;", "csrftoken=ab";
    var s := head + tail;
    assert s == "csrftoken=;csrftoken=ab";
    assert !MatchesAt(s, 0) by { assert s[10] == ';'; }
    forall k | 1 <= k <= 10 ensures !MatchesAt(s, k) {
      assert s[k..k + 10][10 - k] == s[10] == ';';
    }
    assert MatchesAt(s, 11) by {
      assert s[11..21] == tail[..10];
      assert tail[..10] == CookieKey;
      assert s[21] == 'a';
    }
    assert ValueRun(s, 21) == "ab" by {
      assert s[21..] == "ab";
    }
  }

  const MutatingMethods: seq<string> := ["post", "patch", "delete"]
  const CsrfHeader: string := "X-CSRFToken"

  /** `token && config.method && ['post', 'patch', 'delete'].includes(config.method)`. */
  predicate AttachesCsrf(token: Option<string>, httpMethod: Option<string>) {
    && token.Some? && token.value != ""
    && httpMethod.Some? && httpMethod.value != ""
    && httpMethod.value in MutatingMethods
  }

  /** The header goes on exactly when a token was found and the method is one of the three, spelled in lower case. */
  lemma HeaderRule(cookie: string, httpMethod: Option<string>)
    ensures AttachesCsrf(GetCsrfToken(cookie), httpMethod)
            <==> && GetCsrfToken(cookie).Some?
                 && httpMethod.Some?
                 && (httpMethod.value == "post" || httpMethod.value == "patch" || httpMethod.value == "delete")
  {
  }

  /** The request configuration the interceptor receives. */
  class RequestConfig {
    var httpMethod: Option<string>
    var url: string
    var headers: map<string, string>

    constructor (httpMethod: Option<string>, url: string, headers: map<string, string>)
      ensures this.httpMethod == httpMethod && this.url == url && this.headers == headers
    {
      this.httpMethod := httpMethod;
      this.url := url;
      this.headers := headers;
    }
  }

  /**
   * The request interceptor: adds the CSRF header in place when the rule
   * allows and hands back the very same configuration object.
   */
  method Intercept(config: RequestConfig, cookie: string) returns (r: RequestConfig)
    modifies config`headers
    ensures r == config
    ensures var token := GetCsrfToken(cookie);
            config.headers == if AttachesCsrf(token, config.httpMethod)
                              then old(config.headers)[CsrfHeader := token.value]
                              else old(config.headers)
  {
    var token := GetCsrfToken(cookie);
    if AttachesCsrf(token, config.httpMethod) {
      config.headers := config.headers[CsrfHeader := token.value];
    }
    r := config;
  }
}
