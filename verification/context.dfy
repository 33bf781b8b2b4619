/** Execution-context derivation (`ParseContext` in server.go): the caller's
    application id, bearer token, trace id and user query are read from
    request headers. Header names are looked up the way Go's `http.Header.Get`
    does, through the canonical MIME form of the name; the query header is
    parsed by `url.ParseQuery`, which is a parameter here. */
module Context {
  import opened Optional

  /** `url.Values`: a multi-valued string mapping. */
  type Values = map<string, seq<string>>

  /** `http.Header` of an incoming request, keyed by canonical names. */
  type Header = map<string, seq<string>>

  const AppIDHeader: string := "X-App-ID"
  const TokenHeader: string := "X-WebOffice-Token"
  const RequestIDHeader: string := "X-Request-ID"
  const UserQueryHeader: string := "X-User-Query"

  /** The same four names in the canonical form under which `http.Header`
      stores them (proved by `HeaderKeysCanonical`). */
  const AppIDKey: string := "X-App-Id"
  const TokenKey: string := "X-Weboffice-Token"
  const RequestIDKey: string := "X-Request-Id"
  const UserQueryKey: string := "X-User-Query"

  predicate IsUpper(c: char) { 'A' <= c <= 'Z' }
  predicate IsLower(c: char) { 'a' <= c <= 'z' }

  function ToUpper(c: char): char
    requires IsLower(c)
  {
    (c as int - 32) as char
  }

  function ToLower(c: char): char
    requires IsUpper(c)
  {
    (c as int + 32) as char
  }

  /** A character's lower-case form, for comparing names without case. */
  function Fold(c: char): char {
    if IsUpper(c) then ToLower(c) else c
  }

  /** The characters a header field name may contain (an RFC 7230 token). */
  predicate IsTokenChar(c: char) {
    IsUpper(c) || IsLower(c) || '0' <= c <= '9' || c in "!#$%&'*+-.^_`|~"
  }

  predicate IsToken(s: string) { forall i :: 0 <= i < |s| ==> IsTokenChar(s[i]) }

  /** Upper-cases the first letter and every letter after a hyphen, and
      lower-cases all others; `upper` says whether `s[0]` starts a word. */
  function CaseWords(s: string, upper: bool): (r: string)
    ensures |r| == |s|
    decreases |s|
  {
    if |s| == 0 then ""
    else
      var c := s[0];
      var c' := if upper && IsLower(c) then ToUpper(c)
                else if !upper && IsUpper(c) then ToLower(c)
                else c;
      [c'] + CaseWords(s[1..], c == '-')
  }

  /** Go's `textproto.CanonicalMIMEHeaderKey`: "x-app-id" becomes
      "X-App-Id"; a name with a non-token character is left as it is. */
  function CanonicalKey(name: string): (key: string)
    ensures |key| == |name|
    ensures SameIgnoringCase(key, name)
    ensures !IsToken(name) ==> key == name
  {
    CaseWordsOnlyChangesCase(name, true);
    if IsToken(name) then CaseWords(name, true) else name
  }

  /** The first value stored under `key`, or the empty string. */
  function FirstValue(h: Header, key: string): (v: string)
    ensures v != "" ==> key in h && |h[key]| > 0
    ensures key in h && |h[key]| > 0 ==> v == h[key][0]
  {
    if key in h && |h[key]| > 0 then h[key][0] else ""
  }

  /** `h.Get(name)`: the first value stored under the canonical name, or
      the empty string. */
  function HeaderGet(h: Header, name: string): (v: string)
    ensures v != "" ==> CanonicalKey(name) in h && |h[CanonicalKey(name)]| > 0
    ensures CanonicalKey(name) in h && |h[CanonicalKey(name)]| > 0 ==> v == h[CanonicalKey(name)][0]
  {
    FirstValue(h, CanonicalKey(name))
  }

  /** `UserContext`: what every provider call receives. */
  datatype UserContext = UserContext(appID: string, token: string, query: Values, requestID: string)

  /** The result of `ParseContext`: a context, or the panic raised when the
      token header is empty. */
  datatype Derivation = Derived(ctx: UserContext) | TokenMissing

  /** `ParseContext(req)`, with `url.ParseQuery` as `parseQuery` (`None` is
      its error). */
  function ParseContext(h: Header, parseQuery: string -> Option<Values>): (r: Derivation)
    ensures r.TokenMissing? <==> FirstValue(h, TokenKey) == ""
    ensures r.Derived? ==> r.ctx.token == FirstValue(h, TokenKey) && r.ctx.token != ""
    ensures r.Derived? ==> r.ctx.appID == FirstValue(h, AppIDKey)
    ensures r.Derived? ==> r.ctx.requestID == FirstValue(h, RequestIDKey)
    ensures r.Derived? && parseQuery(FirstValue(h, UserQueryKey)).Some? ==>
              r.ctx.query == parseQuery(FirstValue(h, UserQueryKey)).value
    ensures r.Derived? && parseQuery(FirstValue(h, UserQueryKey)).None? ==> r.ctx.query == map[]
  {
    var appID := FirstValue(h, AppIDKey);
    var token := FirstValue(h, TokenKey);
    var requestID := FirstValue(h, RequestIDKey);
    if token == "" then TokenMissing
    else
      var query := match parseQuery(FirstValue(h, UserQueryKey))
                   case Some(v) => v
                   case None => map[];
      Derived(UserContext(appID, token, query, requestID))
  }

  /** The headers a client sends to convey `ctx`, with `rawQuery` as the
      text of the query header. */
  function HeadersFor(ctx: UserContext, rawQuery: string): Header {
    map[
      AppIDKey := [ctx.appID],
      TokenKey := [ctx.token],
      RequestIDKey := [ctx.requestID],
      UserQueryKey := [rawQuery]
    ]
  }

  /** Character `i` of a canonicalized name: upper case where a word starts
      (the first character when `upper`, otherwise after a hyphen), lower
      case elsewhere. */
  function CaseAt(s: string, upper: bool, i: nat): char
    requires i < |s|
  {
    var starts := if i == 0 then upper else s[i - 1] == '-';
    if starts && IsLower(s[i]) then ToUpper(s[i])
    else if !starts && IsUpper(s[i]) then ToLower(s[i])
    else s[i]
  }

  lemma {:induction false} CaseWordsAt(s: string, upper: bool, i: nat)
    requires i < |s|
    ensures CaseWords(s, upper)[i] == CaseAt(s, upper, i)
    decreases i
  {
    if i > 0 {
      CaseWordsAt(s[1..], s[0] == '-', i - 1);
      assert CaseWords(s, upper)[i] == CaseWords(s[1..], s[0] == '-')[i - 1];
      assert s[1..][i - 1] == s[i];
      if i > 1 {
        assert s[1..][i - 2] == s[i - 1];
      }
    }
  }

  /** A well-formed name canonicalizes to `key` when `key` is cased
      character by character as `CaseAt` says. */
  lemma CanonicalKeyIs(name: string, key: string)
    requires IsToken(name) && |key| == |name|
    requires forall i: nat :: i < |name| ==> CaseAt(name, true, i) == key[i]
    ensures CanonicalKey(name) == key
  {
    forall i: nat | i < |name| ensures CanonicalKey(name)[i] == key[i] {
      CaseWordsAt(name, true, i);
    }
  }

  lemma AppIDKeyCanonical()
    ensures CanonicalKey(AppIDHeader) == AppIDKey
  {
    CanonicalKeyIs(AppIDHeader, AppIDKey);
  }

  lemma TokenKeyCanonical()
    ensures CanonicalKey(TokenHeader) == TokenKey
  {
    CanonicalKeyIs(TokenHeader, TokenKey);
  }

  lemma RequestIDKeyCanonical()
    ensures CanonicalKey(RequestIDHeader) == RequestIDKey
  {
    CanonicalKeyIs(RequestIDHeader, RequestIDKey);
  }

  lemma UserQueryKeyCanonical()
    ensures CanonicalKey(UserQueryHeader) == UserQueryKey
  {
    CanonicalKeyIs(UserQueryHeader, UserQueryKey);
  }

  /** The four header names, as `textproto.CanonicalMIMEHeaderKey` turns
      them into map keys: "X-WebOffice-Token" is stored as
      "X-Weboffice-Token", "X-App-ID" as "X-App-Id". */
  lemma HeaderKeysCanonical()
    ensures CanonicalKey(AppIDHeader) == AppIDKey
    ensures CanonicalKey(TokenHeader) == TokenKey
    ensures CanonicalKey(RequestIDHeader) == RequestIDKey
    ensures CanonicalKey(UserQueryHeader) == UserQueryKey
  {
    AppIDKeyCanonical();
    TokenKeyCanonical();
    RequestIDKeyCanonical();
    UserQueryKeyCanonical();
  }

  /** `ParseContext` reads each field through `h.Get` of its header name. */
  lemma ParseContextUsesHeaderGet(h: Header, parseQuery: string -> Option<Values>)
    ensures ParseContext(h, parseQuery).TokenMissing? <==> HeaderGet(h, TokenHeader) == ""
    ensures var r := ParseContext(h, parseQuery);
            r.Derived? ==> r.ctx.token == HeaderGet(h, TokenHeader)
                           && r.ctx.appID == HeaderGet(h, AppIDHeader)
                           && r.ctx.requestID == HeaderGet(h, RequestIDHeader)
    ensures var r := ParseContext(h, parseQuery);
            r.Derived? && parseQuery(HeaderGet(h, UserQueryHeader)).Some? ==>
              r.ctx.query == parseQuery(HeaderGet(h, UserQueryHeader)).value
    ensures var r := ParseContext(h, parseQuery);
            r.Derived? && parseQuery(HeaderGet(h, UserQueryHeader)).None? ==> r.ctx.query == map[]
  {
    HeaderKeysCanonical();
  }

  lemma {:induction false} CaseWordsOnlyChangesCase(s: string, upper: bool)
    ensures SameIgnoringCase(CaseWords(s, upper), s)
    decreases |s|
  {
    if |s| > 0 {
      var r := CaseWords(s, upper);
      CaseWordsOnlyChangesCase(s[1..], s[0] == '-');
      assert r[1..] == CaseWords(s[1..], s[0] == '-');
      forall i | 1 <= i < |s| ensures Fold(r[i]) == Fold(s[i]) {
        assert r[i] == r[1..][i - 1];
      }
    }
  }

  /** Whatever context a client means to send, `ParseContext` recovers it
      from the headers, provided the token is non-empty and the query text
      parses to the intended values. */
  lemma ContextRoundTrip(ctx: UserContext, rawQuery: string, parseQuery: string -> Option<Values>)
    requires ctx.token != ""
    requires parseQuery(rawQuery) == Some(ctx.query)
    ensures ParseContext(HeadersFor(ctx, rawQuery), parseQuery) == Derived(ctx)
  {
  }

  /** A malformed query header never fails the derivation: it yields the
      empty mapping. */
  lemma MalformedQueryIsEmpty(h: Header, parseQuery: string -> Option<Values>)
    requires FirstValue(h, TokenKey) != ""
    requires parseQuery(FirstValue(h, UserQueryKey)).None?
    ensures ParseContext(h, parseQuery).Derived?
    ensures ParseContext(h, parseQuery).ctx.query == map[]
  {
  }

  lemma {:induction false} CaseWordsKeepsTokens(s: string, upper: bool)
    requires IsToken(s)
    ensures IsToken(CaseWords(s, upper))
    ensures forall i :: 0 <= i < |s| ==> (CaseWords(s, upper)[i] == '-' <==> s[i] == '-')
    decreases |s|
  {
    if |s| > 0 {
      CaseWordsKeepsTokens(s[1..], s[0] == '-');
      var r := CaseWords(s, upper);
      forall i | 0 <= i < |s| ensures IsTokenChar(r[i]) && (r[i] == '-' <==> s[i] == '-') {
        if i > 0 {
          assert r[i] == CaseWords(s[1..], s[0] == '-')[i - 1];
        }
      }
    }
  }

  lemma {:induction false} CaseWordsIdempotent(s: string, upper: bool)
    ensures CaseWords(CaseWords(s, upper), upper) == CaseWords(s, upper)
    decreases |s|
  {
    if |s| > 0 {
      var r := CaseWords(s, upper);
      CaseWordsIdempotent(s[1..], s[0] == '-');
      assert r[1..] == CaseWords(s[1..], s[0] == '-');
      assert r[0] == '-' <==> s[0] == '-';
    }
  }

  /** Canonicalizing a canonical name changes nothing. */
  lemma CanonicalKeyIdempotent(name: string)
    ensures CanonicalKey(CanonicalKey(name)) == CanonicalKey(name)
  {
    if IsToken(name) {
      CaseWordsKeepsTokens(name, true);
      CaseWordsIdempotent(name, true);
    }
  }

  predicate SameIgnoringCase(a: string, b: string) {
    |a| == |b| && forall i :: 0 <= i < |a| ==> Fold(a[i]) == Fold(b[i])
  }

  lemma {:induction false} CaseWordsIgnoresCase(a: string, b: string, upper: bool)
    requires SameIgnoringCase(a, b)
    ensures CaseWords(a, upper) == CaseWords(b, upper)
    decreases |a|
  {
    if |a| > 0 {
      assert Fold(a[0]) == Fold(b[0]);
      assert SameIgnoringCase(a[1..], b[1..]) by {
        forall i | 0 <= i < |a| - 1 ensures Fold(a[1..][i]) == Fold(b[1..][i]) {
          assert Fold(a[i + 1]) == Fold(b[i + 1]);
        }
      }
      CaseWordsIgnoresCase(a[1..], b[1..], a[0] == '-');
    }
  }

  /** Lookup of a well-formed header name does not depend on how its
      letters are cased: `Get("x-weboffice-token")` finds what
      `Get("X-WebOffice-Token")` does. */
  lemma HeaderGetIgnoresCase(h: Header, a: string, b: string)
    requires IsToken(a)
    requires SameIgnoringCase(a, b)
    ensures HeaderGet(h, a) == HeaderGet(h, b)
  {
    assert IsToken(b) by {
      forall i | 0 <= i < |b| ensures IsTokenChar(b[i]) {
        assert Fold(a[i]) == Fold(b[i]);
      }
    }
    CaseWordsIgnoresCase(a, b, true);
  }
}
