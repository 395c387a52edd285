/**
 * Bearer-token verification for the collector: the JWS compact form (three
 * dot-separated base64url segments, section 7.1 of RFC 7515), RS256 only
 * (section 3.3 of RFC 7518), a JWKS key cache with a five-minute lifetime, and the
 * `exp`, `nbf`, `iss` and `aud` claims of section 4.1 of RFC 7519.
 *
 * Base64 decoding plus `JSON.parse`, the JWKS fetch and the RSA signature check
 * are parameters: `decodeJson` maps standard padded base64 text to the JSON it
 * encodes (`None` when that throws), `fetched` is the downloaded key list
 * (`None` when the fetch fails) and `signatureOk` is the verdict of
 * `crypto.verify` for a key, the signing input and the signature text.
 */
module Jwt {
  import opened Wrappers
  import opened Json
  import opened Text

  const JWKS_TTL_MS := 5 * 60 * 1000

  datatype JwtConfig = JwtConfig(jwksUrl: string, issuer: string, audience: string)

  /** A JSON Web Key; the key material itself is opaque here. `kid` is "" when absent. */
  datatype Jwk = Jwk(kid: string, material: map<string, Json>)

  datatype JwtError =
    | InvalidFormat | UndecodableSegment | UnsupportedAlg | JwksFetchFailed | KeyNotFound
    | SignatureInvalid | NullPayload | Expired | NotActive | IssuerMismatch | AudienceMismatch
    | KeyUnusable

  // ---- base64url (section 5 of RFC 4648) -------------------------------------------

  function UrlToStd(c: char): char {
    if c == '-' then '+' else if c == '_' then '/' else c
  }

  function StdToUrl(c: char): char {
    if c == '+' then '-' else if c == '/' then '_' else c
  }

  /** The length `padEnd` reaches: the next multiple of four. */
  function PaddedLength(n: nat): (m: nat)
    ensures m % 4 == 0 && n <= m < n + 4
  {
    if n % 4 == 0 then n else n + (4 - n % 4)
  }

  /** `base64UrlDecode`'s text step: `-` to `+`, `_` to `/`, then `=` padding. */
  function Base64UrlNormalize(s: string): (r: string)
    ensures |r| == PaddedLength(|s|)
    ensures forall i :: 0 <= i < |s| ==> r[i] == UrlToStd(s[i])
    ensures forall i :: |s| <= i < |r| ==> r[i] == '='
  {
    seq(|s|, i requires 0 <= i < |s| => UrlToStd(s[i])) + Repeat('=', PaddedLength(|s|) - |s|)
  }

  /** Drop the padding and map back to the URL-safe alphabet. */
  function Base64UrlOf(r: string): string {
    var k := IndexOf(r, '=');
    seq(k, i requires 0 <= i < k && k <= |r| => StdToUrl(r[i]))
  }

  predicate IsUrlSafeText(s: string) {
    forall i :: 0 <= i < |s| ==> s[i] != '=' && s[i] != '+' && s[i] != '/'
  }

  /** Normalisation loses nothing for text in the URL-safe alphabet. */
  lemma NormalizeRoundTrip(s: string)
    requires IsUrlSafeText(s)
    ensures Base64UrlOf(Base64UrlNormalize(s)) == s
  {
    var r := Base64UrlNormalize(s);
    var k := IndexOf(r, '=');
    if |r| > |s| {
      assert r[|s|] == '=';
      assert '=' !in r[..|s|];
    }
    assert k == |s|;
  }

  /** Normalised text holds no URL-safe character and no `=` before the padding. */
  lemma NormalizedAlphabet(s: string)
    requires forall i :: 0 <= i < |s| ==> s[i] != '='
    ensures var r := Base64UrlNormalize(s);
            && (forall i :: 0 <= i < |r| ==> r[i] != '-' && r[i] != '_')
            && IndexOf(r, '=') == |s|
  {
    var r := Base64UrlNormalize(s);
    if |r| > |s| {
      assert r[|s|] == '=';
    }
  }

  // ---- the key cache --------------------------------------------------------------------

  /** A JWKS as the cache holds it: keys by `kid`, in insertion order. */
  type KeyTable = seq<(string, Jwk)>

  datatype CacheEntry = CacheEntry(fetchedAt: int, keys: KeyTable)

  /**
   * The names a plain `{}` inherits from `Object.prototype` (section 20.1.3 of ECMA-262):
   * reading one that is not an own key yields a function, or for `__proto__` the prototype itself.
   */
  const OBJECT_PROTOTYPE_NAMES: set<string> :=
    {"constructor", "hasOwnProperty", "isPrototypeOf", "propertyIsEnumerable", "toLocaleString",
     "toString", "valueOf", "__proto__", "__defineGetter__", "__defineSetter__",
     "__lookupGetter__", "__lookupSetter__"}

  /** What `keys[kid]` reads: an own key, or a member inherited from `Object.prototype`. */
  datatype KeyValue = OwnKey(jwk: Jwk) | Inherited(name: string)

  function Lookup(t: KeyTable, kid: string): (r: Option<Jwk>)
    ensures r.Some? <==> exists i :: 0 <= i < |t| && t[i].0 == kid
    ensures r.Some? ==> exists i :: 0 <= i < |t| && t[i] == (kid, r.value)
  {
    if |t| == 0 then None else if t[0].0 == kid then Some(t[0].1) else
      var rest := Lookup(t[1..], kid);
      assert rest.Some? ==> exists i :: 0 <= i < |t[1..]| && t[1..][i] == (kid, rest.value);
      assert rest.None? ==> forall i :: 1 <= i < |t| ==> t[i].0 != kid by {
        if rest.None? {
          forall i | 1 <= i < |t| ensures t[i].0 != kid {
            assert t[i] == t[1..][i - 1];
          }
        }
      }
      rest
  }

  /** `keys[kid] = key`: an existing entry is overwritten where it stands, a new one goes last. */
  function Put(t: KeyTable, kid: string, key: Jwk): KeyTable {
    if |t| == 0 then [(kid, key)]
    else if t[0].0 == kid then [(kid, key)] + t[1..]
    else [t[0]] + Put(t[1..], kid, key)
  }

  /**
   * `keys[key.kid] = key` adds an own entry for every non-empty `kid` but `__proto__`,
   * whose assignment replaces the table's prototype instead.
   */
  predicate Indexable(kid: string) {
    kid != "" && kid != "__proto__"
  }

  /** The table built from a fetched key list: keys without a `kid` are discarded. */
  function IndexKeys(ks: seq<Jwk>): KeyTable
    decreases |ks|
  {
    if |ks| == 0 then []
    else
      var t := IndexKeys(ks[..|ks| - 1]);
      var key := ks[|ks| - 1];
      if Indexable(key.kid) then Put(t, key.kid, key) else t
  }

  /**
   * The value `getJwk` answers with: the own key named by a non-empty `kid`; else the
   * inherited member that `kid` names; else the first key.
   */
  function Pick(t: KeyTable, kid: Option<string>): (r: Option<KeyValue>)
    ensures kid.Some? && kid.value != "" && Lookup(t, kid.value).Some? ==> r == Some(OwnKey(Lookup(t, kid.value).value))
    ensures kid.Some? && Lookup(t, kid.value).None? && kid.value in OBJECT_PROTOTYPE_NAMES ==> r == Some(Inherited(kid.value))
    ensures !(kid.Some? && kid.value != "" && (Lookup(t, kid.value).Some? || kid.value in OBJECT_PROTOTYPE_NAMES)) ==>
              r == (if |t| > 0 then Some(OwnKey(t[0].1)) else None)
  {
    if kid.Some? && kid.value != "" && Lookup(t, kid.value).Some? then Some(OwnKey(Lookup(t, kid.value).value))
    else if kid.Some? && kid.value in OBJECT_PROTOTYPE_NAMES then Some(Inherited(kid.value))
    else if |t| > 0 then Some(OwnKey(t[0].1))
    else None
  }

  lemma {:induction false} PutSpec(t: KeyTable, kid: string, key: Jwk)
    ensures Lookup(Put(t, kid, key), kid) == Some(key)
    ensures forall k :: k != kid ==> Lookup(Put(t, kid, key), k) == Lookup(t, k)
    ensures |t| > 0 ==> |Put(t, kid, key)| > 0 && Put(t, kid, key)[0].0 == t[0].0
    ensures |t| > 0 && t[0].0 != kid ==> Put(t, kid, key)[0] == t[0]
  {
    if |t| > 0 && t[0].0 != kid {
      PutSpec(t[1..], kid, key);
    }
  }

  /**
   * After a refresh every key with a `kid` can be found under it (the last one
   * listed wins), and nothing is found under a `kid` that was not listed.
   */
  lemma {:induction false} IndexKeysSpec(ks: seq<Jwk>, kid: string)
    requires Indexable(kid)
    ensures Lookup(IndexKeys(ks), kid).Some? <==> exists i :: 0 <= i < |ks| && ks[i].kid == kid
    ensures Lookup(IndexKeys(ks), kid).Some? ==> Lookup(IndexKeys(ks), kid).value.kid == kid
    ensures Lookup(IndexKeys(ks), "") == None
    ensures Lookup(IndexKeys(ks), "__proto__") == None
    decreases |ks|
  {
    if |ks| > 0 {
      var init := ks[..|ks| - 1];
      var key := ks[|ks| - 1];
      IndexKeysSpec(init, kid);
      if Indexable(key.kid) {
        PutSpec(IndexKeys(init), key.kid, key);
      }
      if Lookup(IndexKeys(ks), kid).Some? && key.kid != kid {
        var i :| 0 <= i < |init| && init[i].kid == kid;
        assert ks[i] == init[i];
      }
      if (exists i :: 0 <= i < |ks| && ks[i].kid == kid) && key.kid != kid {
        var i :| 0 <= i < |ks| && ks[i].kid == kid;
        assert i < |ks| - 1 && init[i] == ks[i];
      }
    }
  }

  function Fresh(entries: map<string, CacheEntry>, url: string, now: int): bool {
    url in entries && now - entries[url].fetchedAt < JWKS_TTL_MS
  }

  /** `getJwk`: the answer and the cache afterwards. */
  function GetJwkSpec(entries: map<string, CacheEntry>, url: string, kid: Option<string>, now: int,
                      fetched: Option<seq<Jwk>>): (Result<Option<KeyValue>, JwtError>, map<string, CacheEntry>)
  {
    if Fresh(entries, url, now) then (Ok(Pick(entries[url].keys, kid)), entries)
    else if fetched.None? then (Err(JwksFetchFailed), entries)
    else
      var keys := IndexKeys(fetched.value);
      (Ok(Pick(keys, kid)), entries[url := CacheEntry(now, keys)])
  }

  /**
   * A fresh entry is served as it is, without a refresh: a known `kid` gives its key, one naming
   * an inherited member gives that member, and any other `kid` falls back to the first key.
   */
  lemma CacheHitServes(entries: map<string, CacheEntry>, url: string, kid: string, now: int, fetched: Option<seq<Jwk>>)
    requires Fresh(entries, url, now) && kid != "" && |entries[url].keys| > 0
    ensures var (r, after) := GetJwkSpec(entries, url, Some(kid), now, fetched);
            var found := Lookup(entries[url].keys, kid);
            && after == entries
            && (found.Some? ==> r == Ok(Some(OwnKey(found.value))))
            && (found.None? && kid in OBJECT_PROTOTYPE_NAMES ==> r == Ok(Some(Inherited(kid))))
            && (found.None? && kid !in OBJECT_PROTOTYPE_NAMES ==> r == Ok(Some(OwnKey(entries[url].keys[0].1))))
  {
  }

  /** A refresh stores the new table stamped with the current time; a fresh entry is then served for five minutes. */
  lemma RefreshThenHit(entries: map<string, CacheEntry>, url: string, kid: Option<string>, now: int,
                       ks: seq<Jwk>, later: int, other: Option<seq<Jwk>>)
    requires !Fresh(entries, url, now) && now <= later < now + JWKS_TTL_MS
    ensures var (r, after) := GetJwkSpec(entries, url, kid, now, Some(ks));
            && after[url] == CacheEntry(now, IndexKeys(ks))
            && GetJwkSpec(after, url, kid, later, other) == (r, after)
  {
  }

  class JwksCache {
    var entries: map<string, CacheEntry>

    constructor ()
      ensures entries == map[]
    {
      entries := map[];
    }

    method GetJwk(url: string, kid: Option<string>, now: int, fetched: Option<seq<Jwk>>)
      returns (r: Result<Option<KeyValue>, JwtError>)
      modifies this
      ensures (r, entries) == GetJwkSpec(old(entries), url, kid, now, fetched)
    {
      if url in entries && now - entries[url].fetchedAt < JWKS_TTL_MS {
        var entry := entries[url];
        if kid.Some? && kid.value != "" && Lookup(entry.keys, kid.value).Some? {
          return Ok(Some(OwnKey(Lookup(entry.keys, kid.value).value)));
        }
        if kid.Some? && kid.value in OBJECT_PROTOTYPE_NAMES {
          return Ok(Some(Inherited(kid.value)));
        }
        return Ok(if |entry.keys| > 0 then Some(OwnKey(entry.keys[0].1)) else None);
      }
      if fetched.None? {
        return Err(JwksFetchFailed);
      }
      var list := fetched.value;
      var keys: KeyTable := [];
      for i := 0 to |list|
        invariant keys == IndexKeys(list[..i])
      {
        assert list[..i + 1][..i] == list[..i];
        var key := list[i];
        if Indexable(key.kid) {
          keys := Put(keys, key.kid, key);
        }
      }
      assert list[..|list|] == list;
      entries := entries[url := CacheEntry(now, keys)];
      r := Ok(Pick(keys, kid));
    }

    /** `verifyJwt`, with the cache it consults and may refresh. */
    method VerifyJwt(token: string, config: JwtConfig, nowMs: int, fetched: Option<seq<Jwk>>,
                     decodeJson: string -> Option<Json>, signatureOk: (Jwk, string, string) -> bool)
      returns (r: Result<Json, JwtError>)
      modifies this
      ensures (r, entries) == VerifySpec(old(entries), token, config, nowMs, fetched, decodeJson, signatureOk)
    {
      var parts := Split(token, '.');
      var headerB64 := parts[0];
      var payloadB64 := if |parts| > 1 then parts[1] else "";
      var signatureB64 := if |parts| > 2 then parts[2] else "";
      if headerB64 == "" || payloadB64 == "" || signatureB64 == "" {
        return Err(InvalidFormat);
      }
      var header := decodeJson(Base64UrlNormalize(headerB64));
      var payload := decodeJson(Base64UrlNormalize(payloadB64));
      if header.None? || payload.None? {
        return Err(UndecodableSegment);
      }
      if Member(header.value, "alg") != Some(JStr("RS256")) {
        return Err(UnsupportedAlg);
      }
      var jwk := GetJwk(config.jwksUrl, HeaderKid(header.value), nowMs, fetched);
      if jwk.Err? {
        return Err(jwk.error);
      }
      if jwk.value.None? {
        return Err(KeyNotFound);
      }
      if jwk.value.value.Inherited? {
        return Err(KeyUnusable);
      }
      if !signatureOk(jwk.value.value.jwk, headerB64 + "." + payloadB64, Base64UrlNormalize(signatureB64)) {
        return Err(SignatureInvalid);
      }
      r := CheckClaims(payload.value, config, nowMs / 1000);
    }
  }

  // ---- claims ---------------------------------------------------------------------------

  /** Property access `v.k` on a parsed JSON value (only objects have properties here). */
  function Member(v: Json, k: string): Option<Json> {
    if v.JObj? && k in v.fields then Some(v.fields[k]) else None
  }

  function HeaderKid(header: Json): Option<string> {
    match Member(header, "kid")
    case Some(JStr(s)) => Some(s)
    case _ => None
  }

  /**
   * JavaScript's numeric conversion in a `<` or `>` comparison with a number; `None`
   * is NaN. An array converts through its string, the elements joined by commas: the
   * empty array is 0, a one-element array is the number of that element's string
   * (`null` gives "", a boolean "true" or "false"), and a longer one holds a comma and
   * is NaN. An object's string is "[object Object]", which is NaN.
   */
  function ToNumber(j: Json): Option<real> {
    match j
    case JNull => Some(0.0)
    case JBool(b) => Some(if b then 1.0 else 0.0)
    case JNum(n) => Some(n)
    case JStr(s) => NumberOf(s)
    case JArr(items) =>
      if |items| == 0 then Some(0.0)
      else if |items| > 1 then None
      else if items[0].JBool? then None
      else ToNumber(items[0])
    case JObj(_) => None
  }

  /** Arrays as numbers: `[]` is 0, `[x]` is `x` (a boolean inside is NaN), two or more elements are NaN. */
  lemma ArrayToNumber(j: Json, items: seq<Json>)
    ensures ToNumber(JArr([])) == Some(0.0)
    ensures ToNumber(JArr([JNull])) == Some(0.0)
    ensures !j.JBool? ==> ToNumber(JArr([j])) == ToNumber(j)
    ensures j.JBool? ==> ToNumber(JArr([j])) == None
    ensures |items| > 1 ==> ToNumber(JArr(items)) == None
  {
    assert [j][0] == j;
  }

  /** `payload.c && payload.c < now` (with `exp`) or `payload.c && payload.c > now` (with `nbf`). */
  predicate ClaimBefore(payload: Json, c: string, now: int) {
    Member(payload, c).Some? && Truthy(Member(payload, c).value)
    && ToNumber(Member(payload, c).value).Some? && ToNumber(Member(payload, c).value).value < now as real
  }

  predicate ClaimAfter(payload: Json, c: string, now: int) {
    Member(payload, c).Some? && Truthy(Member(payload, c).value)
    && ToNumber(Member(payload, c).value).Some? && ToNumber(Member(payload, c).value).value > now as real
  }

  predicate IssuerOk(payload: Json, config: JwtConfig) {
    config.issuer == "" || Member(payload, "iss") == Some(JStr(config.issuer))
  }

  predicate AudienceOk(payload: Json, config: JwtConfig) {
    config.audience == "" ||
    match Member(payload, "aud")
    case Some(JArr(items)) => JStr(config.audience) in items
    case Some(a) => a == JStr(config.audience)
    case None => false
  }

  /** The claim checks in their fixed order: exp, nbf, iss, aud. A `null` payload throws on the first access. */
  function CheckClaims(payload: Json, config: JwtConfig, now: int): (r: Result<Json, JwtError>)
    ensures r.Ok? <==> payload != JNull && !ClaimBefore(payload, "exp", now) && !ClaimAfter(payload, "nbf", now)
                       && IssuerOk(payload, config) && AudienceOk(payload, config)
    ensures r.Ok? ==> r.value == payload
    ensures r == Err(NotActive) ==> !ClaimBefore(payload, "exp", now)
    ensures r == Err(IssuerMismatch) ==> !ClaimBefore(payload, "exp", now) && !ClaimAfter(payload, "nbf", now)
    ensures r == Err(AudienceMismatch) ==> !ClaimBefore(payload, "exp", now) && !ClaimAfter(payload, "nbf", now)
                                           && IssuerOk(payload, config)
  {
    if payload == JNull then Err(NullPayload)
    else if ClaimBefore(payload, "exp", now) then Err(Expired)
    else if ClaimAfter(payload, "nbf", now) then Err(NotActive)
    else if !IssuerOk(payload, config) then Err(IssuerMismatch)
    else if !AudienceOk(payload, config) then Err(AudienceMismatch)
    else Ok(payload)
  }

  /** `verifyJwt`: the verdict and the key cache afterwards. */
  function VerifySpec(entries: map<string, CacheEntry>, token: string, config: JwtConfig, nowMs: int,
                      fetched: Option<seq<Jwk>>, decodeJson: string -> Option<Json>,
                      signatureOk: (Jwk, string, string) -> bool): (Result<Json, JwtError>, map<string, CacheEntry>)
  {
    var parts := Split(token, '.');
    var headerB64 := parts[0];
    var payloadB64 := if |parts| > 1 then parts[1] else "";
    var signatureB64 := if |parts| > 2 then parts[2] else "";
    if headerB64 == "" || payloadB64 == "" || signatureB64 == "" then (Err(InvalidFormat), entries)
    else
      var header := decodeJson(Base64UrlNormalize(headerB64));
      var payload := decodeJson(Base64UrlNormalize(payloadB64));
      if header.None? || payload.None? then (Err(UndecodableSegment), entries)
      else if Member(header.value, "alg") != Some(JStr("RS256")) then (Err(UnsupportedAlg), entries)
      else
        var (jwk, after) := GetJwkSpec(entries, config.jwksUrl, HeaderKid(header.value), nowMs, fetched);
        if jwk.Err? then (Err(jwk.error), after)
        else if jwk.value.None? then (Err(KeyNotFound), after)
        else if jwk.value.value.Inherited? then (Err(KeyUnusable), after)
        else if !signatureOk(jwk.value.value.jwk, headerB64 + "." + payloadB64, Base64UrlNormalize(signatureB64))
        then (Err(SignatureInvalid), after)
        else (CheckClaims(payload.value, config, nowMs / 1000), after)
  }

  /** The three segments of a compact JWS: any token with them is `h.p.s`. */
  lemma CompactForm(h: string, p: string, s: string, rest: string)
    requires h != "" && p != "" && s != "" && '.' !in h && '.' !in p && '.' !in s
    ensures var parts := Split(h + "." + p + "." + s + rest, '.');
            |parts| >= 3 && parts[0] == h && parts[1] == p && (rest == "" ==> parts[2] == s)
  {
    var tail := s + rest;
    var mid := p + ['.'] + tail;
    assert h + "." + p + "." + s + rest == h + ['.'] + mid;
    SplitAt(h, '.', mid);
    SplitAt(p, '.', tail);
    var parts := [h] + ([p] + Split(tail, '.'));
    assert parts[0] == h && parts[1] == p;
    if rest == "" {
      assert tail == s;
      SplitNone(s, '.');
    }
  }

  /** Fewer than three dot-separated segments, or an empty one among the first three. */
  predicate Malformed(token: string) {
    var parts := Split(token, '.');
    |parts| < 3 || parts[0] == "" || parts[1] == "" || parts[2] == ""
  }

  /**
   * A token is refused as malformed, before any key is looked up, exactly when it
   * lacks three non-empty segments; a token without a dot is one such.
   */
  lemma MalformedTokenRefused(entries: map<string, CacheEntry>, token: string, config: JwtConfig, nowMs: int,
                              fetched: Option<seq<Jwk>>, decodeJson: string -> Option<Json>,
                              signatureOk: (Jwk, string, string) -> bool)
    ensures Malformed(token) ==>
              VerifySpec(entries, token, config, nowMs, fetched, decodeJson, signatureOk) == (Err(InvalidFormat), entries)
    ensures VerifySpec(entries, token, config, nowMs, fetched, decodeJson, signatureOk).0 == Err(InvalidFormat) ==> Malformed(token)
    ensures '.' !in token ==> Malformed(token)
  {
    if '.' !in token {
      SplitNone(token, '.');
    }
    if !Malformed(token) {
      WellFormedNotInvalid(entries, token, config, nowMs, fetched, decodeJson, signatureOk);
    }
  }

  /** Past the format check, no later stage answers `InvalidFormat`. */
  lemma WellFormedNotInvalid(entries: map<string, CacheEntry>, token: string, config: JwtConfig, nowMs: int,
                             fetched: Option<seq<Jwk>>, decodeJson: string -> Option<Json>,
                             signatureOk: (Jwk, string, string) -> bool)
    requires !Malformed(token)
    ensures VerifySpec(entries, token, config, nowMs, fetched, decodeJson, signatureOk).0 != Err(InvalidFormat)
  {
    var parts := Split(token, '.');
    var header := decodeJson(Base64UrlNormalize(parts[0]));
    var payload := decodeJson(Base64UrlNormalize(parts[1]));
    if header.Some? && payload.Some? && Member(header.value, "alg") == Some(JStr("RS256")) {
      var (jwk, after) := GetJwkSpec(entries, config.jwksUrl, HeaderKid(header.value), nowMs, fetched);
      assert jwk != Err(InvalidFormat);
      assert CheckClaims(payload.value, config, nowMs / 1000) != Err(InvalidFormat);
    }
  }

  /** Three dot-free segments split back apart. */
  lemma SplitThree(h: string, p: string, t: string)
    requires '.' !in h && '.' !in p && '.' !in t
    ensures Split(h + "." + p + "." + t, '.') == [h, p, t]
  {
    var mid := p + ['.'] + t;
    assert h + "." + p + "." + t == h + ['.'] + mid;
    SplitAt(h, '.', mid);
    SplitAt(p, '.', t);
    SplitNone(t, '.');
  }

  /** `h.p.s` is malformed exactly when one of the three segments is empty (`a..c`, `a.b.`, `.b.c`). */
  lemma SegmentsMalformed(h: string, p: string, t: string)
    requires '.' !in h && '.' !in p && '.' !in t
    ensures Malformed(h + "." + p + "." + t) <==> h == "" || p == "" || t == ""
  {
    SplitThree(h, p, t);
  }


  /** Only a header naming RS256 can be accepted. */
  lemma OnlyRs256(entries: map<string, CacheEntry>, token: string, config: JwtConfig, nowMs: int,
                  fetched: Option<seq<Jwk>>, decodeJson: string -> Option<Json>,
                  signatureOk: (Jwk, string, string) -> bool)
    ensures var (r, after) := VerifySpec(entries, token, config, nowMs, fetched, decodeJson, signatureOk);
            r.Ok? ==> var header := decodeJson(Base64UrlNormalize(Split(token, '.')[0]));
                      header.Some? && Member(header.value, "alg") == Some(JStr("RS256"))
  {
  }

  /** A well-formed token whose header names another algorithm is refused before the key cache is consulted. */
  lemma OtherAlgRefused(entries: map<string, CacheEntry>, token: string, config: JwtConfig, nowMs: int,
                        fetched: Option<seq<Jwk>>, decodeJson: string -> Option<Json>,
                        signatureOk: (Jwk, string, string) -> bool)
    requires !Malformed(token)
    ensures var parts := Split(token, '.');
            var header := decodeJson(Base64UrlNormalize(parts[0]));
            var payload := decodeJson(Base64UrlNormalize(parts[1]));
            header.Some? && payload.Some? && Member(header.value, "alg") != Some(JStr("RS256"))
            ==> VerifySpec(entries, token, config, nowMs, fetched, decodeJson, signatureOk) == (Err(UnsupportedAlg), entries)
  {
  }

  /**
   * An accepted token has three non-empty segments, an RS256 header, a key the cache
   * answered with and a signature that key verifies over `header.payload`; its
   * payload is the decoded second segment and passes every claim check.
   */
  lemma AcceptedTokenChecks(entries: map<string, CacheEntry>, token: string, config: JwtConfig, nowMs: int,
                            fetched: Option<seq<Jwk>>, decodeJson: string -> Option<Json>,
                            signatureOk: (Jwk, string, string) -> bool)
    ensures var (r, _) := VerifySpec(entries, token, config, nowMs, fetched, decodeJson, signatureOk);
            r.Ok? ==>
              var parts := Split(token, '.');
              && !Malformed(token)
              && decodeJson(Base64UrlNormalize(parts[1])) == Some(r.value)
              && var header := decodeJson(Base64UrlNormalize(parts[0]));
                 && header.Some? && Member(header.value, "alg") == Some(JStr("RS256"))
                 && var jwk := GetJwkSpec(entries, config.jwksUrl, HeaderKid(header.value), nowMs, fetched).0;
                    && jwk.Ok? && jwk.value.Some? && jwk.value.value.OwnKey?
                    && signatureOk(jwk.value.value.jwk, parts[0] + "." + parts[1], Base64UrlNormalize(parts[2]))
    ensures var (r, _) := VerifySpec(entries, token, config, nowMs, fetched, decodeJson, signatureOk);
            r.Ok? ==> && !ClaimBefore(r.value, "exp", nowMs / 1000) && !ClaimAfter(r.value, "nbf", nowMs / 1000)
                      && IssuerOk(r.value, config) && AudienceOk(r.value, config)
  {
  }

  /**
   * A well-formed RS256 token whose key is found but whose signature that key does
   * not verify is refused as such, whatever its claims say.
   */
  lemma BadSignatureRefused(entries: map<string, CacheEntry>, token: string, config: JwtConfig, nowMs: int,
                            fetched: Option<seq<Jwk>>, decodeJson: string -> Option<Json>,
                            signatureOk: (Jwk, string, string) -> bool)
    requires !Malformed(token)
    requires var parts := Split(token, '.');
             var header := decodeJson(Base64UrlNormalize(parts[0]));
             && header.Some? && decodeJson(Base64UrlNormalize(parts[1])).Some?
             && Member(header.value, "alg") == Some(JStr("RS256"))
             && var jwk := GetJwkSpec(entries, config.jwksUrl, HeaderKid(header.value), nowMs, fetched).0;
                && jwk.Ok? && jwk.value.Some? && jwk.value.value.OwnKey?
                && !signatureOk(jwk.value.value.jwk, parts[0] + "." + parts[1], Base64UrlNormalize(parts[2]))
    ensures VerifySpec(entries, token, config, nowMs, fetched, decodeJson, signatureOk).0 == Err(SignatureInvalid)
  {
  }

  /**
   * A well-formed RS256 token whose `kid` names an inherited member, not an own key of the
   * table the cache serves, is refused: the member is no key `createPublicKey` accepts.
   * The cache is left as the lookup left it.
   */
  lemma InheritedKidRefused(entries: map<string, CacheEntry>, token: string, config: JwtConfig, nowMs: int,
                            fetched: Option<seq<Jwk>>, decodeJson: string -> Option<Json>,
                            signatureOk: (Jwk, string, string) -> bool)
    requires !Malformed(token)
    requires var parts := Split(token, '.');
             var header := decodeJson(Base64UrlNormalize(parts[0]));
             && header.Some? && decodeJson(Base64UrlNormalize(parts[1])).Some?
             && Member(header.value, "alg") == Some(JStr("RS256"))
             && var kid := HeaderKid(header.value);
                && kid.Some? && kid.value in OBJECT_PROTOTYPE_NAMES
                && (Fresh(entries, config.jwksUrl, nowMs) || fetched.Some?)
                && var served := if Fresh(entries, config.jwksUrl, nowMs) then entries[config.jwksUrl].keys
                                 else IndexKeys(fetched.value);
                   Lookup(served, kid.value).None?
    ensures var parts := Split(token, '.');
            var header := decodeJson(Base64UrlNormalize(parts[0]));
            VerifySpec(entries, token, config, nowMs, fetched, decodeJson, signatureOk)
              == (Err(KeyUnusable), GetJwkSpec(entries, config.jwksUrl, HeaderKid(header.value), nowMs, fetched).1)
  {
  }

  /** A refreshed table never holds `__proto__` as an own key, so that `kid` always reads the inherited prototype. */
  lemma ProtoKidNeverOwn(ks: seq<Jwk>)
    ensures Pick(IndexKeys(ks), Some("__proto__")) == Some(Inherited("__proto__"))
  {
    IndexKeysSpec(ks, "a");
  }

  /**
   * `exp` and `nbf` of 0 count as absent; a numeric `exp` is rejected exactly when it
   * is in the past; an empty array as `exp` is truthy, converts to 0 and so expires.
   */
  lemma TimeClaims(fields: map<string, Json>, now: int)
    ensures now > 0 ==> ClaimBefore(JObj(fields["exp" := JArr([])]), "exp", now)
    ensures !ClaimBefore(JObj(fields["exp" := JNum(0.0)]), "exp", now)
    ensures !ClaimAfter(JObj(fields["nbf" := JNum(0.0)]), "nbf", now)
    ensures "exp" !in fields ==> !ClaimBefore(JObj(fields), "exp", now)
    ensures forall x: real :: x != 0.0 ==> (ClaimBefore(JObj(fields["exp" := JNum(x)]), "exp", now) <==> x < now as real)
    ensures forall x: real :: x != 0.0 ==> (ClaimAfter(JObj(fields["nbf" := JNum(x)]), "nbf", now) <==> x > now as real)
  {
  }

  /** The audience may be the configured one or an array containing it. */
  lemma AudienceForms(fields: map<string, Json>, config: JwtConfig, others: seq<Json>)
    requires config.audience != ""
    ensures AudienceOk(JObj(fields["aud" := JStr(config.audience)]), config)
    ensures AudienceOk(JObj(fields["aud" := JArr(others + [JStr(config.audience)])]), config)
    ensures JStr(config.audience) !in others ==> !AudienceOk(JObj(fields["aud" := JArr(others)]), config)
    ensures "aud" !in fields ==> !AudienceOk(JObj(fields), config)
  {
    assert (others + [JStr(config.audience)])[|others|] == JStr(config.audience);
  }
}
