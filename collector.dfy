/**
 * The collector's ingest endpoint: the fixed-window rate limiter over a keyed
 * map, and the ingest handler's decision order (project key, rate limit, JWT,
 * payload validation, the pre-insert hook, then the three storage steps).
 */
module Collector {
  import opened Wrappers
  import opened Json
  import opened Text
  import opened Validation
  import opened Store
  import opened Jwt

  // ---- rate limiting ---------------------------------------------------------------------

  datatype RateBucket = RateBucket(count: nat, resetAt: int)
  datatype RateLimit = RateLimit(windowMs: int, max: int)

  /** Ten seconds, 120 requests, unless configured otherwise. */
  const DEFAULT_LIMIT := RateLimit(10000, 120)

  /**
   * `rateLimit` on one key: a missing or expired bucket restarts the window and
   * admits the request; otherwise the count goes up, rejected requests included,
   * and the request is limited once the count passes `max`.
   */
  function RateStep(existing: Option<RateBucket>, now: int, limit: RateLimit): (r: (RateBucket, bool))
    ensures existing.None? || now > existing.value.resetAt ==> r == (RateBucket(1, now + limit.windowMs), false)
    ensures existing.Some? && now <= existing.value.resetAt ==>
              && r.0 == RateBucket(existing.value.count + 1, existing.value.resetAt)
              && (r.1 <==> existing.value.count + 1 > limit.max)
  {
    if existing.None? || now > existing.value.resetAt then (RateBucket(1, now + limit.windowMs), false)
    else
      var b := existing.value.(count := existing.value.count + 1);
      (b, b.count > limit.max)
  }

  function BucketOf(buckets: map<string, RateBucket>, key: string): Option<RateBucket> {
    if key in buckets then Some(buckets[key]) else None
  }

  /** The verdicts of a run of requests on one key, and its bucket afterwards. */
  function Calls(buckets: map<string, RateBucket>, key: string, nows: seq<int>, limit: RateLimit)
    : (r: (map<string, RateBucket>, seq<bool>))
    ensures |r.1| == |nows|
    decreases |nows|
  {
    if |nows| == 0 then (buckets, [])
    else
      var (before, verdicts) := Calls(buckets, key, nows[..|nows| - 1], limit);
      var (b, limited) := RateStep(BucketOf(before, key), nows[|nows| - 1], limit);
      (before[key := b], verdicts + [limited])
  }

  /**
   * Within one window opened by a fresh key, the k-th request counts k; the first
   * is always admitted and a later one is limited exactly when k exceeds `max`;
   * other keys are untouched.
   */
  lemma {:induction false} OneWindow(buckets: map<string, RateBucket>, key: string, nows: seq<int>, limit: RateLimit)
    requires key !in buckets && |nows| >= 1
    requires forall i :: 0 <= i < |nows| ==> nows[0] <= nows[i] <= nows[0] + limit.windowMs
    ensures var (after, verdicts) := Calls(buckets, key, nows, limit);
            && after == buckets[key := RateBucket(|nows|, nows[0] + limit.windowMs)]
            && forall k :: 0 <= k < |nows| ==> (verdicts[k] <==> k > 0 && k + 1 > limit.max)
    decreases |nows|
  {
    var (after, verdicts) := Calls(buckets, key, nows, limit);
    if |nows| > 1 {
      var init := nows[..|nows| - 1];
      OneWindow(buckets, key, init, limit);
      var (before, vs) := Calls(buckets, key, init, limit);
      assert verdicts == vs + [|nows| > limit.max];
    }
  }

  /** With `max = 1`, two requests inside the window: the first is admitted, the second limited. */
  lemma MaxOneAdmitsThenLimits(buckets: map<string, RateBucket>, key: string, t0: int, t1: int, windowMs: int)
    requires key !in buckets && t0 <= t1 <= t0 + windowMs
    ensures Calls(buckets, key, [t0, t1], RateLimit(windowMs, 1)).1 == [false, true]
  {
    OneWindow(buckets, key, [t0, t1], RateLimit(windowMs, 1));
  }

  /** A request after the window closed restarts the count and is admitted. */
  lemma WindowExpires(b: RateBucket, now: int, limit: RateLimit)
    requires now > b.resetAt
    ensures RateStep(Some(b), now, limit) == (RateBucket(1, now + limit.windowMs), false)
  {
  }

  /** The module-level map of buckets. */
  class RateLimiter {
    var buckets: map<string, RateBucket>

    constructor ()
      ensures buckets == map[]
    {
      buckets := map[];
    }

    method Check(key: string, now: int, limit: RateLimit) returns (limited: bool)
      modifies this
      ensures key in buckets
      ensures (buckets[key], limited) == RateStep(BucketOf(old(buckets), key), now, limit)
      ensures buckets == old(buckets)[key := buckets[key]]
    {
      if key !in buckets || now > buckets[key].resetAt {
        buckets := buckets[key := RateBucket(1, now + limit.windowMs)];
        return false;
      }
      var existing := buckets[key];
      existing := existing.(count := existing.count + 1);
      buckets := buckets[key := existing];
      limited := existing.count > limit.max;
    }
  }

  // ---- the ingest handler ------------------------------------------------------------------------

  datatype AuthMode = ProjectKeyMode | JwtMode(jwt: JwtConfig) | BothMode(jwt: JwtConfig)

  /** What the handler reads from the request; an absent header is `None`. */
  datatype Request = Request(projectKey: Option<string>, authorization: Option<string>, userAgent: Option<string>,
                             ip: Option<string>, remoteAddress: Option<string>, body: Json)

  /** What the pre-insert hook does with a payload: return one, or throw. */
  datatype HookResult = HookReturned(p: Payload) | HookThrew

  /** A storage step that fails; the steps before it have already written. */
  datatype Fault = NoFault | FailProject | FailUser | FailSession | FailEvents

  /** Everything the handler takes from outside: the clock, fresh ids, the digest, the JWT collaborators, storage failures. */
  datatype IngestEnv = IngestEnv(now: int, freshProjectId: string, freshUserId: string, sha256Hex: string -> string,
                                 fetched: Option<seq<Jwk>>, decodeJson: string -> Option<Json>,
                                 signatureOk: (Jwk, string, string) -> bool, fault: Fault)

  /** A JSON response, or a rejection thrown out of the handler (from the hook). */
  datatype Outcome = Respond(status: int, message: string) | Threw

  datatype CollectorState = CollectorState(buckets: map<string, RateBucket>, jwks: map<string, CacheEntry>, store: StoreState)

  /** `req.ip || req.socket.remoteAddress || "unknown"`. */
  function ClientAddress(req: Request): (a: string)
    ensures a != ""
    ensures req.ip.Some? && req.ip.value != "" ==> a == req.ip.value
    ensures (req.ip.None? || req.ip.value == "") && req.remoteAddress.Some? && req.remoteAddress.value != ""
            ==> a == req.remoteAddress.value
    ensures a == "unknown" ==> (req.ip.None? || req.ip.value == "" || req.ip.value == "unknown")
  {
    if req.ip.Some? && req.ip.value != "" then req.ip.value
    else if req.remoteAddress.Some? && req.remoteAddress.value != "" then req.remoteAddress.value
    else "unknown"
  }

  /** `replace(/^Bearer /i, "")`: one leading "Bearer " in any letter case is removed. */
  function StripBearer(h: string): (t: string)
    ensures |h| >= 7 && LowerAscii(h[..7]) == "bearer " ==> t == h[7..]
    ensures !(|h| >= 7 && LowerAscii(h[..7]) == "bearer ") ==> t == h
  {
    if |h| >= 7 && LowerAscii(h[..7]) == "bearer " then h[7..] else h
  }

  /** The bearer token, `None` when missing or empty (falsy). */
  function Token(authorization: Option<string>): Option<string> {
    if authorization.None? then None
    else
      var t := StripBearer(authorization.value);
      if t == "" then None else Some(t)
  }

  /** `payload.sub`, when the verified payload carries a string subject. */
  function Subject(payload: Json): Option<string> {
    match Member(payload, "sub")
    case Some(JStr(s)) => Some(s)
    case _ => None
  }

  /** The verdict of the authentication step. */
  datatype AuthVerdict = Authenticated(sub: Option<string>) | Refused(message: string)

  /** The JWT step: nothing to check with project keys; a missing token refuses in `jwt` mode only; any verification failure refuses. */
  function Authenticate(auth: AuthMode, jwks: map<string, CacheEntry>, token: Option<string>, env: IngestEnv)
    : (r: (AuthVerdict, map<string, CacheEntry>))
    ensures auth.ProjectKeyMode? ==> r == (Authenticated(None), jwks)
    ensures !auth.ProjectKeyMode? && token.None? ==>
              r == (if auth.JwtMode? then Refused("missing jwt") else Authenticated(None), jwks)
    ensures !auth.ProjectKeyMode? && token.Some? ==>
              var (v, after) := VerifySpec(jwks, token.value, auth.jwt, env.now, env.fetched, env.decodeJson, env.signatureOk);
              && r.1 == after
              && (v.Err? <==> r.0 == Refused("invalid jwt"))
              && (v.Ok? ==> r.0 == Authenticated(Subject(v.value)))
  {
    if auth.ProjectKeyMode? then (Authenticated(None), jwks)
    else if token.None? then (if auth.JwtMode? then Refused("missing jwt") else Authenticated(None), jwks)
    else
      var (v, after) := VerifySpec(jwks, token.value, auth.jwt, env.now, env.fetched, env.decodeJson, env.signatureOk);
      if v.Err? then (Refused("invalid jwt"), after) else (Authenticated(Subject(v.value)), after)
  }

  /**
   * `ensureProjectAndUser`, `upsertSession` and `insertEvents` in turn; a failed step stops
   * the rest, its predecessors' writes stay. A fault fires only at a database call the source
   * makes: there is no user query without an external id, and no insert without rows.
   */
  function StoreIngest(st: StoreState, projectKey: string, p: Payload, jwtSub: Option<string>, req: Request, env: IngestEnv)
    : (r: (bool, StoreState))
  {
    if env.fault == FailProject then (false, st)
    else
      var (st1, projectId) := EnsureProjectSpec(st, projectKey, env.now, env.freshProjectId);
      var traits := if p.user.Some? then p.user.value.traits else None;
      var externalId := ExternalId(jwtSub, p.user);
      if env.fault == FailUser && externalId != "" then (false, st1)
      else
        var (st2, userId) := EnsureUserSpec(st1, projectId, externalId, traits, env.now, env.freshUserId);
        if env.fault == FailSession then (false, st2)
        else
          var st3 := UpsertSessionSpec(st2, projectId, userId, p, env.now, SessionInfo(req, env));
          var rows := AllRows(projectId, p.session.id, userId, p.events);
          if env.fault == FailEvents && rows != [] then (false, st3)
          else (true, st3.(events := st3.events + rows))
  }

  /** What `upsertSession` is told about the request: its user agent and the hash of its `req.ip` (empty when absent). */
  function SessionInfo(req: Request, env: IngestEnv): (r: SessionRequest)
    ensures r.userAgent == req.userAgent
    ensures r.ipHash.None? <==> req.ip.None? || req.ip.value == ""
  {
    var ip := if req.ip.Some? then req.ip.value else "";
    SessionRequest(req.userAgent, HashIp(env.sha256Hex, ip))
  }

  /** The ingest handler: the response and the limiter, key cache and store afterwards. */
  function IngestSpec(auth: AuthMode, limit: RateLimit, hook: Option<Payload -> HookResult>,
                      s: CollectorState, env: IngestEnv, req: Request): (Outcome, CollectorState)
  {
    if req.projectKey.None? || req.projectKey.value == "" then (Respond(401, "missing project key"), s)
    else
      var projectKey := req.projectKey.value;
      var key := projectKey + ":" + ClientAddress(req);
      var (bucket, limited) := RateStep(BucketOf(s.buckets, key), env.now, limit);
      var s1 := s.(buckets := s.buckets[key := bucket]);
      if limited then (Respond(429, "rate limit exceeded"), s1)
      else AuthStage(auth, hook, s1, env, req, projectKey)
  }

  /** The handler once the request is admitted by the limiter: authentication, then the body. */
  function AuthStage(auth: AuthMode, hook: Option<Payload -> HookResult>,
                     s1: CollectorState, env: IngestEnv, req: Request, projectKey: string): (Outcome, CollectorState)
  {
    var (verdict, jwks) := Authenticate(auth, s1.jwks, Token(req.authorization), env);
    var s2 := s1.(jwks := jwks);
    if verdict.Refused? then (Respond(401, verdict.message), s2)
    else BodyStage(hook, s2, env, req, projectKey, verdict.sub)
  }

  /** The handler once the request is authenticated: validation, the hook and storage. */
  function BodyStage(hook: Option<Payload -> HookResult>, s2: CollectorState, env: IngestEnv, req: Request,
                     projectKey: string, jwtSub: Option<string>): (Outcome, CollectorState)
  {
    var parsed := ParsePayload(req.body);
    if parsed.None? then (Respond(400, "invalid payload"), s2)
    else
      var hooked := if hook.Some? then hook.value(parsed.value) else HookReturned(parsed.value);
      if hooked.HookThrew? then (Threw, s2)
      else
        var (ok, st) := StoreIngest(s2.store, projectKey, hooked.p, jwtSub, req, env);
        (if ok then Respond(200, "ok") else Respond(500, "ingest failed"), s2.(store := st))
  }

  /** The collector's mutable parts: the rate-limit buckets, the key cache and the store. */
  class CollectorImpl {
    const auth: AuthMode
    const limit: RateLimit
    const hook: Option<Payload -> HookResult>
    const limiter: RateLimiter
    const jwks: JwksCache
    const store: MemoryStore

    function State(): CollectorState
      reads this, limiter, jwks, store
    {
      CollectorState(limiter.buckets, jwks.entries, store.State())
    }

    constructor (auth: AuthMode, limit: Option<RateLimit>, hook: Option<Payload -> HookResult>)
      ensures this.auth == auth && this.limit == limit.GetOr(DEFAULT_LIMIT) && this.hook == hook
      ensures State() == CollectorState(map[], map[], StoreState(map[], map[], map[], [], []))
      ensures fresh(limiter) && fresh(jwks) && fresh(store)
    {
      this.auth := auth;
      this.limit := limit.GetOr(DEFAULT_LIMIT);
      this.hook := hook;
      limiter := new RateLimiter();
      jwks := new JwksCache();
      store := new MemoryStore();
    }

    method Ingest(env: IngestEnv, req: Request) returns (outcome: Outcome)
      modifies limiter, jwks, store
      ensures (outcome, State()) == IngestSpec(auth, limit, hook, old(State()), env, req)
    {
      if req.projectKey.None? || req.projectKey.value == "" {
        return Respond(401, "missing project key");
      }
      var projectKey := req.projectKey.value;
      var limited := limiter.Check(projectKey + ":" + ClientAddress(req), env.now, limit);
      if limited {
        return Respond(429, "rate limit exceeded");
      }
      var verdict := CheckAuth(Token(req.authorization), env);
      if verdict.Refused? {
        return Respond(401, verdict.message);
      }
      var parsed := ParsePayload(req.body);
      if parsed.None? {
        return Respond(400, "invalid payload");
      }
      var payload := parsed.value;
      if hook.Some? {
        var hooked := hook.value(payload);
        if hooked.HookThrew? {
          return Threw;
        }
        payload := hooked.p;
      }
      var ok := Persist(projectKey, payload, verdict.sub, req, env);
      outcome := if ok then Respond(200, "ok") else Respond(500, "ingest failed");
    }

    /** The `try` around `verifyJwt`. */
    method CheckAuth(token: Option<string>, env: IngestEnv) returns (verdict: AuthVerdict)
      modifies jwks
      ensures (verdict, jwks.entries) == Authenticate(auth, old(jwks.entries), token, env)
    {
      verdict := Authenticated(None);
      if !auth.ProjectKeyMode? {
        if token.None? {
          if auth.JwtMode? {
            verdict := Refused("missing jwt");
          }
        } else {
          var verified := jwks.VerifyJwt(token.value, auth.jwt, env.now, env.fetched, env.decodeJson, env.signatureOk);
          verdict := if verified.Err? then Refused("invalid jwt") else Authenticated(Subject(verified.value));
        }
      }
    }

    /** The storage `try` block. */
    method Persist(projectKey: string, payload: Payload, jwtSub: Option<string>, req: Request, env: IngestEnv)
      returns (ok: bool)
      modifies store
      ensures (ok, store.State()) == StoreIngest(old(store.State()), projectKey, payload, jwtSub, req, env)
    {
      if env.fault == FailProject {
        return false;
      }
      var projectId := store.EnsureProject(projectKey, env.now, env.freshProjectId);
      var externalId := ExternalId(jwtSub, payload.user);
      if env.fault == FailUser && externalId != "" {
        return false;
      }
      var traits := if payload.user.Some? then payload.user.value.traits else None;
      var userId := store.EnsureUser(projectId, externalId, traits, env.now, env.freshUserId);
      if env.fault == FailSession {
        return false;
      }
      store.UpsertSession(projectId, userId, payload, env.now, SessionInfo(req, env));
      ok := store.InsertEvents(projectId, payload.session.id, userId, payload.events, env.fault == FailEvents);
    }
  }
}
