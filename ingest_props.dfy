/** Properties of the ingest handler's decision order and of what it writes. */
module IngestProps {
  import opened Wrappers
  import opened Json
  import opened Validation
  import opened Store
  import opened Jwt
  import opened Collector

  /** The rate-limit key of a request with a project key. */
  function RateKey(req: Request): string
    requires req.projectKey.Some?
  {
    req.projectKey.value + ":" + ClientAddress(req)
  }

  predicate Limited(limit: RateLimit, s: CollectorState, env: IngestEnv, req: Request)
    requires req.projectKey.Some?
  {
    RateStep(BucketOf(s.buckets, RateKey(req)), env.now, limit).1
  }

  /** The state after the admitted rate-limit check. */
  function Counted(limit: RateLimit, s: CollectorState, env: IngestEnv, req: Request): CollectorState
    requires req.projectKey.Some?
  {
    s.(buckets := s.buckets[RateKey(req) := RateStep(BucketOf(s.buckets, RateKey(req)), env.now, limit).0])
  }

  /** A request without a project key is refused first, before it is counted against any rate limit. */
  lemma MissingKeyFirst(auth: AuthMode, limit: RateLimit, hook: Option<Payload -> HookResult>,
                        s: CollectorState, env: IngestEnv, req: Request)
    requires req.projectKey.None? || req.projectKey == Some("")
    ensures IngestSpec(auth, limit, hook, s, env, req) == (Respond(401, "missing project key"), s)
  {
  }

  /** A limited request gets 429 whatever its token or body; only its bucket changes. */
  lemma RateLimitBeforeAuth(auth: AuthMode, limit: RateLimit, hook: Option<Payload -> HookResult>,
                            s: CollectorState, env: IngestEnv, req: Request)
    requires req.projectKey.Some? && req.projectKey.value != "" && Limited(limit, s, env, req)
    ensures var (out, after) := IngestSpec(auth, limit, hook, s, env, req);
            && out == Respond(429, "rate limit exceeded")
            && after.store == s.store && after.jwks == s.jwks
            && after.buckets.Keys == s.buckets.Keys + {RateKey(req)}
  {
  }

  /** In `jwt` mode an admitted request without a usable bearer token is refused. */
  lemma JwtModeNeedsToken(c: JwtConfig, limit: RateLimit, hook: Option<Payload -> HookResult>,
                          s: CollectorState, env: IngestEnv, req: Request)
    requires req.projectKey.Some? && req.projectKey.value != "" && !Limited(limit, s, env, req)
    requires Token(req.authorization).None?
    ensures IngestSpec(JwtMode(c), limit, hook, s, env, req) == (Respond(401, "missing jwt"), Counted(limit, s, env, req))
  {
  }

  /** In `both` mode a request without a token is handled exactly as with project keys alone. */
  lemma BothModeFallsBack(c: JwtConfig, limit: RateLimit, hook: Option<Payload -> HookResult>,
                          s: CollectorState, env: IngestEnv, req: Request)
    requires Token(req.authorization).None?
    ensures IngestSpec(BothMode(c), limit, hook, s, env, req) == IngestSpec(ProjectKeyMode, limit, hook, s, env, req)
  {
  }

  /** Every failure of `verifyJwt`, whichever check fails, becomes the same 401, before the body is looked at. */
  lemma AnyVerifyFailureIs401(auth: AuthMode, limit: RateLimit, hook: Option<Payload -> HookResult>,
                              s: CollectorState, env: IngestEnv, req: Request)
    requires !auth.ProjectKeyMode? && req.projectKey.Some? && req.projectKey.value != "" && !Limited(limit, s, env, req)
    requires Token(req.authorization).Some?
    requires VerifySpec(Counted(limit, s, env, req).jwks, Token(req.authorization).value, auth.jwt,
                        env.now, env.fetched, env.decodeJson, env.signatureOk).0.Err?
    ensures var (out, after) := IngestSpec(auth, limit, hook, s, env, req);
            out == Respond(401, "invalid jwt") && after.store == s.store
  {
  }

  /** An authenticated request whose body fails validation gets 400 and writes nothing. */
  lemma InvalidPayloadIs400(auth: AuthMode, limit: RateLimit, hook: Option<Payload -> HookResult>,
                            s: CollectorState, env: IngestEnv, req: Request)
    requires req.projectKey.Some? && req.projectKey.value != "" && !Limited(limit, s, env, req)
    requires Authenticate(auth, Counted(limit, s, env, req).jwks, Token(req.authorization), env).0.Authenticated?
    requires ParsePayload(req.body).None?
    ensures var (out, after) := IngestSpec(auth, limit, hook, s, env, req);
            out == Respond(400, "invalid payload") && after.store == s.store
  {
  }

  /** An empty object as body is a 400 with project-key authentication. */
  lemma EmptyBodyIs400(limit: RateLimit, hook: Option<Payload -> HookResult>, s: CollectorState, env: IngestEnv, req: Request)
    requires req.projectKey.Some? && req.projectKey.value != "" && !Limited(limit, s, env, req)
    requires req.body == JObj(map[])
    ensures IngestSpec(ProjectKeyMode, limit, hook, s, env, req).0 == Respond(400, "invalid payload")
  {
    EmptyPayloadRejected();
  }

  /** The handler answers 200, 400, 401, 429 or 500, or throws from the hook; the store changes only on 200 or 500. */
  lemma Outcomes(auth: AuthMode, limit: RateLimit, hook: Option<Payload -> HookResult>,
                 s: CollectorState, env: IngestEnv, req: Request)
    ensures var (out, after) := IngestSpec(auth, limit, hook, s, env, req);
            && (out.Threw? || out.status in {200, 400, 401, 429, 500})
            && (after.store != s.store ==> out.Respond? && out.status in {200, 500})
            && (out == Respond(200, "ok") <==> out.Respond? && out.status == 200)
  {
    if req.projectKey.Some? && req.projectKey.value != "" {
      var key := req.projectKey.value + ":" + ClientAddress(req);
      var (bucket, limited) := RateStep(BucketOf(s.buckets, key), env.now, limit);
      var s1 := s.(buckets := s.buckets[key := bucket]);
      if !limited {
        assert IngestSpec(auth, limit, hook, s, env, req) == AuthStage(auth, hook, s1, env, req, req.projectKey.value);
        AuthOutcomes(auth, hook, s1, env, req, req.projectKey.value);
      }
    }
  }

  /** After admission: 200, 400, 401 or 500, or the hook's exception; only 200 and 500 follow a store change. */
  lemma AuthOutcomes(auth: AuthMode, hook: Option<Payload -> HookResult>, s1: CollectorState, env: IngestEnv,
                     req: Request, projectKey: string)
    ensures var (out, after) := AuthStage(auth, hook, s1, env, req, projectKey);
            && (out.Threw? || out.status in {200, 400, 401, 500})
            && (after.store != s1.store ==> out.Respond? && out.status in {200, 500})
            && (out.Respond? && out.status == 200 ==> out == Respond(200, "ok"))
  {
    var (verdict, jwks) := Authenticate(auth, s1.jwks, Token(req.authorization), env);
    if !verdict.Refused? {
      BodyOutcomes(hook, s1.(jwks := jwks), env, req, projectKey, verdict.sub);
    }
  }

  /** After authentication: 200, 400 or 500, or the hook's exception; only 200 and 500 follow a store change. */
  lemma BodyOutcomes(hook: Option<Payload -> HookResult>, s2: CollectorState, env: IngestEnv, req: Request,
                     projectKey: string, jwtSub: Option<string>)
    ensures var (out, after) := BodyStage(hook, s2, env, req, projectKey, jwtSub);
            && (out.Threw? || out.status in {200, 400, 500})
            && (after.store != s2.store ==> out.Respond? && out.status in {200, 500})
            && (out.Respond? && out.status == 200 ==> out == Respond(200, "ok"))
  {
  }

  /**
   * A successful ingest with no hook creates or finds the project, finds or creates
   * the user when the token's subject or the payload names one, upserts the session
   * and appends exactly the rows of every event, filed under that project, session
   * and user.
   */
  lemma SuccessfulIngest(auth: AuthMode, limit: RateLimit, s: CollectorState, env: IngestEnv, req: Request, p: Payload)
    requires req.projectKey.Some? && req.projectKey.value != "" && !Limited(limit, s, env, req)
    requires Authenticate(auth, Counted(limit, s, env, req).jwks, Token(req.authorization), env).0.Authenticated?
    requires ParsePayload(req.body) == Some(p) && env.fault == NoFault
    ensures var (out, after) := IngestSpec(auth, limit, None, s, env, req);
            var sub := Authenticate(auth, Counted(limit, s, env, req).jwks, Token(req.authorization), env).0.sub;
            var ext := ExternalId(sub, p.user);
            && out == Respond(200, "ok")
            && req.projectKey.value in after.store.projects
            && var pid := after.store.projects[req.projectKey.value].id;
               && (req.projectKey.value in s.store.projects ==> pid == s.store.projects[req.projectKey.value].id)
               && (ext != "" ==> (pid, ext) in after.store.users)
               && p.session.id in after.store.sessions
               && after.store.events
                  == s.store.events + AllRows(pid, p.session.id, if ext == "" then None else Some(after.store.users[(pid, ext)].id), p.events)
               && |after.store.events| == |s.store.events| + TotalRows(p.events)
  {
    var verdict, jwks := AdmittedAndAuthenticated(auth, limit, None, s, env, req);
    StoreSuccess(s.store, req.projectKey.value, p, verdict.sub, req, env);
  }

  /** An admitted, authenticated request is handled by the body stage, on the counted state with the key cache updated. */
  lemma AdmittedAndAuthenticated(auth: AuthMode, limit: RateLimit, hook: Option<Payload -> HookResult>,
                                 s: CollectorState, env: IngestEnv, req: Request)
    returns (verdict: AuthVerdict, jwks: map<string, CacheEntry>)
    requires req.projectKey.Some? && req.projectKey.value != "" && !Limited(limit, s, env, req)
    requires Authenticate(auth, Counted(limit, s, env, req).jwks, Token(req.authorization), env).0.Authenticated?
    ensures (verdict, jwks) == Authenticate(auth, Counted(limit, s, env, req).jwks, Token(req.authorization), env)
    ensures IngestSpec(auth, limit, hook, s, env, req)
            == BodyStage(hook, Counted(limit, s, env, req).(jwks := jwks), env, req, req.projectKey.value, verdict.sub)
  {
    var s1 := Counted(limit, s, env, req);
    assert IngestSpec(auth, limit, hook, s, env, req) == AuthStage(auth, hook, s1, env, req, req.projectKey.value);
    verdict, jwks := Authenticate(auth, s1.jwks, Token(req.authorization), env).0, Authenticate(auth, s1.jwks, Token(req.authorization), env).1;
  }

  /** Storage without a failure writes the project and session and appends exactly the batch's rows. */
  lemma StoreSuccess(st: StoreState, projectKey: string, p: Payload, jwtSub: Option<string>, req: Request, env: IngestEnv)
    requires env.fault == NoFault
    ensures var (ok, after) := StoreIngest(st, projectKey, p, jwtSub, req, env);
            var ext := ExternalId(jwtSub, p.user);
            && ok && projectKey in after.projects && p.session.id in after.sessions
            && var pid := after.projects[projectKey].id;
               && (projectKey in st.projects ==> pid == st.projects[projectKey].id)
               && (ext != "" ==> (pid, ext) in after.users)
               && after.events == st.events + AllRows(pid, p.session.id, if ext == "" then None else Some(after.users[(pid, ext)].id), p.events)
               && |after.events| == |st.events| + TotalRows(p.events)
  {
    var (s1, pid) := EnsureProjectSpec(st, projectKey, env.now, env.freshProjectId);
    var traits := if p.user.Some? then p.user.value.traits else None;
    var (s2, uid) := EnsureUserSpec(s1, pid, ExternalId(jwtSub, p.user), traits, env.now, env.freshUserId);
    AllRowsCount(pid, p.session.id, uid, p.events);
  }

  /** A failure while inserting events leaves the project, user and session written but no event rows. */
  lemma EventFailureKeepsEarlierWrites(auth: AuthMode, limit: RateLimit, s: CollectorState, env: IngestEnv, req: Request, p: Payload)
    requires req.projectKey.Some? && req.projectKey.value != "" && !Limited(limit, s, env, req)
    requires Authenticate(auth, Counted(limit, s, env, req).jwks, Token(req.authorization), env).0.Authenticated?
    requires ParsePayload(req.body) == Some(p) && env.fault == FailEvents && TotalRows(p.events) > 0
    ensures var (out, after) := IngestSpec(auth, limit, None, s, env, req);
            && out == Respond(500, "ingest failed")
            && req.projectKey.value in after.store.projects
            && p.session.id in after.store.sessions
            && after.store.events == s.store.events
  {
    var verdict, jwks := AdmittedAndAuthenticated(auth, limit, None, s, env, req);
    StoreEventFailure(s.store, req.projectKey.value, p, verdict.sub, req, env);
  }

  /** Storage failing at the event insert of a batch with rows has written the project and session and no event rows. */
  lemma StoreEventFailure(st: StoreState, projectKey: string, p: Payload, jwtSub: Option<string>, req: Request, env: IngestEnv)
    requires env.fault == FailEvents && TotalRows(p.events) > 0
    ensures var (ok, after) := StoreIngest(st, projectKey, p, jwtSub, req, env);
            && !ok && projectKey in after.projects && p.session.id in after.sessions
            && after.events == st.events
  {
    var (s1, pid) := EnsureProjectSpec(st, projectKey, env.now, env.freshProjectId);
    var traits := if p.user.Some? then p.user.value.traits else None;
    var (s2, uid) := EnsureUserSpec(s1, pid, ExternalId(jwtSub, p.user), traits, env.now, env.freshUserId);
    AllRowsCount(pid, p.session.id, uid, p.events);
  }

  /**
   * A fault at a step the source does not run changes nothing: with no external id there is
   * no user query to fail, and a batch with no rows (say, only revealing inputs) makes no insert.
   */
  lemma FaultsOnlyAtRunSteps(st: StoreState, projectKey: string, p: Payload, jwtSub: Option<string>, req: Request, env: IngestEnv)
    ensures env.fault == FailUser && ExternalId(jwtSub, p.user) == "" ==>
              StoreIngest(st, projectKey, p, jwtSub, req, env) == StoreIngest(st, projectKey, p, jwtSub, req, env.(fault := NoFault))
    ensures env.fault == FailEvents && TotalRows(p.events) == 0 ==>
              StoreIngest(st, projectKey, p, jwtSub, req, env) == StoreIngest(st, projectKey, p, jwtSub, req, env.(fault := NoFault))
  {
    var (s1, pid) := EnsureProjectSpec(st, projectKey, env.now, env.freshProjectId);
    var traits := if p.user.Some? then p.user.value.traits else None;
    var (s2, uid) := EnsureUserSpec(s1, pid, ExternalId(jwtSub, p.user), traits, env.now, env.freshUserId);
    AllRowsCount(pid, p.session.id, uid, p.events);
  }

  /** An authenticated batch with no rows is answered 200 even when the insert would have failed. */
  lemma RowlessBatchSucceeds(auth: AuthMode, limit: RateLimit, s: CollectorState, env: IngestEnv, req: Request, p: Payload)
    requires req.projectKey.Some? && req.projectKey.value != "" && !Limited(limit, s, env, req)
    requires Authenticate(auth, Counted(limit, s, env, req).jwks, Token(req.authorization), env).0.Authenticated?
    requires ParsePayload(req.body) == Some(p) && env.fault == FailEvents && TotalRows(p.events) == 0
    ensures var (out, after) := IngestSpec(auth, limit, None, s, env, req);
            && out == Respond(200, "ok") && after.store.events == s.store.events
  {
    var verdict, jwks := AdmittedAndAuthenticated(auth, limit, None, s, env, req);
    StoreRowless(s.store, req.projectKey.value, p, verdict.sub, req, env);
  }

  /** Storage of a batch with no rows succeeds under an insert fault and appends nothing. */
  lemma StoreRowless(st: StoreState, projectKey: string, p: Payload, jwtSub: Option<string>, req: Request, env: IngestEnv)
    requires env.fault == FailEvents && TotalRows(p.events) == 0
    ensures var (ok, after) := StoreIngest(st, projectKey, p, jwtSub, req, env);
            ok && after.events == st.events
  {
    var (s1, pid) := EnsureProjectSpec(st, projectKey, env.now, env.freshProjectId);
    var traits := if p.user.Some? then p.user.value.traits else None;
    var (s2, uid) := EnsureUserSpec(s1, pid, ExternalId(jwtSub, p.user), traits, env.now, env.freshUserId);
    AllRowsCount(pid, p.session.id, uid, p.events);
  }

  /** Storing a batch, whether it completes or stops at a fault, keeps the store consistent. */
  lemma StoreIngestValid(st: StoreState, projectKey: string, p: Payload, jwtSub: Option<string>, req: Request, env: IngestEnv)
    requires Valid(st)
    ensures Valid(StoreIngest(st, projectKey, p, jwtSub, req, env).1)
  {
    var (s1, pid) := EnsureProjectSpec(st, projectKey, env.now, env.freshProjectId);
    ValidEnsureProject(st, projectKey, env.now, env.freshProjectId);
    var traits := if p.user.Some? then p.user.value.traits else None;
    var ext := ExternalId(jwtSub, p.user);
    var (s2, uid) := EnsureUserSpec(s1, pid, ext, traits, env.now, env.freshUserId);
    ValidEnsureUser(s1, pid, ext, traits, env.now, env.freshUserId);
    var s3 := UpsertSessionSpec(s2, pid, uid, p, env.now, SessionInfo(req, env));
    ValidUpsert(s2, pid, uid, p, env.now, SessionInfo(req, env));
    var rows := AllRows(pid, p.session.id, uid, p.events);
    ValidIgnoresEvents(s3, s3.events + rows);
    var after := StoreIngest(st, projectKey, p, jwtSub, req, env).1;
    if env.fault == FailProject {
      assert after == st;
    } else if env.fault == FailUser && ext != "" {
      assert after == s1;
    } else if env.fault == FailSession {
      assert after == s2;
    } else if env.fault == FailEvents && rows != [] {
      assert after == s3;
    } else {
      assert after == s3.(events := s3.events + rows);
    }
  }

  /** The consistency of a store does not depend on its event rows. */
  lemma ValidIgnoresEvents(st: StoreState, events: seq<EventRow>)
    requires Valid(st)
    ensures Valid(st.(events := events))
  {
  }

  /** A failure at the first step writes nothing. */
  lemma ProjectFailureWritesNothing(auth: AuthMode, limit: RateLimit, hook: Option<Payload -> HookResult>,
                                     s: CollectorState, env: IngestEnv, req: Request)
    requires env.fault == FailProject
    ensures IngestSpec(auth, limit, hook, s, env, req).1.store == s.store
  {
  }

  /**
   * Retrying a stored batch finds the same project, user and session, but appends the
   * batch's rows a second time: there is no de-duplication by event id.
   */
  lemma StorageReplay(st: StoreState, projectKey: string, p: Payload, jwtSub: Option<string>, req: Request, env: IngestEnv)
    requires env.fault == NoFault
    ensures var (ok1, st1) := StoreIngest(st, projectKey, p, jwtSub, req, env);
            var (ok2, st2) := StoreIngest(st1, projectKey, p, jwtSub, req, env);
            && ok1 && ok2
            && st2.projects == st1.projects && st2.users == st1.users && st2.sessions == st1.sessions
            && st2.sessionOrder == st1.sessionOrder
            && st2.events == st1.events + (st1.events[|st.events|..])
  {
    var pid, uid := FirstPass(st, projectKey, p, jwtSub, req, env);
    SecondPass(StoreIngest(st, projectKey, p, jwtSub, req, env).1, projectKey, p, jwtSub, req, env, pid, uid);
  }

  /** Written on the first pass: the project and user with their ids, a session the upsert leaves as it is, and the new rows. */
  predicate Written(st1: StoreState, projectKey: string, p: Payload, jwtSub: Option<string>, req: Request, env: IngestEnv,
                    pid: string, uid: Option<string>)
  {
    var ext := ExternalId(jwtSub, p.user);
    && projectKey in st1.projects && st1.projects[projectKey].id == pid
    && (ext == "" ==> uid.None?)
    && (ext != "" ==> uid.Some? && (pid, ext) in st1.users && st1.users[(pid, ext)].id == uid.value)
    && UpsertSessionSpec(st1, pid, uid, p, env.now, SessionInfo(req, env)) == st1
  }

  /** A first successful pass writes everything a second pass would look up, and appends the batch's rows. */
  lemma FirstPass(st: StoreState, projectKey: string, p: Payload, jwtSub: Option<string>, req: Request, env: IngestEnv)
    returns (pid: string, uid: Option<string>)
    requires env.fault == NoFault
    ensures var (ok, st1) := StoreIngest(st, projectKey, p, jwtSub, req, env);
            && ok && Written(st1, projectKey, p, jwtSub, req, env, pid, uid)
            && st1.events == st.events + AllRows(pid, p.session.id, uid, p.events)
  {
    var (s1, pid') := EnsureProjectSpec(st, projectKey, env.now, env.freshProjectId);
    var traits := if p.user.Some? then p.user.value.traits else None;
    var (s2, uid') := EnsureUserSpec(s1, pid', ExternalId(jwtSub, p.user), traits, env.now, env.freshUserId);
    pid, uid := pid', uid';
    var s3 := UpsertSessionSpec(s2, pid, uid, p, env.now, SessionInfo(req, env));
    UpsertIdempotent(s2, pid, uid, p, env.now, SessionInfo(req, env));
    var st1 := s3.(events := s3.events + AllRows(pid, p.session.id, uid, p.events));
    assert StoreIngest(st, projectKey, p, jwtSub, req, env) == (true, st1);
    UpsertIgnoresEvents(s3, st1, pid, uid, p, env.now, SessionInfo(req, env));
  }

  /** The upsert reads and writes no event rows. */
  lemma UpsertIgnoresEvents(s: StoreState, t: StoreState, pid: string, uid: Option<string>, p: Payload, now: int, sr: SessionRequest)
    requires t == s.(events := t.events)
    requires UpsertSessionSpec(s, pid, uid, p, now, sr) == s
    ensures UpsertSessionSpec(t, pid, uid, p, now, sr) == t
  {
  }

  /** On what a first pass wrote, storage only appends the batch's rows again. */
  lemma SecondPass(st1: StoreState, projectKey: string, p: Payload, jwtSub: Option<string>, req: Request, env: IngestEnv,
                   pid: string, uid: Option<string>)
    requires env.fault == NoFault && Written(st1, projectKey, p, jwtSub, req, env, pid, uid)
    ensures StoreIngest(st1, projectKey, p, jwtSub, req, env) == (true, st1.(events := st1.events + AllRows(pid, p.session.id, uid, p.events)))
  {
    var traits := if p.user.Some? then p.user.value.traits else None;
    SecondPassFinds(st1, projectKey, pid, ExternalId(jwtSub, p.user), uid, traits, env);
  }

  /** Once a project and its user are written, looking them up again changes nothing and yields the same ids. */
  lemma SecondPassFinds(st: StoreState, projectKey: string, pid: string, ext: string, uid: Option<string>,
                        traits: Option<Obj>, env: IngestEnv)
    requires projectKey in st.projects && st.projects[projectKey].id == pid
    requires ext == "" ==> uid.None?
    requires ext != "" ==> uid.Some? && (pid, ext) in st.users && st.users[(pid, ext)].id == uid.value
    ensures EnsureProjectSpec(st, projectKey, env.now, env.freshProjectId) == (st, pid)
    ensures EnsureUserSpec(st, pid, ext, traits, env.now, env.freshUserId) == (st, uid)
  {
  }
}
