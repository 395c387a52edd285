/**
 * The collector's storage, as an in-memory store: projects by key, users by
 * (project, external id), sessions by id (with their insertion order) and the
 * list of event rows. Its methods are the get-or-create steps of ingestion and
 * the materialisation of events into rows; fresh UUIDs, the clock and the
 * SHA-256 digest of the client address are parameters.
 */
module Store {
  import opened Wrappers
  import opened Json
  import opened Text
  import opened Events
  import opened SdkHelpers
  import opened Validation

  datatype ProjectRow = ProjectRow(id: string, key: string, name: string, createdAt: int)
  datatype UserRow = UserRow(id: string, projectId: string, externalId: string, traits: Option<Obj>, createdAt: int)
  datatype SessionRow = SessionRow(id: string, projectId: string, userId: Option<string>, startedAt: real,
                                   lastSeenAt: real, firstPath: string, userAgent: Option<string>,
                                   device: Option<Device>, ipHash: Option<string>)

  /** One stored event row; `x`, `y` and `scrollDepth` are the nullable columns. */
  datatype EventRow = EventRow(projectId: string, sessionId: string, userId: Option<string>, eventType: string,
                               ts: real, path: string, selector: Option<string>, viewport: Viewport,
                               device: Device, meta: Option<Obj>, x: Option<int>, y: Option<int>,
                               scrollDepth: Option<int>)

  datatype StoreState = StoreState(projects: map<string, ProjectRow>, users: map<(string, string), UserRow>,
                                   sessions: map<string, SessionRow>, sessionOrder: seq<string>,
                                   events: seq<EventRow>)

  /** The keys under which rows are filed are the rows' own unique columns. */
  ghost predicate Valid(st: StoreState) {
    && (forall k :: k in st.projects ==> st.projects[k].key == k)
    && (forall k :: k in st.users ==> st.users[k].projectId == k.0 && st.users[k].externalId == k.1)
    && (forall id :: id in st.sessions ==> st.sessions[id].id == id && id in st.sessionOrder)
    && (forall i :: 0 <= i < |st.sessionOrder| ==> st.sessionOrder[i] in st.sessions)
    && (forall i, j :: 0 <= i < j < |st.sessionOrder| ==> st.sessionOrder[i] != st.sessionOrder[j])
  }

  // ---- get-or-create -------------------------------------------------------------------

  /** The project for a key, created as "Default" when the key is new. */
  function EnsureProjectSpec(st: StoreState, projectKey: string, now: int, freshId: string): (r: (StoreState, string))
    ensures projectKey in r.0.projects && r.0.projects[projectKey].id == r.1
    ensures projectKey in st.projects ==> r == (st, st.projects[projectKey].id)
    ensures projectKey !in st.projects ==>
              r == (st.(projects := st.projects[projectKey := ProjectRow(freshId, projectKey, "Default", now)]), freshId)
  {
    if projectKey in st.projects then (st, st.projects[projectKey].id)
    else (st.(projects := st.projects[projectKey := ProjectRow(freshId, projectKey, "Default", now)]), freshId)
  }

  /** `jwtSub ?? payload.user?.id`: the token's subject wins, even when it is empty. */
  function ExternalId(jwtSub: Option<string>, user: Option<UserBlock>): string {
    if jwtSub.Some? then jwtSub.value else if user.Some? then user.value.id else ""
  }

  /** The user for an external id in a project; none for an empty id; traits only on creation. */
  function EnsureUserSpec(st: StoreState, projectId: string, externalId: string, traits: Option<Obj>,
                          now: int, freshId: string): (r: (StoreState, Option<string>))
    ensures externalId == "" ==> r == (st, None)
    ensures externalId != "" ==> r.1.Some? && (projectId, externalId) in r.0.users
                                 && r.0.users[(projectId, externalId)].id == r.1.value
    ensures (projectId, externalId) in st.users ==> r.0 == st
    ensures externalId != "" && (projectId, externalId) !in st.users ==>
              r.0 == st.(users := st.users[(projectId, externalId) := UserRow(freshId, projectId, externalId, traits, now)])
  {
    if externalId == "" then (st, None)
    else if (projectId, externalId) in st.users then (st, Some(st.users[(projectId, externalId)].id))
    else (st.(users := st.users[(projectId, externalId) := UserRow(freshId, projectId, externalId, traits, now)]), Some(freshId))
  }

  /** `hashIp`: no hash for an empty address, else the first 32 hex digits of the digest. */
  function HashIp(sha256Hex: string -> string, ip: string): (r: Option<string>)
    ensures ip == "" <==> r.None?
    ensures r.Some? ==> |r.value| == Min(32, |sha256Hex(ip)|) && r.value == sha256Hex(ip)[..|r.value|]
  {
    if ip == "" then None else var h := sha256Hex(ip); Some(h[..Min(32, |h|)])
  }

  /** What a request tells `upsertSession` besides the payload. */
  datatype SessionRequest = SessionRequest(userAgent: Option<string>, ipHash: Option<string>)

  /** The row a new session starts with. */
  function NewSession(projectId: string, userId: Option<string>, p: Payload, now: int, req: SessionRequest): SessionRow {
    var first := if |p.events| > 0 then Some(p.events[0]) else None;
    SessionRow(p.session.id, projectId, userId,
               p.session.startedAt.GetOr(now as real), p.session.lastSeenAt.GetOr(now as real),
               if first.Some? then first.value.path else "",
               if req.userAgent.Some? && req.userAgent.value != "" then req.userAgent
               else if first.Some? && first.value.device.ua.Some? && first.value.device.ua.value != "" then first.value.device.ua
               else None,
               if first.Some? then Some(first.value.device) else None,
               req.ipHash)
  }

  /**
   * `upsertSession`: a new session is inserted; an existing one gets the payload's
   * `lastSeenAt` (or now) unconditionally, and the resolved user when there is one.
   */
  function UpsertSessionSpec(st: StoreState, projectId: string, userId: Option<string>, p: Payload, now: int,
                             req: SessionRequest): (r: StoreState)
    ensures p.session.id in r.sessions
    ensures r.projects == st.projects && r.users == st.users && r.events == st.events
    ensures p.session.id !in st.sessions ==> r.sessions == st.sessions[p.session.id := NewSession(projectId, userId, p, now, req)]
                                             && r.sessionOrder == st.sessionOrder + [p.session.id]
    ensures p.session.id in st.sessions ==>
              var old_ := st.sessions[p.session.id];
              && r.sessionOrder == st.sessionOrder
              && r.sessions == st.sessions[p.session.id := old_.(lastSeenAt := p.session.lastSeenAt.GetOr(now as real),
                                                                   userId := if userId.Some? then userId else old_.userId)]
  {
    var id := p.session.id;
    if id !in st.sessions then
      st.(sessions := st.sessions[id := NewSession(projectId, userId, p, now, req)], sessionOrder := st.sessionOrder + [id])
    else
      var s := st.sessions[id];
      st.(sessions := st.sessions[id := s.(lastSeenAt := p.session.lastSeenAt.GetOr(now as real),
                                           userId := if userId.Some? then userId else s.userId)])
  }

  // ---- event rows ------------------------------------------------------------------------

  /** `sanitizeEventMeta`: the keys `value`, `text` and `content` are removed. */
  function SanitizeMeta(meta: Option<Obj>): (r: Option<Obj>)
    ensures meta.None? <==> r.None?
    ensures r.Some? ==> r.value.Keys == meta.value.Keys - {"value", "text", "content"}
    ensures r.Some? ==> forall k :: k in r.value ==> r.value[k] == meta.value[k]
  {
    if meta.None? then None else Some(meta.value - {"value", "text", "content"})
  }

  /** An input whose mask holds anything but asterisks is discarded. */
  predicate Discarded(e: Event) {
    e.body.Input? && e.body.masked.Some? && e.body.masked.value != ""
    && exists i :: 0 <= i < |e.body.masked.value| && e.body.masked.value[i] != '*'
  }

  /** The columns every row of an event shares. */
  function BaseRow(projectId: string, sessionId: string, userId: Option<string>, e: Event): EventRow {
    EventRow(projectId, sessionId, userId, TypeName(e.body), e.ts, e.path, Events.BodySelector(e.body),
             e.viewport, e.device, SanitizeMeta(e.meta), None, None, None)
  }

  /** One row per point of a move, at the point's absolute time and rounded position. */
  function PointRows(base: EventRow, ts: real, points: seq<MovePoint>): (r: seq<EventRow>)
    ensures |r| == |points|
    decreases |points|
  {
    if |points| == 0 then []
    else
      var p := points[|points| - 1];
      PointRows(base, ts, points[..|points| - 1])
        + [base.(ts := ts + p.tsOffset, x := Some(Round(p.x)), y := Some(Round(p.y)))]
  }

  /** The rows `insertEvents` makes of one event. */
  function RowsOf(projectId: string, sessionId: string, userId: Option<string>, e: Event): seq<EventRow> {
    var base := BaseRow(projectId, sessionId, userId, e);
    if Discarded(e) then []
    else
      match e.body
      case Move(points) => PointRows(base, e.ts, points)
      case Click(x, y, _, _) => [base.(x := Some(Round(x)), y := Some(Round(y)))]
      case Scroll(_, pct) => [base.(scrollDepth := Some(Round(pct * 100.0)))]
      case _ => [base]
  }

  function AllRows(projectId: string, sessionId: string, userId: Option<string>, evs: seq<Event>): seq<EventRow>
    decreases |evs|
  {
    if |evs| == 0 then []
    else AllRows(projectId, sessionId, userId, evs[..|evs| - 1]) + RowsOf(projectId, sessionId, userId, evs[|evs| - 1])
  }

  /** How many rows an event becomes. */
  function RowCount(e: Event): nat {
    if Discarded(e) then 0 else if e.body.Move? then |e.body.points| else 1
  }

  function TotalRows(evs: seq<Event>): nat
    decreases |evs|
  {
    if |evs| == 0 then 0 else TotalRows(evs[..|evs| - 1]) + RowCount(evs[|evs| - 1])
  }

  lemma {:induction false} PointRowsContent(base: EventRow, ts: real, points: seq<MovePoint>)
    ensures forall k :: 0 <= k < |points| ==>
              PointRows(base, ts, points)[k] == base.(ts := ts + points[k].tsOffset, x := Some(Round(points[k].x)),
                                                       y := Some(Round(points[k].y)))
    decreases |points|
  {
    if |points| > 0 {
      PointRowsContent(base, ts, points[..|points| - 1]);
    }
  }

  /**
   * A move with K points gives K rows at `ts + tsOffset` with rounded coordinates; a
   * click gives one row at rounded `x`, `y`; a scroll one row with the depth in
   * hundredths of a percent; a discarded input none; every other event one row.
   */
  lemma RowsOfSpec(projectId: string, sessionId: string, userId: Option<string>, e: Event)
    ensures var rows := RowsOf(projectId, sessionId, userId, e);
            var base := BaseRow(projectId, sessionId, userId, e);
            && |rows| == RowCount(e)
            && (e.body.Move? ==> forall k :: 0 <= k < |rows| ==>
                  rows[k] == base.(ts := e.ts + e.body.points[k].tsOffset, x := Some(Round(e.body.points[k].x)),
                                   y := Some(Round(e.body.points[k].y))))
            && (e.body.Click? ==> rows == [base.(x := Some(Round(e.body.x)), y := Some(Round(e.body.y)))])
            && (e.body.Scroll? ==> rows == [base.(scrollDepth := Some(Round(e.body.scrollDepthPct * 100.0)))])
            && (!Discarded(e) && !e.body.Move? && !e.body.Click? && !e.body.Scroll? ==> rows == [base])
            && forall k :: 0 <= k < |rows| ==> rows[k].sessionId == sessionId && rows[k].eventType == TypeName(e.body)
  {
    if e.body.Move? && !Discarded(e) {
      PointRowsContent(BaseRow(projectId, sessionId, userId, e), e.ts, e.body.points);
    }
  }

  lemma {:induction false} AllRowsCount(projectId: string, sessionId: string, userId: Option<string>, evs: seq<Event>)
    ensures |AllRows(projectId, sessionId, userId, evs)| == TotalRows(evs)
    decreases |evs|
  {
    if |evs| > 0 {
      AllRowsCount(projectId, sessionId, userId, evs[..|evs| - 1]);
      RowsOfSpec(projectId, sessionId, userId, evs[|evs| - 1]);
    }
  }

  /** The SDK's masks are asterisks only, so a masked input from the SDK is always stored. */
  lemma SdkMaskKept(e: Event, n: nat)
    requires e.body.Input? && e.body.masked == Some(MaskFor(Some(n)))
    ensures !Discarded(e) && RowCount(e) == 1
  {
  }

  // ---- the store ------------------------------------------------------------------------

  class MemoryStore {
    var projects: map<string, ProjectRow>
    var users: map<(string, string), UserRow>
    var sessions: map<string, SessionRow>
    var sessionOrder: seq<string>
    var events: seq<EventRow>

    function State(): StoreState
      reads this
    {
      StoreState(projects, users, sessions, sessionOrder, events)
    }

    constructor ()
      ensures State() == StoreState(map[], map[], map[], [], [])
    {
      projects, users, sessions, sessionOrder, events := map[], map[], map[], [], [];
    }

    method EnsureProject(projectKey: string, now: int, freshId: string) returns (projectId: string)
      modifies this
      ensures (State(), projectId) == EnsureProjectSpec(old(State()), projectKey, now, freshId)
    {
      if projectKey !in projects {
        projectId := freshId;
        projects := projects[projectKey := ProjectRow(projectId, projectKey, "Default", now)];
      } else {
        projectId := projects[projectKey].id;
      }
    }

    method EnsureUser(projectId: string, externalId: string, traits: Option<Obj>, now: int, freshId: string)
      returns (userId: Option<string>)
      modifies this
      ensures (State(), userId) == EnsureUserSpec(old(State()), projectId, externalId, traits, now, freshId)
    {
      if externalId == "" {
        return None;
      }
      if (projectId, externalId) !in users {
        users := users[(projectId, externalId) := UserRow(freshId, projectId, externalId, traits, now)];
        userId := Some(freshId);
      } else {
        userId := Some(users[(projectId, externalId)].id);
      }
    }

    method UpsertSession(projectId: string, userId: Option<string>, p: Payload, now: int, req: SessionRequest)
      modifies this
      ensures State() == UpsertSessionSpec(old(State()), projectId, userId, p, now, req)
    {
      var id := p.session.id;
      if id !in sessions {
        sessions := sessions[id := NewSession(projectId, userId, p, now, req)];
        sessionOrder := sessionOrder + [id];
      } else {
        var existing := sessions[id];
        sessions := sessions[id := existing.(lastSeenAt := p.session.lastSeenAt.GetOr(now as real),
                                             userId := if userId.Some? then userId else existing.userId)];
      }
    }

    /**
     * `insertEvents`: build all rows, then insert them at once; with no rows there is no
     * insert at all. `fails` says whether the insert call throws, which then writes nothing.
     */
    method InsertEvents(projectId: string, sessionId: string, userId: Option<string>, evs: seq<Event>, fails: bool)
      returns (ok: bool)
      modifies this
      ensures ok <==> AllRows(projectId, sessionId, userId, evs) == [] || !fails
      ensures State() == if ok then old(State()).(events := old(events) + AllRows(projectId, sessionId, userId, evs))
                         else old(State())
    {
      var rows: seq<EventRow> := [];
      for i := 0 to |evs|
        invariant rows == AllRows(projectId, sessionId, userId, evs[..i])
        invariant unchanged(this)
      {
        assert evs[..i + 1][..i] == evs[..i];
        var eventRows := EventRows(projectId, sessionId, userId, evs[i]);
        rows := rows + eventRows;
      }
      assert evs[..|evs|] == evs;
      if |rows| == 0 {
        assert events + rows == events;
        return true;
      }
      if fails {
        return false;
      }
      events := events + rows;
      ok := true;
    }
  }

  /** The body of `insertEvents`' loop for one event: skip a revealing input, else one row per point or one row. */
  method EventRows(projectId: string, sessionId: string, userId: Option<string>, e: Event) returns (rows: seq<EventRow>)
    ensures rows == RowsOf(projectId, sessionId, userId, e)
  {
    if e.body.Input? && e.body.masked.Some? && e.body.masked.value != "" && !AllStars(e.body.masked.value) {
      return [];
    }
    var base := BaseRow(projectId, sessionId, userId, e);
    match e.body
    case Move(points) => rows := MoveRows(base, e.ts, points);
    case Click(x, y, _, _) => rows := [base.(x := Some(Round(x)), y := Some(Round(y)))];
    case Scroll(_, pct) => rows := [base.(scrollDepth := Some(Round(pct * 100.0)))];
    case _ => rows := [base];
  }

  /** The inner loop over a move's points. */
  method MoveRows(base: EventRow, ts: real, points: seq<MovePoint>) returns (rows: seq<EventRow>)
    ensures rows == PointRows(base, ts, points)
  {
    rows := [];
    for j := 0 to |points|
      invariant rows == PointRows(base, ts, points[..j])
    {
      assert points[..j + 1][..j] == points[..j];
      var p := points[j];
      rows := rows + [base.(ts := ts + p.tsOffset, x := Some(Round(p.x)), y := Some(Round(p.y)))];
    }
    assert points[..|points|] == points;
  }

  /** `!/[^*]/.test(s)`, with the scan written out. */
  function AllStars(s: string): (r: bool)
    ensures r <==> forall i :: 0 <= i < |s| ==> s[i] == '*'
  {
    if |s| == 0 then true else s[0] == '*' && AllStars(s[1..])
  }

  // ---- properties of the store ------------------------------------------------------------------

  /** Get-or-create is idempotent: a second identical call finds what the first created. */
  lemma EnsureIdempotent(st: StoreState, projectKey: string, now: int, now2: int, id1: string, id2: string,
                         externalId: string, traits: Option<Obj>, traits2: Option<Obj>, uid1: string, uid2: string)
    ensures var (st1, p1) := EnsureProjectSpec(st, projectKey, now, id1);
            EnsureProjectSpec(st1, projectKey, now2, id2) == (st1, p1)
    ensures var (st1, u1) := EnsureUserSpec(st, id1, externalId, traits, now, uid1);
            EnsureUserSpec(st1, id1, externalId, traits2, now2, uid2) == (st1, u1)
  {
  }

  /** Repeating an upsert with the same payload and time changes nothing more. */
  lemma UpsertIdempotent(st: StoreState, projectId: string, userId: Option<string>, p: Payload, now: int, req: SessionRequest)
    ensures var st1 := UpsertSessionSpec(st, projectId, userId, p, now, req);
            UpsertSessionSpec(st1, projectId, userId, p, now, req) == st1
  {
  }

  /** An update may move `lastSeenAt` backwards: it is set, not maximised. */
  lemma LastSeenSetUnconditionally(st: StoreState, projectId: string, p: Payload, now: int, req: SessionRequest)
    requires p.session.id in st.sessions && p.session.lastSeenAt.Some?
    ensures UpsertSessionSpec(st, projectId, None, p, now, req).sessions[p.session.id].lastSeenAt == p.session.lastSeenAt.value
    ensures UpsertSessionSpec(st, projectId, None, p, now, req).sessions[p.session.id].userId == st.sessions[p.session.id].userId
  {
  }

  lemma ValidEnsureProject(st: StoreState, projectKey: string, now: int, freshId: string)
    requires Valid(st)
    ensures Valid(EnsureProjectSpec(st, projectKey, now, freshId).0)
  {
  }

  lemma ValidEnsureUser(st: StoreState, projectId: string, externalId: string, traits: Option<Obj>, now: int, freshId: string)
    requires Valid(st)
    ensures Valid(EnsureUserSpec(st, projectId, externalId, traits, now, freshId).0)
  {
  }

  lemma ValidUpsert(st: StoreState, projectId: string, userId: Option<string>, p: Payload, now: int, req: SessionRequest)
    requires Valid(st)
    ensures Valid(UpsertSessionSpec(st, projectId, userId, p, now, req))
  {
    var r := UpsertSessionSpec(st, projectId, userId, p, now, req);
    if p.session.id !in st.sessions {
      forall i, j | 0 <= i < j < |r.sessionOrder| ensures r.sessionOrder[i] != r.sessionOrder[j] {
        if j == |st.sessionOrder| {
          assert r.sessionOrder[i] == st.sessionOrder[i];
        }
      }
    }
  }
}
