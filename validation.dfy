/**
 * The collector's declarative validator: the event union, the ingest payload and
 * the three query schemas, with zod's semantics written out. An object schema
 * reads only its declared keys (unknown keys are stripped), an optional field may
 * be absent but not null, a record must be an object, and a coerced integer goes
 * through JavaScript `Number(...)`.
 */
module Validation {
  import opened Wrappers
  import opened Json
  import opened Events
  import opened Text

  type Obj = map<string, Json>

  // ---- fields -----------------------------------------------------------------

  function Str(o: Obj, k: string): Option<string> {
    if k in o && o[k].JStr? then Some(o[k].s) else None
  }

  function Num(o: Obj, k: string): Option<real> {
    if k in o && o[k].JNum? then Some(o[k].n) else None
  }

  /** `.optional()`: `Some(None)` when absent, `None` when present with the wrong type. */
  function OptStr(o: Obj, k: string): Option<Option<string>> {
    if k !in o then Some(None) else if o[k].JStr? then Some(Some(o[k].s)) else None
  }

  function OptNum(o: Obj, k: string): Option<Option<real>> {
    if k !in o then Some(None) else if o[k].JNum? then Some(Some(o[k].n)) else None
  }

  /** `z.record(z.any()).optional()`: any object, but not an array or null. */
  function OptRecord(o: Obj, k: string): Option<Option<Obj>> {
    if k !in o then Some(None) else if o[k].JObj? then Some(Some(o[k].fields)) else None
  }

  /** Two objects that agree on every key of `keys`. */
  predicate AgreeOn(o1: Obj, o2: Obj, keys: set<string>) {
    forall k :: k in keys ==> (k in o1 <==> k in o2) && (k in o1 ==> o1[k] == o2[k])
  }

  // ---- the event union ---------------------------------------------------------------

  const BASE_KEYS: set<string> := {"eventId", "sessionId", "ts", "path", "viewport", "device", "meta"}
  const BODY_KEYS: set<string> := {"x", "y", "selector", "button", "points", "scrollY", "scrollDepthPct",
                                   "from", "to", "name", "props", "action", "inputType", "length", "masked",
                                   "category"}

  /** `{w: number, h: number, dpr?: number}`: a present `dpr` that is not a number rejects the viewport. */
  function ParseViewport(j: Json): (r: Option<Viewport>)
    ensures r.Some? <==> j.JObj? && Num(j.fields, "w").Some? && Num(j.fields, "h").Some? && OptNum(j.fields, "dpr").Some?
    ensures r.Some? ==> && Num(j.fields, "w") == Some(r.value.w) && Num(j.fields, "h") == Some(r.value.h)
                        && OptNum(j.fields, "dpr") == Some(r.value.dpr)
  {
    if !j.JObj? then None
    else
      var o := j.fields;
      if Num(o, "w").Some? && Num(o, "h").Some? && OptNum(o, "dpr").Some?
      then Some(Viewport(Num(o, "w").value, Num(o, "h").value, OptNum(o, "dpr").value))
      else None
  }

  function ParseDevice(j: Json): (r: Option<Device>)
    ensures r.Some? <==> j.JObj? && OptStr(j.fields, "ua").Some? && OptStr(j.fields, "platform").Some?
                                 && OptStr(j.fields, "language").Some?
  {
    if !j.JObj? then None
    else
      var o := j.fields;
      if OptStr(o, "ua").Some? && OptStr(o, "platform").Some? && OptStr(o, "language").Some?
      then Some(Device(OptStr(o, "ua").value, OptStr(o, "platform").value, OptStr(o, "language").value))
      else None
  }

  function ParsePoint(j: Json): Option<MovePoint> {
    if j.JObj? && Num(j.fields, "x").Some? && Num(j.fields, "y").Some? && Num(j.fields, "tsOffset").Some?
    then Some(MovePoint(Num(j.fields, "x").value, Num(j.fields, "y").value, Num(j.fields, "tsOffset").value))
    else None
  }

  /** `z.array(point)`: every element must parse. */
  function ParsePoints(items: seq<Json>): (r: Option<seq<MovePoint>>)
    ensures r.Some? ==> |r.value| == |items|
    ensures r.Some? <==> forall i :: 0 <= i < |items| ==> ParsePoint(items[i]).Some?
  {
    if |items| == 0 then Some([])
    else if ParsePoint(items[0]).None? then None
    else
      match ParsePoints(items[1..])
      case None => None
      case Some(ps) => Some([ParsePoint(items[0]).value] + ps)
  }

  function ParseAction(s: string): Option<InputAction> {
    if s == "focus" then Some(Focus) else if s == "blur" then Some(Blur)
    else if s == "change" then Some(Change) else None
  }

  function ParseCategory(s: string): Option<KeyCategory> {
    if s == "navigation" then Some(Navigation) else if s == "editing" then Some(Editing)
    else if s == "modifier" then Some(Modifier) else if s == "system" then Some(System)
    else if s == "other" then Some(OtherKey) else None
  }

  /** The variant selected by the `type` literal, with its own required and optional fields. */
  function ParseBody(t: string, o: Obj): (r: Option<Body>)
    ensures r.Some? ==> TypeName(r.value) == t
    ensures t !in {"click", "move", "scroll", "pageview", "custom", "input", "keyboard"} ==> r.None?
    ensures t == "click" ==> (r.Some? <==> Num(o, "x").Some? && Num(o, "y").Some? && OptStr(o, "selector").Some?
                                           && OptNum(o, "button").Some?)
    ensures r.Some? && r.value.Click? ==> && Num(o, "x") == Some(r.value.x) && Num(o, "y") == Some(r.value.y)
                                          && OptStr(o, "selector") == Some(r.value.selector)
                                          && OptNum(o, "button") == Some(r.value.button)
    ensures t == "move" ==> (r.Some? <==> "points" in o && o["points"].JArr? && ParsePoints(o["points"].items).Some?)
    ensures r.Some? && r.value.Move? ==> ParsePoints(o["points"].items) == Some(r.value.points)
    ensures t == "scroll" ==> (r.Some? <==> Num(o, "scrollY").Some? && Num(o, "scrollDepthPct").Some?)
    ensures r.Some? && r.value.Scroll? ==> Num(o, "scrollY") == Some(r.value.scrollY)
                                           && Num(o, "scrollDepthPct") == Some(r.value.scrollDepthPct)
    ensures t == "pageview" ==> (r.Some? <==> OptStr(o, "from").Some? && Str(o, "to").Some?)
    ensures r.Some? && r.value.Pageview? ==> OptStr(o, "from") == Some(r.value.from) && Str(o, "to") == Some(r.value.to)
    ensures t == "custom" ==> (r.Some? <==> Str(o, "name").Some? && OptRecord(o, "props").Some?)
    ensures r.Some? && r.value.Custom? ==> Str(o, "name") == Some(r.value.name) && OptRecord(o, "props") == Some(r.value.props)
    ensures t == "input" ==> (r.Some? <==> && Str(o, "action").Some? && ParseAction(Str(o, "action").value).Some?
                                           && OptStr(o, "selector").Some? && OptStr(o, "inputType").Some?
                                           && OptNum(o, "length").Some? && OptStr(o, "masked").Some?)
    ensures r.Some? && r.value.Input? ==> && ParseAction(Str(o, "action").value) == Some(r.value.action)
                                          && OptStr(o, "selector") == Some(r.value.selector)
                                          && OptStr(o, "inputType") == Some(r.value.inputType)
                                          && OptNum(o, "length") == Some(r.value.length)
                                          && OptStr(o, "masked") == Some(r.value.masked)
    ensures t == "keyboard" ==> (r.Some? <==> Str(o, "category").Some? && ParseCategory(Str(o, "category").value).Some?)
    ensures r.Some? && r.value.Keyboard? ==> ParseCategory(Str(o, "category").value) == Some(r.value.category)
  {
    if t == "click" then
      if Num(o, "x").Some? && Num(o, "y").Some? && OptStr(o, "selector").Some? && OptNum(o, "button").Some?
      then Some(Click(Num(o, "x").value, Num(o, "y").value, OptStr(o, "selector").value, OptNum(o, "button").value))
      else None
    else if t == "move" then
      if "points" in o && o["points"].JArr? && ParsePoints(o["points"].items).Some?
      then Some(Move(ParsePoints(o["points"].items).value))
      else None
    else if t == "scroll" then
      if Num(o, "scrollY").Some? && Num(o, "scrollDepthPct").Some?
      then Some(Scroll(Num(o, "scrollY").value, Num(o, "scrollDepthPct").value))
      else None
    else if t == "pageview" then
      if OptStr(o, "from").Some? && Str(o, "to").Some?
      then Some(Pageview(OptStr(o, "from").value, Str(o, "to").value))
      else None
    else if t == "custom" then
      if Str(o, "name").Some? && OptRecord(o, "props").Some?
      then Some(Custom(Str(o, "name").value, OptRecord(o, "props").value))
      else None
    else if t == "input" then
      if Str(o, "action").Some? && ParseAction(Str(o, "action").value).Some?
         && OptStr(o, "selector").Some? && OptStr(o, "inputType").Some?
         && OptNum(o, "length").Some? && OptStr(o, "masked").Some?
      then Some(Input(ParseAction(Str(o, "action").value).value, OptStr(o, "selector").value,
                      OptStr(o, "inputType").value, OptNum(o, "length").value, OptStr(o, "masked").value))
      else None
    else if t == "keyboard" then
      if Str(o, "category").Some? && ParseCategory(Str(o, "category").value).Some?
      then Some(Keyboard(ParseCategory(Str(o, "category").value).value))
      else None
    else None
  }

  /** The base fields every event needs, as `baseEventSchema` reads them. */
  predicate HasBase(o: Obj) {
    && Str(o, "eventId").Some? && Str(o, "sessionId").Some? && Num(o, "ts").Some? && Str(o, "path").Some?
    && "viewport" in o && ParseViewport(o["viewport"]).Some?
    && "device" in o && ParseDevice(o["device"]).Some?
    && OptRecord(o, "meta").Some?
  }

  /** `eventSchema.safeParse`: a discriminated union on `type` over the seven variants. */
  function ParseEvent(j: Json): (r: Option<Event>)
    ensures r.Some? ==> j.JObj? && HasBase(j.fields)
    ensures r.Some? ==> Str(j.fields, "type") == Some(TypeName(r.value.body))
    ensures r.Some? ==> && r.value.eventId == Str(j.fields, "eventId").value
                        && r.value.sessionId == Str(j.fields, "sessionId").value
                        && r.value.ts == Num(j.fields, "ts").value
                        && r.value.path == Str(j.fields, "path").value
    ensures r.Some? <==> && j.JObj? && Str(j.fields, "type").Some? && HasBase(j.fields)
                         && ParseBody(Str(j.fields, "type").value, j.fields).Some?
    ensures r.Some? ==> && r.value.body == ParseBody(Str(j.fields, "type").value, j.fields).value
                        && r.value.viewport == ParseViewport(j.fields["viewport"]).value
                        && r.value.device == ParseDevice(j.fields["device"]).value
                        && r.value.meta == OptRecord(j.fields, "meta").value
  {
    if !j.JObj? then None
    else
      var o := j.fields;
      if Str(o, "type").None? || !HasBase(o) then None
      else
        match ParseBody(Str(o, "type").value, o)
        case None => None
        case Some(b) =>
          Some(Event(Str(o, "eventId").value, Str(o, "sessionId").value, Num(o, "ts").value, Str(o, "path").value,
                     ParseViewport(o["viewport"]).value, ParseDevice(o["device"]).value,
                     OptRecord(o, "meta").value, b))
  }

  function ParseEvents(items: seq<Json>): (r: Option<seq<Event>>)
    ensures r.Some? ==> |r.value| == |items|
    ensures r.Some? ==> forall i :: 0 <= i < |items| ==> ParseEvent(items[i]) == Some(r.value[i])
    ensures r.Some? <==> forall i :: 0 <= i < |items| ==> ParseEvent(items[i]).Some?
  {
    if |items| == 0 then Some([])
    else
      match (ParseEvent(items[0]), ParseEvents(items[1..]))
      case (Some(e), Some(es)) => Some([e] + es)
      case _ => None
  }

  // ---- the ingest payload ---------------------------------------------------------------

  datatype SdkInfo = SdkInfo(name: Option<string>, version: Option<string>)
  datatype AppInfoBlock = AppInfoBlock(name: Option<string>, version: Option<string>, env: Option<string>)
  datatype SessionBlock = SessionBlock(id: string, startedAt: Option<real>, lastSeenAt: Option<real>)
  datatype UserBlock = UserBlock(id: string, traits: Option<Obj>)
  datatype Payload = Payload(sdk: Option<SdkInfo>, app: Option<AppInfoBlock>, session: SessionBlock,
                             user: Option<UserBlock>, events: seq<Event>)

  function ParseSdk(o: Obj): (r: Option<Option<SdkInfo>>)
    ensures r == Some(None) <==> "sdk" !in o
    ensures "sdk" in o ==> (r.Some? <==> && o["sdk"].JObj? && OptStr(o["sdk"].fields, "name").Some?
                                         && OptStr(o["sdk"].fields, "version").Some?)
    ensures r.Some? && r.value.Some? ==> && OptStr(o["sdk"].fields, "name") == Some(r.value.value.name)
                                         && OptStr(o["sdk"].fields, "version") == Some(r.value.value.version)
  {
    if "sdk" !in o then Some(None)
    else if !o["sdk"].JObj? then None
    else
      var s := o["sdk"].fields;
      if OptStr(s, "name").Some? && OptStr(s, "version").Some?
      then Some(Some(SdkInfo(OptStr(s, "name").value, OptStr(s, "version").value)))
      else None
  }

  function ParseApp(o: Obj): (r: Option<Option<AppInfoBlock>>)
    ensures r == Some(None) <==> "app" !in o
    ensures "app" in o ==> (r.Some? <==> && o["app"].JObj? && OptStr(o["app"].fields, "name").Some?
                                         && OptStr(o["app"].fields, "version").Some? && OptStr(o["app"].fields, "env").Some?)
    ensures r.Some? && r.value.Some? ==> && OptStr(o["app"].fields, "name") == Some(r.value.value.name)
                                         && OptStr(o["app"].fields, "version") == Some(r.value.value.version)
                                         && OptStr(o["app"].fields, "env") == Some(r.value.value.env)
  {
    if "app" !in o then Some(None)
    else if !o["app"].JObj? then None
    else
      var a := o["app"].fields;
      if OptStr(a, "name").Some? && OptStr(a, "version").Some? && OptStr(a, "env").Some?
      then Some(Some(AppInfoBlock(OptStr(a, "name").value, OptStr(a, "version").value, OptStr(a, "env").value)))
      else None
  }

  function ParseSession(o: Obj): (r: Option<SessionBlock>)
    ensures r.Some? ==> "session" in o && o["session"].JObj? && Str(o["session"].fields, "id") == Some(r.value.id)
    ensures r.Some? <==> && "session" in o && o["session"].JObj? && Str(o["session"].fields, "id").Some?
                         && OptNum(o["session"].fields, "startedAt").Some? && OptNum(o["session"].fields, "lastSeenAt").Some?
    ensures r.Some? ==> && OptNum(o["session"].fields, "startedAt") == Some(r.value.startedAt)
                        && OptNum(o["session"].fields, "lastSeenAt") == Some(r.value.lastSeenAt)
  {
    if "session" !in o || !o["session"].JObj? then None
    else
      var s := o["session"].fields;
      if Str(s, "id").Some? && OptNum(s, "startedAt").Some? && OptNum(s, "lastSeenAt").Some?
      then Some(SessionBlock(Str(s, "id").value, OptNum(s, "startedAt").value, OptNum(s, "lastSeenAt").value))
      else None
  }

  function ParseUser(o: Obj): (r: Option<Option<UserBlock>>)
    ensures r == Some(None) <==> "user" !in o
    ensures r.Some? && r.value.Some? ==> o["user"].JObj? && Str(o["user"].fields, "id") == Some(r.value.value.id)
    ensures "user" in o ==> (r.Some? <==> && o["user"].JObj? && Str(o["user"].fields, "id").Some?
                                          && OptRecord(o["user"].fields, "traits").Some?)
    ensures r.Some? && r.value.Some? ==> OptRecord(o["user"].fields, "traits") == Some(r.value.value.traits)
  {
    if "user" !in o then Some(None)
    else if !o["user"].JObj? then None
    else
      var u := o["user"].fields;
      if Str(u, "id").Some? && OptRecord(u, "traits").Some?
      then Some(Some(UserBlock(Str(u, "id").value, OptRecord(u, "traits").value)))
      else None
  }

  /** `ingestSchema.safeParse`: a session with a string id and at least one valid event. */
  function ParsePayload(j: Json): (r: Option<Payload>)
    ensures r.Some? ==> j.JObj? && "session" in j.fields && j.fields["session"].JObj?
                        && Str(j.fields["session"].fields, "id") == Some(r.value.session.id)
    ensures r.Some? ==> "events" in j.fields && j.fields["events"].JArr? && |r.value.events| >= 1
    ensures r.Some? ==> |r.value.events| == |j.fields["events"].items|
    ensures r.Some? ==> forall i :: 0 <= i < |j.fields["events"].items| ==>
                          ParseEvent(j.fields["events"].items[i]) == Some(r.value.events[i])
    ensures r.Some? <==> && j.JObj? && ParseSdk(j.fields).Some? && ParseApp(j.fields).Some?
                         && ParseSession(j.fields).Some? && ParseUser(j.fields).Some?
                         && "events" in j.fields && j.fields["events"].JArr? && |j.fields["events"].items| >= 1
                         && ParseEvents(j.fields["events"].items).Some?
    ensures r.Some? ==> && ParseSdk(j.fields) == Some(r.value.sdk) && ParseApp(j.fields) == Some(r.value.app)
                        && ParseSession(j.fields) == Some(r.value.session) && ParseUser(j.fields) == Some(r.value.user)
  {
    if !j.JObj? then None
    else
      var o := j.fields;
      var sdk := ParseSdk(o);
      var app := ParseApp(o);
      var session := ParseSession(o);
      var user := ParseUser(o);
      if sdk.None? || app.None? || session.None? || user.None? then None
      else if "events" !in o || !o["events"].JArr? || |o["events"].items| < 1 then None
      else
        match ParseEvents(o["events"].items)
        case None => None
        case Some(es) => Some(Payload(sdk.value, app.value, session.value, user.value, es))
  }

  /** An empty body is a 400: there is no session and no event. */
  lemma EmptyPayloadRejected()
    ensures ParsePayload(JObj(map[])) == None
    ensures forall s: Json :: ParsePayload(JObj(map["session" := s, "events" := JArr([])])) == None
  {
  }

  // ---- the querystring schemas ---------------------------------------------------------------

  /** A querystring: every parameter is a string. */
  type Query = map<string, string>

  /** `z.coerce.number().int().optional().default(d)`. */
  function CoercedInt(q: Query, k: string, d: int): (r: Option<int>)
    ensures k !in q ==> r == Some(d)
    ensures k in q ==> (r.Some? <==> NumberOf(q[k]).Some? && NumberOf(q[k]).value == NumberOf(q[k]).value.Floor as real)
    ensures k in q && r.Some? ==> r.value as real == NumberOf(q[k]).value
  {
    if k !in q then Some(d)
    else
      match NumberOf(q[k])
      case None => None
      case Some(v) => if v == v.Floor as real then Some(v.Floor) else None
  }

  function QStr(q: Query, k: string): Option<string> {
    if k in q then Some(q[k]) else None
  }

  datatype HeatmapQuery = HeatmapQuery(path: Option<string>, from: Option<string>, to: Option<string>,
                                       eventType: Option<string>, resolution: int, viewportBucket: Option<string>)

  const HEATMAP_TYPES: set<string> := {"click", "move", "scroll"}

  /** `heatmapQuerySchema`: the type is one of three; the resolution is any integer, 128 by default. */
  function ParseHeatmapQuery(q: Query): (r: Option<HeatmapQuery>)
    ensures r.Some? ==> r.value.eventType.None? || r.value.eventType.value in HEATMAP_TYPES
    ensures r.Some? <==> ("type" in q ==> q["type"] in HEATMAP_TYPES) && CoercedInt(q, "resolution", 128).Some?
    ensures r.Some? ==> r.value.resolution == CoercedInt(q, "resolution", 128).value
                        && r.value.path == QStr(q, "path") && r.value.viewportBucket == QStr(q, "viewportBucket")
                        && r.value.from == QStr(q, "from") && r.value.to == QStr(q, "to") && r.value.eventType == QStr(q, "type")
  {
    var t := QStr(q, "type");
    var res := CoercedInt(q, "resolution", 128);
    if (t.Some? && t.value !in HEATMAP_TYPES) || res.None? then None
    else Some(HeatmapQuery(QStr(q, "path"), QStr(q, "from"), QStr(q, "to"), t, res.value, QStr(q, "viewportBucket")))
  }

  datatype SessionsQuery = SessionsQuery(from: Option<string>, to: Option<string>, userId: Option<string>,
                                         path: Option<string>, limit: int, offset: int)

  /** `sessionsQuerySchema`: limit in [1, 200] (50 by default), offset at least 0 (0 by default). */
  function ParseSessionsQuery(q: Query): (r: Option<SessionsQuery>)
    ensures r.Some? ==> 1 <= r.value.limit <= 200 && r.value.offset >= 0
    ensures r.Some? <==> && CoercedInt(q, "limit", 50).Some? && 1 <= CoercedInt(q, "limit", 50).value <= 200
                         && CoercedInt(q, "offset", 0).Some? && CoercedInt(q, "offset", 0).value >= 0
    ensures r.Some? ==> r.value.limit == CoercedInt(q, "limit", 50).value && r.value.offset == CoercedInt(q, "offset", 0).value
    ensures r.Some? ==> && r.value.from == QStr(q, "from") && r.value.to == QStr(q, "to")
                        && r.value.userId == QStr(q, "userId") && r.value.path == QStr(q, "path")
  {
    var limit := CoercedInt(q, "limit", 50);
    var offset := CoercedInt(q, "offset", 0);
    if limit.None? || limit.value < 1 || limit.value > 200 || offset.None? || offset.value < 0 then None
    else Some(SessionsQuery(QStr(q, "from"), QStr(q, "to"), QStr(q, "userId"), QStr(q, "path"), limit.value, offset.value))
  }

  datatype SessionEventsQuery = SessionEventsQuery(limit: int, offset: int, eventType: Option<string>)

  /** `sessionEventsQuerySchema`: limit in [1, 500] (200 by default), offset at least 0, any type string. */
  function ParseSessionEventsQuery(q: Query): (r: Option<SessionEventsQuery>)
    ensures r.Some? ==> 1 <= r.value.limit <= 500 && r.value.offset >= 0
    ensures r.Some? <==> && CoercedInt(q, "limit", 200).Some? && 1 <= CoercedInt(q, "limit", 200).value <= 500
                         && CoercedInt(q, "offset", 0).Some? && CoercedInt(q, "offset", 0).value >= 0
    ensures r.Some? ==> r.value.limit == CoercedInt(q, "limit", 200).value && r.value.eventType == QStr(q, "type")
    ensures r.Some? ==> r.value.offset == CoercedInt(q, "offset", 0).value
  {
    var limit := CoercedInt(q, "limit", 200);
    var offset := CoercedInt(q, "offset", 0);
    if limit.None? || limit.value < 1 || limit.value > 500 || offset.None? || offset.value < 0 then None
    else Some(SessionEventsQuery(limit.value, offset.value, QStr(q, "type")))
  }

  /** Missing parameters take their defaults. */
  lemma QueryDefaults()
    ensures ParseHeatmapQuery(map[]) == Some(HeatmapQuery(None, None, None, None, 128, None))
    ensures ParseSessionsQuery(map[]) == Some(SessionsQuery(None, None, None, None, 50, 0))
    ensures ParseSessionEventsQuery(map[]) == Some(SessionEventsQuery(200, 0, None))
  {
  }

  /** Any decimal integer is an accepted resolution, zero and negative ones included. */
  lemma ResolutionUnbounded(n: int)
    ensures ParseHeatmapQuery(map["resolution" := IntToString(n)]) == Some(HeatmapQuery(None, None, None, None, n, None))
  {
    IntToStringRoundTrip(n);
  }

  /** An explicit decimal limit is accepted exactly when it lies in [1, 200]. */
  lemma SessionsLimitRange(n: int)
    ensures var r := ParseSessionsQuery(map["limit" := IntToString(n)]);
            (r.Some? <==> 1 <= n <= 200) && (r.Some? ==> r.value.limit == n && r.value.offset == 0)
  {
    IntToStringRoundTrip(n);
  }

  /** An explicit decimal limit for session events is accepted exactly when it lies in [1, 500]. */
  lemma SessionEventsLimitRange(n: int)
    ensures var r := ParseSessionEventsQuery(map["limit" := IntToString(n)]);
            (r.Some? <==> 1 <= n <= 500) && (r.Some? ==> r.value.limit == n)
  {
    IntToStringRoundTrip(n);
  }
}
