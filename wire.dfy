/**
 * The JSON form in which the SDK posts its events and payloads (what
 * `JSON.stringify` produces from them: an absent optional field is omitted), and
 * the proof that the collector's validator accepts exactly what was sent.
 */
module Wire {
  import opened Wrappers
  import opened Json
  import opened Events
  import opened Validation

  function OptField(o: Obj, k: string, v: Option<Json>): Obj {
    if v.Some? then o[k := v.value] else o
  }

  function S(v: Option<string>): Option<Json> { if v.Some? then Some(JStr(v.value)) else None }
  function N(v: Option<real>): Option<Json> { if v.Some? then Some(JNum(v.value)) else None }
  function R(v: Option<Obj>): Option<Json> { if v.Some? then Some(JObj(v.value)) else None }

  function ViewportJson(v: Viewport): Json {
    JObj(OptField(map["w" := JNum(v.w), "h" := JNum(v.h)], "dpr", N(v.dpr)))
  }

  function DeviceJson(d: Device): Json {
    JObj(OptField(OptField(OptField(map[], "ua", S(d.ua)), "platform", S(d.platform)), "language", S(d.language)))
  }

  function PointJson(p: MovePoint): Json {
    JObj(map["x" := JNum(p.x), "y" := JNum(p.y), "tsOffset" := JNum(p.tsOffset)])
  }

  function PointsJson(ps: seq<MovePoint>): (r: seq<Json>)
    ensures |r| == |ps|
  {
    if |ps| == 0 then [] else [PointJson(ps[0])] + PointsJson(ps[1..])
  }

  /** The variant's own fields, `type` included. */
  function BodyFields(b: Body): (o: Obj)
    ensures forall k :: k in o ==> k in BODY_KEYS || k == "type"
    ensures "type" in o && o["type"] == JStr(TypeName(b))
  {
    var t := map["type" := JStr(TypeName(b))];
    match b
    case Click(x, y, selector, button) =>
      OptField(OptField(t["x" := JNum(x)]["y" := JNum(y)], "selector", S(selector)), "button", N(button))
    case Move(points) => t["points" := JArr(PointsJson(points))]
    case Scroll(scrollY, pct) => t["scrollY" := JNum(scrollY)]["scrollDepthPct" := JNum(pct)]
    case Pageview(from, to) => OptField(t, "from", S(from))["to" := JStr(to)]
    case Custom(name, props) => OptField(t["name" := JStr(name)], "props", R(props))
    case Input(action, selector, inputType, length, masked) =>
      OptField(OptField(OptField(OptField(t["action" := JStr(ActionName(action))],
        "selector", S(selector)), "inputType", S(inputType)), "length", N(length)), "masked", S(masked))
    case Keyboard(category) => t["category" := JStr(CategoryName(category))]
  }

  function BaseFields(e: Event): (o: Obj)
    ensures forall k :: k in o ==> k in BASE_KEYS
  {
    OptField(map["eventId" := JStr(e.eventId), "sessionId" := JStr(e.sessionId), "ts" := JNum(e.ts),
                 "path" := JStr(e.path), "viewport" := ViewportJson(e.viewport), "device" := DeviceJson(e.device)],
             "meta", R(e.meta))
  }

  function EventJson(e: Event): Json {
    JObj(BaseFields(e) + BodyFields(e.body))
  }

  // ---- round trips ---------------------------------------------------------------

  lemma ViewportRoundTrip(v: Viewport)
    ensures ParseViewport(ViewportJson(v)) == Some(v)
  {
  }

  lemma DeviceRoundTrip(d: Device)
    ensures ParseDevice(DeviceJson(d)) == Some(d)
  {
  }

  lemma {:induction false} PointsRoundTrip(ps: seq<MovePoint>)
    ensures ParsePoints(PointsJson(ps)) == Some(ps)
  {
    if |ps| > 0 {
      PointsRoundTrip(ps[1..]);
      assert PointsJson(ps)[1..] == PointsJson(ps[1..]);
      assert [ps[0]] + ps[1..] == ps;
    }
  }

  lemma BodyRoundTrip(b: Body)
    ensures ParseBody(TypeName(b), BodyFields(b)) == Some(b)
  {
    match b
    case Click(_, _, _, _) => ClickRoundTrip(b);
    case Move(_) => MoveRoundTrip(b);
    case Scroll(_, _) => ScrollRoundTrip(b);
    case Pageview(_, _) => PageviewRoundTrip(b);
    case Custom(_, _) => CustomRoundTrip(b);
    case Input(_, _, _, _, _) => InputRoundTrip(b);
    case Keyboard(_) => KeyboardRoundTrip(b);
  }

  lemma MoveRoundTrip(b: Body)
    requires b.Move?
    ensures ParseBody("move", BodyFields(b)) == Some(b)
  {
    PointsRoundTrip(b.points);
  }

  lemma ScrollRoundTrip(b: Body)
    requires b.Scroll?
    ensures ParseBody("scroll", BodyFields(b)) == Some(b)
  {
  }

  lemma PageviewRoundTrip(b: Body)
    requires b.Pageview?
    ensures ParseBody("pageview", BodyFields(b)) == Some(b)
  {
  }

  lemma CustomRoundTrip(b: Body)
    requires b.Custom?
    ensures ParseBody("custom", BodyFields(b)) == Some(b)
  {
  }

  lemma KeyboardRoundTrip(b: Body)
    requires b.Keyboard?
    ensures ParseBody("keyboard", BodyFields(b)) == Some(b)
  {
    assert ParseCategory(CategoryName(b.category)) == Some(b.category);
  }

  lemma ClickRoundTrip(b: Body)
    requires b.Click?
    ensures ParseBody("click", BodyFields(b)) == Some(b)
  {
  }

  lemma InputRoundTrip(b: Body)
    requires b.Input?
    ensures ParseBody("input", BodyFields(b)) == Some(b)
  {
    var o := BodyFields(b);
    assert ParseAction(ActionName(b.action)) == Some(b.action);
    assert Str(o, "action") == Some(ActionName(b.action));
    assert OptStr(o, "selector") == Some(b.selector) && OptStr(o, "inputType") == Some(b.inputType);
    assert OptNum(o, "length") == Some(b.length) && OptStr(o, "masked") == Some(b.masked);
  }

  /** The variant parser reads only the variant keys. */
  lemma ParseBodyLocal(t: string, o1: Obj, o2: Obj)
    requires AgreeOn(o1, o2, BODY_KEYS)
    ensures ParseBody(t, o1) == ParseBody(t, o2)
  {
    if t == "click" {
      SameKey(o1, o2, "x"); SameKey(o1, o2, "y"); SameKey(o1, o2, "selector"); SameKey(o1, o2, "button");
    } else if t == "move" {
      SameKey(o1, o2, "points");
    } else if t == "scroll" {
      SameKey(o1, o2, "scrollY"); SameKey(o1, o2, "scrollDepthPct");
    } else if t == "pageview" {
      SameKey(o1, o2, "from"); SameKey(o1, o2, "to");
    } else if t == "custom" {
      SameKey(o1, o2, "name"); SameKey(o1, o2, "props");
    } else if t == "input" {
      SameKey(o1, o2, "action"); SameKey(o1, o2, "selector"); SameKey(o1, o2, "inputType");
      SameKey(o1, o2, "length"); SameKey(o1, o2, "masked");
    } else if t == "keyboard" {
      SameKey(o1, o2, "category");
    }
  }

  /** Two objects agreeing on a body key read the same value from it, whatever its expected type. */
  lemma SameKey(o1: Obj, o2: Obj, k: string)
    requires AgreeOn(o1, o2, BODY_KEYS) && k in BODY_KEYS
    ensures (k in o1 <==> k in o2) && (k in o1 ==> o1[k] == o2[k])
    ensures Str(o1, k) == Str(o2, k) && Num(o1, k) == Num(o2, k)
    ensures OptStr(o1, k) == OptStr(o2, k) && OptNum(o1, k) == OptNum(o2, k) && OptRecord(o1, k) == OptRecord(o2, k)
  {
  }

  lemma KeySetsDisjoint()
    ensures forall k :: k in BASE_KEYS ==> k !in BODY_KEYS && k != "type"
  {
  }

  /** The base fields are read only from the base keys. */
  lemma HasBaseLocal(o1: Obj, o2: Obj)
    requires AgreeOn(o1, o2, BASE_KEYS)
    ensures HasBase(o1) == HasBase(o2)
    ensures HasBase(o1) ==> && Str(o1, "eventId") == Str(o2, "eventId") && Str(o1, "sessionId") == Str(o2, "sessionId")
                            && Num(o1, "ts") == Num(o2, "ts") && Str(o1, "path") == Str(o2, "path")
                            && o1["viewport"] == o2["viewport"] && o1["device"] == o2["device"]
                            && OptRecord(o1, "meta") == OptRecord(o2, "meta")
  {
    assert "viewport" in BASE_KEYS && "device" in BASE_KEYS;
  }

  lemma BaseRoundTrip(e: Event)
    ensures var o := BaseFields(e);
            && HasBase(o) && Str(o, "eventId") == Some(e.eventId) && Str(o, "sessionId") == Some(e.sessionId)
            && Num(o, "ts") == Some(e.ts) && Str(o, "path") == Some(e.path)
            && ParseViewport(o["viewport"]) == Some(e.viewport) && ParseDevice(o["device"]) == Some(e.device)
            && OptRecord(o, "meta") == Some(e.meta)
  {
    ViewportRoundTrip(e.viewport);
    DeviceRoundTrip(e.device);
  }

  /** Every event the SDK sends is accepted by the collector and parsed back to itself. */
  lemma EventRoundTrip(e: Event)
    ensures ParseEvent(EventJson(e)) == Some(e)
  {
    var base := BaseFields(e);
    var body := BodyFields(e.body);
    var o := base + body;
    KeySetsDisjoint();
    assert AgreeOn(o, body, BODY_KEYS);
    assert AgreeOn(o, base, BASE_KEYS);
    ParseBodyLocal(TypeName(e.body), o, body);
    BodyRoundTrip(e.body);
    HasBaseLocal(o, base);
    BaseRoundTrip(e);
    assert Str(o, "type") == Some(TypeName(e.body));
  }

  /** Keys outside the union's schema are stripped: they never change the parse. */
  lemma UnknownKeysStripped(o: Obj, k: string, v: Json)
    requires k !in BASE_KEYS && k !in BODY_KEYS && k != "type"
    ensures ParseEvent(JObj(o[k := v])) == ParseEvent(JObj(o))
  {
    var o2 := o[k := v];
    assert AgreeOn(o2, o, BODY_KEYS);
    assert AgreeOn(o2, o, BASE_KEYS);
    HasBaseLocal(o2, o);
    assert Str(o2, "type") == Str(o, "type");
    if Str(o, "type").Some? {
      ParseBodyLocal(Str(o, "type").value, o2, o);
    }
  }

  // ---- the payload ------------------------------------------------------------------

  function EventsJson(es: seq<Event>): (r: seq<Json>)
    ensures |r| == |es|
  {
    if |es| == 0 then [] else [EventJson(es[0])] + EventsJson(es[1..])
  }

  function SdkJson(sdk: SdkInfo): Json {
    JObj(OptField(OptField(map[], "name", S(sdk.name)), "version", S(sdk.version)))
  }

  function AppJson(app: AppInfoBlock): Json {
    JObj(OptField(OptField(OptField(map[], "name", S(app.name)), "version", S(app.version)), "env", S(app.env)))
  }

  function SessionJson(session: SessionBlock): Json {
    JObj(OptField(OptField(map["id" := JStr(session.id)], "startedAt", N(session.startedAt)),
                  "lastSeenAt", N(session.lastSeenAt)))
  }

  function UserJson(user: UserBlock): Json {
    JObj(OptField(map["id" := JStr(user.id)], "traits", R(user.traits)))
  }

  function PayloadJson(p: Payload): Json {
    JObj(OptField(OptField(OptField(map["session" := SessionJson(p.session), "events" := JArr(EventsJson(p.events))],
                                    "sdk", if p.sdk.Some? then Some(SdkJson(p.sdk.value)) else None),
                           "app", if p.app.Some? then Some(AppJson(p.app.value)) else None),
                  "user", if p.user.Some? then Some(UserJson(p.user.value)) else None))
  }

  /** Where each block of the payload sits in its JSON object. */
  lemma PayloadFields(p: Payload)
    ensures var o := PayloadJson(p).fields;
            && "session" in o && o["session"] == SessionJson(p.session)
            && "events" in o && o["events"] == JArr(EventsJson(p.events))
            && ("sdk" in o <==> p.sdk.Some?) && (p.sdk.Some? ==> o["sdk"] == SdkJson(p.sdk.value))
            && ("app" in o <==> p.app.Some?) && (p.app.Some? ==> o["app"] == AppJson(p.app.value))
            && ("user" in o <==> p.user.Some?) && (p.user.Some? ==> o["user"] == UserJson(p.user.value))
  {
  }

  lemma {:induction false} EventsJsonAt(es: seq<Event>, i: int)
    requires 0 <= i < |es|
    ensures EventsJson(es)[i] == EventJson(es[i])
    decreases i
  {
    var tail := EventsJson(es[1..]);
    assert EventsJson(es) == [EventJson(es[0])] + tail;
    if i > 0 {
      EventsJsonAt(es[1..], i - 1);
      assert es[1..][i - 1] == es[i];
    }
  }

  lemma EventAt(es: seq<Event>, i: int)
    requires 0 <= i < |es|
    ensures ParseEvent(EventsJson(es)[i]) == Some(es[i])
  {
    EventsJsonAt(es, i);
    EventRoundTrip(es[i]);
  }

  lemma EventsRoundTrip(es: seq<Event>)
    ensures ParseEvents(EventsJson(es)) == Some(es)
  {
    var items := EventsJson(es);
    forall i | 0 <= i < |items| ensures ParseEvent(items[i]) == Some(es[i]) {
      EventAt(es, i);
    }
    var r := ParseEvents(items);
    assert r.Some?;
    assert |r.value| == |es|;
    assert forall i :: 0 <= i < |es| ==> r.value[i] == es[i];
    assert r.value == es;
  }

  lemma BlocksRoundTrip(p: Payload)
    ensures var o := PayloadJson(p).fields;
            && ParseSdk(o) == Some(p.sdk) && ParseApp(o) == Some(p.app)
            && ParseSession(o) == Some(p.session) && ParseUser(o) == Some(p.user)
  {
    PayloadFields(p);
    var o := PayloadJson(p).fields;
    if p.sdk.Some? {
      SdkRoundTrip(p.sdk.value);
    }
    if p.app.Some? {
      AppRoundTrip(p.app.value);
    }
    if p.user.Some? {
      UserRoundTrip(p.user.value);
    }
    SessionRoundTrip(p.session);
  }

  lemma SdkRoundTrip(sdk: SdkInfo)
    ensures forall o: Obj :: "sdk" in o && o["sdk"] == SdkJson(sdk) ==> ParseSdk(o) == Some(Some(sdk))
  {
  }

  lemma AppRoundTrip(app: AppInfoBlock)
    ensures forall o: Obj :: "app" in o && o["app"] == AppJson(app) ==> ParseApp(o) == Some(Some(app))
  {
  }

  lemma UserRoundTrip(user: UserBlock)
    ensures forall o: Obj :: "user" in o && o["user"] == UserJson(user) ==> ParseUser(o) == Some(Some(user))
  {
  }

  lemma SessionRoundTrip(session: SessionBlock)
    ensures forall o: Obj :: "session" in o && o["session"] == SessionJson(session) ==> ParseSession(o) == Some(session)
  {
  }

  /** A payload with at least one event is accepted and parsed back to itself. */
  lemma PayloadRoundTrip(p: Payload)
    requires |p.events| >= 1
    ensures ParsePayload(PayloadJson(p)) == Some(p)
  {
    EventsRoundTrip(p.events);
    PayloadFields(p);
    BlocksRoundTrip(p);
  }

  /** With no events the payload is rejected, whatever else it holds. */
  lemma NoEventsRejected(p: Payload)
    requires p.events == []
    ensures ParsePayload(PayloadJson(p)) == None
  {
    PayloadFields(p);
  }
}
