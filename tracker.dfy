/**
 * The SDK's capture, batching and delivery engine (`TrackerImpl`).
 *
 * The pure functions below give the effect of every operation on the tracker's
 * state; the class `TrackerImpl` holds the same fields and its methods, written
 * statement by statement like the source, are proved to have exactly that effect.
 * The clock, the browser readings, fresh ids, the delivery outcome and the jitter
 * of one call arrive in an `Env`; the JSON byte size of the queue and selector
 * matching are functions the tracker is built with.
 */
module Tracker {
  import opened Wrappers
  import opened Text
  import opened Events
  import opened SdkHelpers
  import opened Json

  const SCROLL_THROTTLE_MS := 200
  const BACKOFF_BASE_MS := 1000
  const BACKOFF_CAP_MS := 30000
  const JITTER_SPAN := 300

  /** What the browser and the outside world supply to one call. */
  datatype Env = Env(
    now: int,              // Date.now()
    path: string,          // pathname + search + hash
    innerWidth: int, innerHeight: int, dpr: real,
    device: Device,
    eventId: string,       // randomId() for the event the call creates
    moveEventId: string,   // randomId() for a move event realised by a flush
    delivered: bool,       // whether the POST of a batch succeeds
    jitter: int)           // Math.floor(Math.random() * 300)

  predicate ValidEnv(env: Env) { 0 <= env.jitter < JITTER_SPAN }

  datatype PostUser = PostUser(id: string, traits: Option<map<string, Json>>)

  /** One POST to the ingest endpoint: the session block, the user, the token, the batch. */
  datatype Post = Post(sessionId: string, startedAt: int, lastSeenAt: int,
                       user: Option<PostUser>, authToken: Option<string>, events: seq<Event>)

  /** The tracker's mutable fields; `posted` records every POST attempted. */
  datatype TrackerState = TrackerState(
    sessionId: string, sessionStartedAt: int, lastSeenAt: int,
    userId: Option<string>, userTraits: Option<map<string, Json>>, authToken: Option<string>,
    queue: seq<Event>, movePoints: seq<MovePoint>, moveBaseTs: int,
    backoffMs: int, retryPending: bool, retryDelayMs: int,
    stopped: bool, lastMoveCapture: int, lastScrollCapture: int, currentPath: string,
    posted: seq<Post>)

  /** What a tracker is built with. */
  datatype Setup = MkSetup(cfg: ResolvedConfig, queueBytes: seq<Event> -> nat, closest: (Element, string) -> bool)

  // ---- events ------------------------------------------------------------------

  function ViewportOf(env: Env): Viewport {
    Viewport(env.innerWidth as real, env.innerHeight as real, Some(if env.dpr == 0.0 then 1.0 else env.dpr))
  }

  function BucketMeta(env: Env): map<string, Json> {
    map["viewportBucket" := JStr(ViewportBucket(env.innerWidth as real, env.innerHeight as real))]
  }

  /** `baseEvent(ts)` completed with a body. */
  function MakeEvent(s: TrackerState, env: Env, id: string, ts: int, body: Body): Event {
    Event(id, s.sessionId, ts as real, env.path, ViewportOf(env), env.device, Some(BucketMeta(env)), body)
  }

  // ---- trimming ----------------------------------------------------------------

  /** Drop events from the front while the queue is non-empty and over the ceiling. */
  function DropOldest(q: seq<Event>, size: seq<Event> -> nat, maxBytes: int): seq<Event>
    decreases |q|
  {
    if |q| > 0 && size(q) > maxBytes then DropOldest(q[1..], size, maxBytes) else q
  }

  /** `trimQueue`: a zero ceiling disables trimming. */
  function Trimmed(q: seq<Event>, size: seq<Event> -> nat, maxBytes: int): seq<Event> {
    if maxBytes == 0 then q else DropOldest(q, size, maxBytes)
  }

  /**
   * Trimming keeps a suffix: it drops the oldest events first, exactly as many as
   * needed for the rest to fit under the ceiling (or until nothing is left).
   */
  lemma {:induction false} DropOldestSuffix(q: seq<Event>, size: seq<Event> -> nat, maxBytes: int)
    ensures var r := DropOldest(q, size, maxBytes);
            && |r| <= |q| && r == q[|q| - |r|..]
            && (r == [] || size(r) <= maxBytes)
            && forall j :: 0 <= j < |q| - |r| ==> size(q[j..]) > maxBytes
    decreases |q|
  {
    if |q| > 0 && size(q) > maxBytes {
      DropOldestSuffix(q[1..], size, maxBytes);
      var r := DropOldest(q, size, maxBytes);
      assert r == DropOldest(q[1..], size, maxBytes);
      assert q[1..][|q| - 1 - |r|..] == q[|q| - |r|..];
      forall j | 0 <= j < |q| - |r|
        ensures size(q[j..]) > maxBytes
      {
        if j > 0 {
          assert q[1..][j - 1..] == q[j..];
        }
      }
    }
  }

  lemma TrimmedSpec(q: seq<Event>, size: seq<Event> -> nat, maxBytes: int)
    ensures maxBytes == 0 ==> Trimmed(q, size, maxBytes) == q
    ensures var r := Trimmed(q, size, maxBytes);
            && |r| <= |q| && r == q[|q| - |r|..]
            && (maxBytes != 0 ==> r == [] || size(r) <= maxBytes)
            && (maxBytes != 0 ==> forall j :: 0 <= j < |q| - |r| ==> size(q[j..]) > maxBytes)
  {
    if maxBytes != 0 {
      DropOldestSuffix(q, size, maxBytes);
    } else {
      assert q[|q| - |q|..] == q;
    }
  }

  /** The queue is under the ceiling, or trimming is off. */
  predicate Fits(c: Setup, q: seq<Event>) {
    c.cfg.maxQueueBytes == 0 || c.queueBytes(q) <= c.cfg.maxQueueBytes
  }

  /** A queue that fits is left exactly as it was; one that does not loses at least its oldest event. */
  lemma FitsUntrimmed(c: Setup, q: seq<Event>)
    ensures Fits(c, q) ==> Trimmed(q, c.queueBytes, c.cfg.maxQueueBytes) == q
    ensures !Fits(c, q) && |q| > 0 ==> |Trimmed(q, c.queueBytes, c.cfg.maxQueueBytes)| < |q|
  {
    if !Fits(c, q) && |q| > 0 {
      assert Trimmed(q, c.queueBytes, c.cfg.maxQueueBytes) == DropOldest(q[1..], c.queueBytes, c.cfg.maxQueueBytes);
      DropOldestSuffix(q[1..], c.queueBytes, c.cfg.maxQueueBytes);
    }
  }

  // ---- delivery ----------------------------------------------------------------

  /** `queue.splice(0, maxEvents)` removes this many events; a non-positive count removes none. */
  function BatchSize(maxEvents: int, n: nat): (k: nat)
    ensures k <= n
    ensures maxEvents <= 0 ==> k == 0
    ensures maxEvents > 0 ==> k == Min(maxEvents, n)
  {
    if maxEvents <= 0 then 0 else Min(maxEvents, n)
  }

  function PostOf(s: TrackerState, batch: seq<Event>): Post {
    Post(s.sessionId, s.sessionStartedAt, s.lastSeenAt,
         if s.userId.Some? && s.userId.value != "" then Some(PostUser(s.userId.value, s.userTraits)) else None,
         if s.authToken.Some? && s.authToken.value != "" then s.authToken else None,
         batch)
  }

  /** The next backoff: 1 s after a clean state, then doubling up to 30 s. */
  function NextBackoff(b: int): int {
    if b == 0 then BACKOFF_BASE_MS else Min(b * 2, BACKOFF_CAP_MS)
  }

  /** `scheduleRetry`: arms the retry timer unless it is already armed. */
  function ScheduleRetrySpec(s: TrackerState, jitter: int): TrackerState {
    if s.retryPending then s
    else
      var b := NextBackoff(s.backoffMs);
      s.(backoffMs := b, retryPending := true, retryDelayMs := b + jitter)
  }

  /** Whether `sendBatch` holds back: nothing queued, or backing off with a retry armed. */
  predicate SendBlocked(s: TrackerState) {
    |s.queue| == 0 || (s.backoffMs > 0 && s.retryPending)
  }

  /** `sendBatch`: post the head slice; on failure put it back in front and schedule a retry. */
  function SendBatchSpec(c: Setup, s: TrackerState, env: Env): TrackerState {
    if SendBlocked(s) then s
    else
      var k := BatchSize(c.cfg.maxEvents, |s.queue|);
      var batch := s.queue[..k];
      var s1 := s.(queue := s.queue[k..], posted := s.posted + [PostOf(s, batch)]);
      if env.delivered then s1.(backoffMs := 0)
      else ScheduleRetrySpec(s1.(queue := batch + s1.queue), env.jitter)
  }

  function MoveFlag(s: TrackerState): nat { if |s.movePoints| > 0 then 1 else 0 }

  /** `enqueue`: append, trim, and flush once the queue holds `maxEvents` events. */
  function EnqueueSpec(c: Setup, s: TrackerState, e: Event, env: Env): TrackerState
    decreases MoveFlag(s), 2
  {
    var s1 := s.(queue := Trimmed(s.queue + [e], c.queueBytes, c.cfg.maxQueueBytes));
    if |s1.queue| >= c.cfg.maxEvents then FlushSpec(c, s1, env) else s1
  }

  /** `flush`: nothing once stopped; otherwise realise the move points and send a batch. */
  function FlushSpec(c: Setup, s: TrackerState, env: Env): TrackerState
    decreases MoveFlag(s), 1
  {
    if s.stopped then s else SendBatchSpec(c, EnqueueMoveSpec(c, s, env), env)
  }

  /** The move event a flush realises from the accumulated points. */
  function MoveEventOf(s: TrackerState, env: Env): Event {
    MakeEvent(s, env, env.moveEventId, if s.moveBaseTs != 0 then s.moveBaseTs else env.now, Move(s.movePoints))
  }

  /** `enqueueMoveEvent`: fold all accumulated points into one `move` event. */
  function EnqueueMoveSpec(c: Setup, s: TrackerState, env: Env): TrackerState
    decreases MoveFlag(s), 0
  {
    if |s.movePoints| == 0 then s
    else
      var ts := if s.moveBaseTs != 0 then s.moveBaseTs else env.now;
      var e := MoveEventOf(s, env);
      EnqueueSpec(c, s.(lastSeenAt := ts, movePoints := [], moveBaseTs := 0), e, env)
  }

  // ---- capture handlers ---------------------------------------------------------

  /** `recordPageview(from, to)`. */
  function PageviewSpec(c: Setup, s: TrackerState, env: Env, from: Option<string>, to: string): TrackerState {
    var e := MakeEvent(s, env, env.eventId, env.now, Pageview(from, if to != "" then to else env.path));
    EnqueueSpec(c, s.(lastSeenAt := env.now), e, env)
  }

  /** `handleNavigation`: a pageview only when the path actually changed. */
  function NavigationSpec(c: Setup, s: TrackerState, env: Env): TrackerState {
    if !c.cfg.capture.pageview || s.stopped || env.path == s.currentPath then s
    else PageviewSpec(c, s.(currentPath := env.path), env, Some(s.currentPath), env.path)
  }

  /** `track(name, props)`. */
  function TrackSpec(c: Setup, s: TrackerState, env: Env, name: string, props: Option<map<string, Json>>): TrackerState {
    EnqueueSpec(c, s.(lastSeenAt := env.now), MakeEvent(s, env, env.eventId, env.now, Custom(name, props)), env)
  }

  /** `handleClick`. */
  function ClickSpec(c: Setup, s: TrackerState, env: Env, target: Option<Element>, x: int, y: int, button: int): TrackerState {
    if !c.cfg.capture.click || s.stopped || !ShouldCapture(c.closest, c.cfg.privacy, target, None) then s
    else
      var e := MakeEvent(s, env, env.eventId, env.now,
                         Click(x as real, y as real, SdkHelpers.SelectorOf(target), Some(button as real)));
      EnqueueSpec(c, s.(lastSeenAt := env.now), e, env)
  }

  /** `handleMove`: record a throttled sample; it becomes an event only at flush. */
  function MoveSampleSpec(c: Setup, s: TrackerState, env: Env, x: int, y: int): TrackerState {
    if !c.cfg.capture.moveEnabled || s.stopped || env.now - s.lastMoveCapture < c.cfg.capture.moveThrottleMs then s
    else
      var base := if s.moveBaseTs == 0 then env.now else s.moveBaseTs;
      s.(lastMoveCapture := env.now, moveBaseTs := base,
         movePoints := s.movePoints + [MovePoint(x as real, y as real, (env.now - base) as real)])
  }

  /** `handleScroll`: at most one scroll event per 200 ms. */
  function ScrollSpec(c: Setup, s: TrackerState, env: Env, reading: ScrollReading): TrackerState {
    if !c.cfg.capture.scroll || s.stopped || env.now - s.lastScrollCapture < SCROLL_THROTTLE_MS then s
    else
      var e := MakeEvent(s, env, env.eventId, env.now, Scroll(reading.scrollTop, reading.pct));
      EnqueueSpec(c, s.(lastScrollCapture := env.now, lastSeenAt := env.now), e, env)
  }

  predicate InputsListening(c: Setup) { c.cfg.capture.inputsEnabled && c.cfg.capture.inputsMode != InputsOff }

  predicate KeyboardListening(c: Setup) { c.cfg.capture.keyboardEnabled && c.cfg.capture.keyboardMode != KeyboardOff }

  function InputValue(k: ElementKind): string
    requires !k.PlainElement?
  {
    k.value
  }

  /** The input event `captureInputEvent` builds for a form field. */
  function InputBody(c: Setup, target: Element, action: InputAction): Body
    requires !target.kind.PlainElement?
  {
    var length := Utf16Length(InputValue(target.kind));
    Input(action, SdkHelpers.SelectorOf(Some(target)),
          Some(if target.kind.InputElement? then target.kind.inputType else "textarea"),
          Some(length as real),
          if c.cfg.capture.inputsMode == InputsMasked then Some(MaskFor(Some(length))) else None)
  }

  /** `captureInputEvent`: form fields only, allowed by the privacy rule, never sensitive ones. */
  function InputSpec(c: Setup, s: TrackerState, env: Env, target: Option<Element>, action: InputAction): TrackerState {
    if !InputsListening(c) || s.stopped then s
    else if target.None? || target.value.kind.PlainElement? then s
    else if !ShouldCapture(c.closest, c.cfg.privacy, target, Some(c.cfg.capture.inputsAllow)) then s
    else if IsSensitiveInput(target) then s
    else EnqueueSpec(c, s.(lastSeenAt := env.now),
                     MakeEvent(s, env, env.eventId, env.now, InputBody(c, target.value, action)), env)
  }

  /** `handleKeyboard`: only the key's category is recorded. */
  function KeyboardSpec(c: Setup, s: TrackerState, env: Env, target: Option<Element>, key: string): TrackerState {
    if !KeyboardListening(c) || s.stopped then s
    else if !ShouldCapture(c.closest, c.cfg.privacy, target, Some(c.cfg.capture.keyboardAllow)) then s
    else if IsSensitiveInput(target) then s
    else EnqueueSpec(c, s.(lastSeenAt := env.now),
                     MakeEvent(s, env, env.eventId, env.now, Keyboard(ClassifyKey(key))), env)
  }

  /** `shutdown`: one last flush, then stop for good. */
  function ShutdownSpec(c: Setup, s: TrackerState, env: Env): TrackerState {
    FlushSpec(c, s, env).(stopped := true)
  }

  /** The retry timer firing: it clears itself and flushes (a cancelled timer never fires). */
  function RetryFiredSpec(c: Setup, s: TrackerState, env: Env): TrackerState {
    if s.stopped || !s.retryPending then s else FlushSpec(c, s.(retryPending := false), env)
  }

  /** The tracker right after construction, before the initial pageview. */
  function Fresh(session: StoredSession, path: string): TrackerState {
    TrackerState(session.id, session.startedAt, session.lastSeenAt, None, None, None,
          [], [], 0, 0, false, 0, false, 0, 0, path, [])
  }

  /** The constructor: load or start a session, then record the initial pageview. */
  function StartSpec(c: Setup, stored: Option<StoredSession>, env: Env, freshSessionId: string): TrackerState {
    var s := Fresh(LoadSession(stored, env.now, c.cfg.idleTimeoutMs, freshSessionId), env.path);
    if c.cfg.capture.pageview then PageviewSpec(c, s, env, None, env.path) else s
  }

  // ---- the class ---------------------------------------------------------------

  class TrackerImpl {
    const cfg: ResolvedConfig
    const queueBytes: seq<Event> -> nat
    const closest: (Element, string) -> bool

    var sessionId: string
    var sessionStartedAt: int
    var lastSeenAt: int
    var userId: Option<string>
    var userTraits: Option<map<string, Json>>
    var authToken: Option<string>
    var queue: seq<Event>
    var movePoints: seq<MovePoint>
    var moveBaseTs: int
    var backoffMs: int
    var retryPending: bool
    var retryDelayMs: int
    var stopped: bool
    var lastMoveCapture: int
    var lastScrollCapture: int
    var currentPath: string
    var posted: seq<Post>

    function Setup(): Setup { MkSetup(cfg, queueBytes, closest) }

    function State(): TrackerState
      reads this
    {
      TrackerState(sessionId, sessionStartedAt, lastSeenAt, userId, userTraits, authToken,
            queue, movePoints, moveBaseTs, backoffMs, retryPending, retryDelayMs,
            stopped, lastMoveCapture, lastScrollCapture, currentPath, posted)
    }

    constructor (config: ResolvedConfig, size: seq<Event> -> nat, matches: (Element, string) -> bool,
                 stored: Option<StoredSession>, env: Env, freshSessionId: string)
      ensures cfg == config && queueBytes == size && closest == matches
      ensures State() == StartSpec(Setup(), stored, env, freshSessionId)
    {
      cfg, queueBytes, closest := config, size, matches;
      var session := LoadSession(stored, env.now, config.idleTimeoutMs, freshSessionId);
      sessionId, sessionStartedAt, lastSeenAt := session.id, session.startedAt, session.lastSeenAt;
      userId, userTraits, authToken := None, None, None;
      queue, movePoints, moveBaseTs := [], [], 0;
      backoffMs, retryPending, retryDelayMs := 0, false, 0;
      stopped, lastMoveCapture, lastScrollCapture := false, 0, 0;
      currentPath, posted := env.path, [];
      new;
      if cfg.capture.pageview {
        RecordPageview(None, currentPath, env);
      }
    }

    method Identify(id: string, traits: Option<map<string, Json>>)
      modifies this
      ensures State() == old(State()).(userId := Some(id), userTraits := traits)
    {
      userId, userTraits := Some(id), traits;
    }

    method SetAuthToken(jwt: Option<string>)
      modifies this
      ensures State() == old(State()).(authToken := jwt)
    {
      authToken := jwt;
    }

    method Track(name: string, props: Option<map<string, Json>>, env: Env)
      modifies this
      ensures State() == TrackSpec(Setup(), old(State()), env, name, props)
    {
      var e := BaseEvent(env.eventId, env.now, Custom(name, props), env);
      Enqueue(e, env);
    }

    method Flush(env: Env)
      modifies this
      ensures State() == FlushSpec(Setup(), old(State()), env)
      decreases MoveFlag(State()), 1
    {
      if stopped {
        return;
      }
      EnqueueMoveEvent(env);
      SendBatch(env);
    }

    method Shutdown(env: Env)
      modifies this
      ensures State() == ShutdownSpec(Setup(), old(State()), env)
    {
      Flush(env);
      stopped := true;
    }

    method RetryTimerFired(env: Env)
      modifies this
      ensures State() == RetryFiredSpec(Setup(), old(State()), env)
    {
      if stopped || !retryPending {
        return;
      }
      retryPending := false;
      Flush(env);
    }

    method Enqueue(e: Event, env: Env)
      modifies this
      ensures State() == EnqueueSpec(Setup(), old(State()), e, env)
      decreases MoveFlag(State()), 2
    {
      queue := queue + [e];
      TrimQueue();
      if |queue| >= cfg.maxEvents {
        Flush(env);
      }
    }

    method TrimQueue()
      modifies this
      ensures State() == old(State()).(queue := Trimmed(old(queue), queueBytes, cfg.maxQueueBytes))
    {
      var maxBytes := cfg.maxQueueBytes;
      if maxBytes == 0 {
        return;
      }
      var size := queueBytes(queue);
      while |queue| > 0 && size > maxBytes
        invariant size == queueBytes(queue)
        invariant DropOldest(queue, queueBytes, maxBytes) == DropOldest(old(queue), queueBytes, maxBytes)
        invariant State() == old(State()).(queue := queue)
        decreases |queue|
      {
        queue := queue[1..];
        size := queueBytes(queue);
      }
    }

    method EnqueueMoveEvent(env: Env)
      modifies this
      ensures State() == EnqueueMoveSpec(Setup(), old(State()), env)
      decreases MoveFlag(State()), 0
    {
      if |movePoints| == 0 {
        return;
      }
      var ts := if moveBaseTs != 0 then moveBaseTs else env.now;
      var e := BaseEvent(env.moveEventId, ts, Move(movePoints), env);
      movePoints := [];
      moveBaseTs := 0;
      Enqueue(e, env);
    }

    method SendBatch(env: Env)
      modifies this
      ensures State() == SendBatchSpec(Setup(), old(State()), env)
    {
      if |queue| == 0 {
        return;
      }
      if backoffMs > 0 && retryPending {
        return;
      }
      var k := BatchSize(cfg.maxEvents, |queue|);
      var batch := PostHead(k);
      if env.delivered {
        backoffMs := 0;
      } else {
        queue := batch + queue;
        ScheduleRetry(env.jitter);
      }
    }

    /** `queue.splice(0, k)` and the post of that slice with the session, user and token. */
    method PostHead(k: nat) returns (batch: seq<Event>)
      requires k <= |queue|
      modifies this
      ensures batch == old(queue)[..k]
      ensures State() == old(State()).(queue := old(queue)[k..], posted := old(posted) + [PostOf(old(State()), batch)])
    {
      batch := queue[..k];
      queue := queue[k..];
      var user := if userId.Some? && userId.value != "" then Some(PostUser(userId.value, userTraits)) else None;
      var token := if authToken.Some? && authToken.value != "" then authToken else None;
      posted := posted + [Post(sessionId, sessionStartedAt, lastSeenAt, user, token, batch)];
    }

    method ScheduleRetry(jitter: int)
      modifies this
      ensures State() == ScheduleRetrySpec(old(State()), jitter)
    {
      if retryPending {
        return;
      }
      backoffMs := if backoffMs == 0 then BACKOFF_BASE_MS else Min(backoffMs * 2, BACKOFF_CAP_MS);
      retryPending := true;
      retryDelayMs := backoffMs + jitter;
    }

    /** `baseEvent(ts)`: refreshes `lastSeenAt` and stamps the common fields. */
    method BaseEvent(id: string, ts: int, body: Body, env: Env) returns (e: Event)
      modifies this
      ensures State() == old(State()).(lastSeenAt := ts)
      ensures e == MakeEvent(old(State()), env, id, ts, body)
    {
      lastSeenAt := ts;
      var vp := Viewport(env.innerWidth as real, env.innerHeight as real,
                         Some(if env.dpr == 0.0 then 1.0 else env.dpr));
      var bucket := ViewportBucket(env.innerWidth as real, env.innerHeight as real);
      e := Event(id, sessionId, ts as real, env.path, vp, env.device, Some(map["viewportBucket" := JStr(bucket)]), body);
    }

    method HandleNavigation(env: Env)
      modifies this
      ensures State() == NavigationSpec(Setup(), old(State()), env)
    {
      if !cfg.capture.pageview || stopped {
        return;
      }
      var nextPath := env.path;
      if nextPath == currentPath {
        return;
      }
      var prev := currentPath;
      currentPath := nextPath;
      RecordPageview(Some(prev), nextPath, env);
    }

    method RecordPageview(from: Option<string>, to: string, env: Env)
      modifies this
      ensures State() == PageviewSpec(Setup(), old(State()), env, from, to)
    {
      var e := BaseEvent(env.eventId, env.now, Pageview(from, if to != "" then to else env.path), env);
      Enqueue(e, env);
    }

    method HandleClick(target: Option<Element>, clientX: int, clientY: int, button: int, env: Env)
      modifies this
      ensures State() == ClickSpec(Setup(), old(State()), env, target, clientX, clientY, button)
    {
      if !cfg.capture.click || stopped {
        return;
      }
      if !ShouldCapture(closest, cfg.privacy, target, None) {
        return;
      }
      var selector := ElementSelector(target);
      var e := BaseEvent(env.eventId, env.now, Click(clientX as real, clientY as real, selector, Some(button as real)), env);
      Enqueue(e, env);
    }

    method HandleMove(clientX: int, clientY: int, env: Env)
      modifies this
      ensures State() == MoveSampleSpec(Setup(), old(State()), env, clientX, clientY)
    {
      if !cfg.capture.moveEnabled || stopped {
        return;
      }
      var now := env.now;
      if now - lastMoveCapture < cfg.capture.moveThrottleMs {
        return;
      }
      lastMoveCapture := now;
      if moveBaseTs == 0 {
        moveBaseTs := now;
      }
      var tsOffset := now - moveBaseTs;
      movePoints := movePoints + [MovePoint(clientX as real, clientY as real, tsOffset as real)];
    }

    method HandleScroll(windowScrollY: real, docScrollTop: real, docScrollHeight: real, env: Env)
      modifies this
      ensures State() == ScrollSpec(Setup(), old(State()), env,
                                    ComputeScrollDepth(windowScrollY, docScrollTop, docScrollHeight, env.innerHeight as real))
    {
      if !cfg.capture.scroll || stopped {
        return;
      }
      var now := env.now;
      if now - lastScrollCapture < SCROLL_THROTTLE_MS {
        return;
      }
      lastScrollCapture := now;
      var reading := ComputeScrollDepth(windowScrollY, docScrollTop, docScrollHeight, env.innerHeight as real);
      var e := BaseEvent(env.eventId, now, Scroll(reading.scrollTop, reading.pct), env);
      Enqueue(e, env);
    }

    method CaptureInputEvent(target: Option<Element>, action: InputAction, env: Env)
      modifies this
      ensures State() == InputSpec(Setup(), old(State()), env, target, action)
    {
      if !cfg.capture.inputsEnabled || cfg.capture.inputsMode == InputsOff || stopped {
        return;
      }
      if target.None? || target.value.kind.PlainElement? {
        return;
      }
      if !ShouldCapture(closest, cfg.privacy, target, Some(cfg.capture.inputsAllow)) {
        return;
      }
      if IsSensitiveInput(target) {
        return;
      }
      var body := InputEventBody(target.value, action);
      var e := BaseEvent(env.eventId, env.now, body, env);
      Enqueue(e, env);
    }

    /** The `input` payload: selector, type, the value's length and, when masked, its mask; never the value. */
    method InputEventBody(el: Element, action: InputAction) returns (body: Body)
      requires !el.kind.PlainElement?
      ensures body == InputBody(Setup(), el, action)
    {
      var length := Utf16Length(el.kind.value);
      var selector := ElementSelector(Some(el));
      var inputType := if el.kind.InputElement? then el.kind.inputType else "textarea";
      var masked: Option<string> := None;
      if cfg.capture.inputsMode == InputsMasked {
        masked := Some(if length != 0 then Repeat('*', Min(length, MASK_CAP)) else "");
      }
      body := Input(action, selector, Some(inputType), Some(length as real), masked);
    }

    method HandleKeyboard(target: Option<Element>, key: string, env: Env)
      modifies this
      ensures State() == KeyboardSpec(Setup(), old(State()), env, target, key)
    {
      if !cfg.capture.keyboardEnabled || cfg.capture.keyboardMode == KeyboardOff || stopped {
        return;
      }
      if !ShouldCapture(closest, cfg.privacy, target, Some(cfg.capture.keyboardAllow)) {
        return;
      }
      if IsSensitiveInput(target) {
        return;
      }
      var e := BaseEvent(env.eventId, env.now, Keyboard(ClassifyKey(key)), env);
      Enqueue(e, env);
    }
  }
}
