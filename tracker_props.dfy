/**
 * Properties of the tracker's transition functions: batching conserves events,
 * the backoff schedule, the state invariant every operation keeps, shutdown, and
 * the throttles and privacy gates of the capture handlers.
 */
module TrackerProps {
  import opened Wrappers
  import opened Text
  import opened Events
  import opened SdkHelpers
  import opened Json
  import opened Tracker

  // ---- sendBatch ----------------------------------------------------------------

  /**
   * A send either holds back entirely, or posts exactly one batch taken from the
   * head of the queue: on success the batch leaves the queue, on failure the queue
   * is as it was and the retry timer is armed.
   */
  lemma SendBatchConserves(c: Setup, s: TrackerState, env: Env)
    ensures SendBlocked(s) ==> SendBatchSpec(c, s, env) == s
    ensures !SendBlocked(s) ==>
      var r := SendBatchSpec(c, s, env);
      && |r.posted| == |s.posted| + 1 && r.posted[..|s.posted|] == s.posted
      && var batch := r.posted[|s.posted|].events;
      && |batch| == BatchSize(c.cfg.maxEvents, |s.queue|)
      && (env.delivered ==> batch + r.queue == s.queue && r.backoffMs == 0)
      && (!env.delivered ==> batch == s.queue[..|batch|] && r.queue == s.queue && r.retryPending)
  {
    if !SendBlocked(s) {
      var k := BatchSize(c.cfg.maxEvents, |s.queue|);
      assert s.queue[..k] + s.queue[k..] == s.queue;
    }
  }

  /** A failed send with no retry armed advances the backoff one step and waits backoff + jitter. */
  lemma FailedSendBacksOff(c: Setup, s: TrackerState, env: Env)
    requires !SendBlocked(s) && !env.delivered && !s.retryPending
    ensures var r := SendBatchSpec(c, s, env);
            r.backoffMs == NextBackoff(s.backoffMs) && r.retryDelayMs == r.backoffMs + env.jitter
  {
  }

  // ---- the backoff schedule -------------------------------------------------------

  function Pow2(k: nat): nat {
    if k == 0 then 1 else 2 * Pow2(k - 1)
  }

  /** The backoff after `k` consecutive failures from a clean state. */
  function BackoffAfter(k: nat): int {
    if k == 0 then 0 else NextBackoff(BackoffAfter(k - 1))
  }

  /** The k-th consecutive failure waits min(1000 * 2^(k-1), 30000) ms before jitter. */
  lemma {:induction false} BackoffClosedForm(k: nat)
    requires k >= 1
    ensures BackoffAfter(k) == Min(BACKOFF_BASE_MS * Pow2(k - 1), BACKOFF_CAP_MS)
  {
    if k > 1 {
      BackoffClosedForm(k - 1);
      Pow2Positive(k - 2);
      assert Pow2(k - 1) == 2 * Pow2(k - 2);
    }
  }

  lemma Pow2Positive(k: nat)
    ensures Pow2(k) >= 1
  {
  }

  /** A success resets the schedule: the next failure waits the base delay again. */
  lemma BackoffResets(c: Setup, s: TrackerState, env: Env, env2: Env)
    requires !SendBlocked(s) && env.delivered
    requires var r := SendBatchSpec(c, s, env); !SendBlocked(r) && !env2.delivered && !r.retryPending
    ensures SendBatchSpec(c, SendBatchSpec(c, s, env), env2).backoffMs == BACKOFF_BASE_MS
  {
  }

  // ---- the state invariant ----------------------------------------------------------

  predicate BackoffInRange(b: int) { b == 0 || BACKOFF_BASE_MS <= b <= BACKOFF_CAP_MS }

  /**
   * What holds of every reachable state: the backoff is 0 or within [1 s, 30 s]; an
   * armed retry waits the backoff plus a jitter below 300 ms; no points means no
   * base timestamp; the first move point is at offset 0 and none is negative.
   */
  predicate Inv(s: TrackerState) {
    && BackoffInRange(s.backoffMs)
    && (s.retryPending ==> s.backoffMs >= BACKOFF_BASE_MS && 0 <= s.retryDelayMs - s.backoffMs < JITTER_SPAN)
    && (s.movePoints == [] ==> s.moveBaseTs == 0)
    && (s.moveBaseTs == 0 || s.moveBaseTs <= s.lastMoveCapture)
    && (|s.movePoints| > 0 ==> s.movePoints[0].tsOffset == 0.0)
    && (forall i :: 0 <= i < |s.movePoints| ==> s.movePoints[i].tsOffset >= 0.0)
  }

  lemma InvSendBatch(c: Setup, s: TrackerState, env: Env)
    requires Inv(s) && ValidEnv(env)
    ensures var r := SendBatchSpec(c, s, env);
            Inv(r) && r.movePoints == s.movePoints && r.stopped == s.stopped
  {
  }

  /**
   * Enqueueing keeps the invariant and never touches the session, the user or the
   * stop flag; once stopped, nothing is ever posted.
   */
  lemma InvEnqueue(c: Setup, s: TrackerState, e: Event, env: Env)
    requires Inv(s) && ValidEnv(env)
    ensures var r := EnqueueSpec(c, s, e, env);
            && Inv(r) && r.stopped == s.stopped && r.sessionId == s.sessionId
            && (s.movePoints == [] ==> r.movePoints == [])
            && (s.stopped ==> r.posted == s.posted && r.movePoints == s.movePoints)
    decreases MoveFlag(s), 2
  {
    var s1 := s.(queue := Trimmed(s.queue + [e], c.queueBytes, c.cfg.maxQueueBytes));
    if |s1.queue| >= c.cfg.maxEvents {
      InvFlush(c, s1, env);
    }
  }

  /** A flush keeps the invariant and, unless stopped, leaves no move points behind. */
  lemma InvFlush(c: Setup, s: TrackerState, env: Env)
    requires Inv(s) && ValidEnv(env)
    ensures var r := FlushSpec(c, s, env);
            && Inv(r) && r.stopped == s.stopped && r.sessionId == s.sessionId
            && (!s.stopped ==> r.movePoints == [] && r.moveBaseTs == 0)
            && (s.stopped ==> r == s)
    decreases MoveFlag(s), 1
  {
    if !s.stopped {
      InvEnqueueMove(c, s, env);
      InvSendBatch(c, EnqueueMoveSpec(c, s, env), env);
    }
  }

  lemma InvEnqueueMove(c: Setup, s: TrackerState, env: Env)
    requires Inv(s) && ValidEnv(env) && !s.stopped
    ensures var r := EnqueueMoveSpec(c, s, env);
            && Inv(r) && r.stopped == s.stopped && r.sessionId == s.sessionId
            && r.movePoints == [] && r.moveBaseTs == 0
    decreases MoveFlag(s), 0
  {
    if |s.movePoints| > 0 {
      var ts := if s.moveBaseTs != 0 then s.moveBaseTs else env.now;
      InvEnqueue(c, s.(lastSeenAt := ts, movePoints := [], moveBaseTs := 0), MoveEventOf(s, env), env);
    }
  }

  /** One public operation or browser callback of the tracker, with its arguments. */
  datatype Op =
    | OpIdentify(id: string, traits: Option<map<string, Json>>)
    | OpSetAuthToken(jwt: Option<string>)
    | OpTrack(name: string, props: Option<map<string, Json>>)
    | OpFlush
    | OpShutdown
    | OpRetryFired
    | OpNavigate
    | OpClick(clickTarget: Option<Element>, x: int, y: int, button: int)
    | OpMove(mx: int, my: int)
    | OpScroll(windowScrollY: real, docScrollTop: real, docScrollHeight: real)
    | OpInput(inputTarget: Option<Element>, action: InputAction)
    | OpKeyboard(keyTarget: Option<Element>, key: string)

  function Step(c: Setup, s: TrackerState, env: Env, op: Op): TrackerState {
    match op
    case OpIdentify(id, traits) => s.(userId := Some(id), userTraits := traits)
    case OpSetAuthToken(jwt) => s.(authToken := jwt)
    case OpTrack(name, props) => TrackSpec(c, s, env, name, props)
    case OpFlush => FlushSpec(c, s, env)
    case OpShutdown => ShutdownSpec(c, s, env)
    case OpRetryFired => RetryFiredSpec(c, s, env)
    case OpNavigate => NavigationSpec(c, s, env)
    case OpClick(t, x, y, b) => ClickSpec(c, s, env, t, x, y, b)
    case OpMove(x, y) => MoveSampleSpec(c, s, env, x, y)
    case OpScroll(wy, top, height) =>
      ScrollSpec(c, s, env, ComputeScrollDepth(wy, top, height, env.innerHeight as real))
    case OpInput(t, a) => InputSpec(c, s, env, t, a)
    case OpKeyboard(t, k) => KeyboardSpec(c, s, env, t, k)
  }

  /** A sequence of operations, each with the environment of its call. */
  function Run(c: Setup, s: TrackerState, trace: seq<(Op, Env)>): TrackerState
    decreases |trace|
  {
    if |trace| == 0 then s else Run(c, Step(c, s, trace[0].1, trace[0].0), trace[1..])
  }

  /** What one step must keep: the invariant, and silence once stopped. */
  predicate StepKeeps(s: TrackerState, r: TrackerState) {
    Inv(r) && (s.stopped ==> r.stopped && r.posted == s.posted)
  }

  lemma InvStep(c: Setup, s: TrackerState, env: Env, op: Op)
    requires Inv(s) && ValidEnv(env) && c.cfg.capture.moveThrottleMs >= 0
    ensures Inv(Step(c, s, env, op))
    ensures s.stopped ==> Step(c, s, env, op).stopped && Step(c, s, env, op).posted == s.posted
  {
    match op
    case OpIdentify(_, _) =>
    case OpSetAuthToken(_) =>
    case OpTrack(name, props) => InvTrack(c, s, env, name, props);
    case OpFlush => InvFlush(c, s, env);
    case OpShutdown => InvFlush(c, s, env);
    case OpRetryFired => InvRetryFired(c, s, env);
    case OpNavigate => InvNavigate(c, s, env);
    case OpClick(t, x, y, b) => InvClick(c, s, env, t, x, y, b);
    case OpMove(x, y) => InvMoveSample(c, s, env, x, y);
    case OpScroll(wy, top, height) => InvScroll(c, s, env, ComputeScrollDepth(wy, top, height, env.innerHeight as real));
    case OpInput(t, a) => InvInput(c, s, env, t, a);
    case OpKeyboard(t, k) => InvKeyboard(c, s, env, t, k);
  }

  lemma InvTrack(c: Setup, s: TrackerState, env: Env, name: string, props: Option<map<string, Json>>)
    requires Inv(s) && ValidEnv(env)
    ensures StepKeeps(s, TrackSpec(c, s, env, name, props))
  {
    InvEnqueue(c, s.(lastSeenAt := env.now), MakeEvent(s, env, env.eventId, env.now, Custom(name, props)), env);
  }

  lemma InvRetryFired(c: Setup, s: TrackerState, env: Env)
    requires Inv(s) && ValidEnv(env)
    ensures StepKeeps(s, RetryFiredSpec(c, s, env))
  {
    if !s.stopped && s.retryPending {
      InvFlush(c, s.(retryPending := false), env);
    }
  }

  lemma InvNavigate(c: Setup, s: TrackerState, env: Env)
    requires Inv(s) && ValidEnv(env)
    ensures StepKeeps(s, NavigationSpec(c, s, env))
  {
    if c.cfg.capture.pageview && !s.stopped && env.path != s.currentPath {
      var s1 := s.(currentPath := env.path);
      InvEnqueue(c, s1.(lastSeenAt := env.now),
                 MakeEvent(s1, env, env.eventId, env.now, Pageview(Some(s.currentPath), env.path)), env);
    }
  }

  lemma InvClick(c: Setup, s: TrackerState, env: Env, t: Option<Element>, x: int, y: int, b: int)
    requires Inv(s) && ValidEnv(env)
    ensures StepKeeps(s, ClickSpec(c, s, env, t, x, y, b))
  {
    if c.cfg.capture.click && !s.stopped && ShouldCapture(c.closest, c.cfg.privacy, t, None) {
      InvEnqueue(c, s.(lastSeenAt := env.now),
                 MakeEvent(s, env, env.eventId, env.now,
                           Click(x as real, y as real, SdkHelpers.SelectorOf(t), Some(b as real))), env);
    }
  }

  lemma InvScroll(c: Setup, s: TrackerState, env: Env, reading: ScrollReading)
    requires Inv(s) && ValidEnv(env)
    ensures StepKeeps(s, ScrollSpec(c, s, env, reading))
  {
    if c.cfg.capture.scroll && !s.stopped && env.now - s.lastScrollCapture >= SCROLL_THROTTLE_MS {
      InvEnqueue(c, s.(lastScrollCapture := env.now, lastSeenAt := env.now),
                 MakeEvent(s, env, env.eventId, env.now, Scroll(reading.scrollTop, reading.pct)), env);
    }
  }

  lemma InvInput(c: Setup, s: TrackerState, env: Env, t: Option<Element>, a: InputAction)
    requires Inv(s) && ValidEnv(env)
    ensures StepKeeps(s, InputSpec(c, s, env, t, a))
  {
    if InputSpec(c, s, env, t, a) != s {
      InvEnqueue(c, s.(lastSeenAt := env.now),
                 MakeEvent(s, env, env.eventId, env.now, InputBody(c, t.value, a)), env);
    }
  }

  lemma InvKeyboard(c: Setup, s: TrackerState, env: Env, t: Option<Element>, k: string)
    requires Inv(s) && ValidEnv(env)
    ensures StepKeeps(s, KeyboardSpec(c, s, env, t, k))
  {
    if KeyboardSpec(c, s, env, t, k) != s {
      InvEnqueue(c, s.(lastSeenAt := env.now),
                 MakeEvent(s, env, env.eventId, env.now, Keyboard(ClassifyKey(k))), env);
    }
  }

  /** A move sample keeps the invariant as long as the throttle is not negative. */
  lemma InvMoveSample(c: Setup, s: TrackerState, env: Env, x: int, y: int)
    requires Inv(s) && c.cfg.capture.moveThrottleMs >= 0
    ensures Inv(MoveSampleSpec(c, s, env, x, y))
  {
  }

  /** Every state a freshly started tracker reaches keeps the invariant. */
  lemma {:induction false} InvRun(c: Setup, s: TrackerState, trace: seq<(Op, Env)>)
    requires Inv(s) && c.cfg.capture.moveThrottleMs >= 0
    requires forall i :: 0 <= i < |trace| ==> ValidEnv(trace[i].1)
    ensures Inv(Run(c, s, trace))
    ensures s.stopped ==> Run(c, s, trace).stopped && Run(c, s, trace).posted == s.posted
    decreases |trace|
  {
    if |trace| > 0 {
      InvStep(c, s, trace[0].1, trace[0].0);
      InvRun(c, Step(c, s, trace[0].1, trace[0].0), trace[1..]);
    }
  }

  lemma InvStart(c: Setup, stored: Option<StoredSession>, env: Env, freshId: string)
    requires ValidEnv(env)
    ensures Inv(StartSpec(c, stored, env, freshId))
  {
    var s := Fresh(LoadSession(stored, env.now, c.cfg.idleTimeoutMs, freshId), env.path);
    if c.cfg.capture.pageview {
      InvEnqueue(c, s.(lastSeenAt := env.now), MakeEvent(s, env, env.eventId, env.now, Pageview(None, env.path)), env);
    }
  }

  /** After shutdown nothing further is ever sent, whatever is tracked. */
  lemma NothingSentAfterShutdown(c: Setup, s: TrackerState, env: Env, trace: seq<(Op, Env)>)
    requires Inv(s) && ValidEnv(env) && c.cfg.capture.moveThrottleMs >= 0
    requires forall i :: 0 <= i < |trace| ==> ValidEnv(trace[i].1)
    ensures var down := ShutdownSpec(c, s, env);
            down.stopped && Run(c, down, trace).posted == down.posted
  {
    InvFlush(c, s, env);
    InvRun(c, ShutdownSpec(c, s, env), trace);
  }

  // ---- flushing the move buffer -----------------------------------------------------------

  /**
   * A flush realises all accumulated points as one `move` event appended to the
   * queue (here when the enlarged queue fits the byte ceiling and stays below
   * `maxEvents`), then sends.
   */
  lemma FlushRealisesMoves(c: Setup, s: TrackerState, env: Env)
    requires !s.stopped && |s.movePoints| > 0
    requires Fits(c, s.queue + [MoveEventOf(s, env)]) && |s.queue| + 1 < c.cfg.maxEvents
    ensures var ts := if s.moveBaseTs != 0 then s.moveBaseTs else env.now;
            FlushSpec(c, s, env) == SendBatchSpec(c, s.(lastSeenAt := ts, movePoints := [], moveBaseTs := 0,
                                                          queue := s.queue + [MoveEventOf(s, env)]), env)
    ensures MoveEventOf(s, env).body == Move(s.movePoints)
  {
    var ts := if s.moveBaseTs != 0 then s.moveBaseTs else env.now;
    var s1 := s.(lastSeenAt := ts, movePoints := [], moveBaseTs := 0);
    var e := MoveEventOf(s, env);
    FitsUntrimmed(c, s.queue + [e]);
    assert EnqueueSpec(c, s1, e, env) == s1.(queue := s.queue + [e]);
  }

  /** Without move points, a flush is just a send. */
  lemma FlushWithoutMoves(c: Setup, s: TrackerState, env: Env)
    requires !s.stopped && s.movePoints == []
    ensures FlushSpec(c, s, env) == SendBatchSpec(c, s, env)
  {
  }

  /** Reaching `maxEvents` flushes at once: with no points and a queue that fits, the head batch is posted. */
  lemma FullQueueFlushes(c: Setup, s: TrackerState, e: Event, env: Env)
    requires !s.stopped && s.movePoints == [] && Fits(c, s.queue + [e])
    requires |s.queue| + 1 >= c.cfg.maxEvents > 0 && !(s.backoffMs > 0 && s.retryPending)
    ensures var r := EnqueueSpec(c, s, e, env);
            |r.posted| == |s.posted| + 1 && r.posted[|s.posted|].events == (s.queue + [e])[..Min(c.cfg.maxEvents, |s.queue| + 1)]
  {
    var s1 := s.(queue := s.queue + [e]);
    FitsUntrimmed(c, s.queue + [e]);
    assert EnqueueSpec(c, s, e, env) == FlushSpec(c, s1, env);
    assert EnqueueMoveSpec(c, s1, env) == s1;
    assert !SendBlocked(s1);
  }

  /** Below `maxEvents` an event just waits in the queue, behind the older ones. */
  lemma EnqueueBelowThreshold(c: Setup, s: TrackerState, e: Event, env: Env)
    requires Fits(c, s.queue + [e]) && |s.queue| + 1 < c.cfg.maxEvents
    ensures EnqueueSpec(c, s, e, env) == s.(queue := s.queue + [e])
  {
    FitsUntrimmed(c, s.queue + [e]);
  }

  // ---- throttles and gates --------------------------------------------------------------

  /** Move samples closer together than the throttle are dropped; others add one point. */
  lemma MoveThrottle(c: Setup, s: TrackerState, env: Env, x: int, y: int)
    requires c.cfg.capture.moveEnabled && !s.stopped
    ensures env.now - s.lastMoveCapture < c.cfg.capture.moveThrottleMs ==> MoveSampleSpec(c, s, env, x, y) == s
    ensures env.now - s.lastMoveCapture >= c.cfg.capture.moveThrottleMs ==>
      var r := MoveSampleSpec(c, s, env, x, y);
      && r.movePoints[..|s.movePoints|] == s.movePoints
      && |r.movePoints| == |s.movePoints| + 1
      && r.movePoints[|s.movePoints|] == MovePoint(x as real, y as real, (env.now - r.moveBaseTs) as real)
      && (s.moveBaseTs == 0 ==> r.moveBaseTs == env.now)
      && r.queue == s.queue
  {
  }

  /** Scroll events are at least 200 ms apart. */
  lemma ScrollThrottle(c: Setup, s: TrackerState, env: Env, reading: ScrollReading)
    requires env.now - s.lastScrollCapture < SCROLL_THROTTLE_MS
    ensures ScrollSpec(c, s, env, reading) == s
  {
  }

  /** Navigation to the same path records nothing; a real change moves `currentPath`. */
  lemma NavigationOnChange(c: Setup, s: TrackerState, env: Env)
    ensures env.path == s.currentPath ==> NavigationSpec(c, s, env) == s
    ensures var e := MakeEvent(s, env, env.eventId, env.now, Pageview(Some(s.currentPath), env.path));
            c.cfg.capture.pageview && !s.stopped && env.path != s.currentPath && Fits(c, s.queue + [e])
            && |s.queue| + 1 < c.cfg.maxEvents ==>
      var r := NavigationSpec(c, s, env);
      && r.currentPath == env.path
      && r.queue == s.queue + [e]
  {
    FitsUntrimmed(c, s.queue + [MakeEvent(s, env, env.eventId, env.now, Pageview(Some(s.currentPath), env.path))]);
  }

  /** A click on a blocked element, or with no element, is never recorded. */
  lemma BlockedClickIgnored(c: Setup, s: TrackerState, env: Env, target: Option<Element>, x: int, y: int, b: int)
    requires target.None? || MatchesAny(c.closest, target.value, c.cfg.privacy.blockSelectors)
    ensures ClickSpec(c, s, env, target, x, y, b) == s
  {
  }

  /** Sensitive fields (passwords, card numbers, ...) are never recorded by input or keyboard capture. */
  lemma SensitiveFieldsIgnored(c: Setup, s: TrackerState, env: Env, target: Option<Element>,
                               action: InputAction, key: string)
    requires IsSensitiveInput(target)
    ensures InputSpec(c, s, env, target, action) == s
    ensures KeyboardSpec(c, s, env, target, key) == s
  {
  }

  /**
   * An input event carries the value's length in UTF-16 code units, never the value; in masked mode the
   * mask equals the raw value only for a value of at most 16 asterisks.
   */
  lemma InputCarriesNoValue(c: Setup, target: Element, action: InputAction)
    requires !target.kind.PlainElement?
    ensures var b := InputBody(c, target, action);
            var raw := InputValue(target.kind);
            && b.length == Some(Utf16Length(raw) as real)
            && (b.masked.Some? <==> c.cfg.capture.inputsMode == InputsMasked)
            && (b.masked.Some? ==> (b.masked.value == raw <==>
                                    |raw| <= MASK_CAP && forall i :: 0 <= i < |raw| ==> raw[i] == '*'))
  {
    MaskEqualsRawIff(InputValue(target.kind));
  }

  /** The first pageview a starting tracker records. */
  function FirstPageview(c: Setup, stored: Option<StoredSession>, env: Env, freshId: string): Event {
    var s := Fresh(LoadSession(stored, env.now, c.cfg.idleTimeoutMs, freshId), env.path);
    MakeEvent(s, env, env.eventId, env.now, Pageview(None, env.path))
  }

  /** One event into an empty queue below `maxEvents`: it stays unless it alone is over the ceiling. */
  lemma EnqueueIntoEmpty(c: Setup, s: TrackerState, e: Event, env: Env)
    requires s.queue == [] && 1 < c.cfg.maxEvents
    ensures EnqueueSpec(c, s, e, env) == s.(queue := if Fits(c, [e]) then [e] else [])
  {
    assert s.queue + [e] == [e];
    if Fits(c, [e]) {
      EnqueueBelowThreshold(c, s, e, env);
    } else {
      FitsUntrimmed(c, [e]);
      assert |Trimmed([e], c.queueBytes, c.cfg.maxQueueBytes)| == 0;
    }
  }

  /** The starting queue is the first pageview alone, or empty; nothing is posted yet. */
  lemma StartQueue(c: Setup, stored: Option<StoredSession>, env: Env, freshId: string)
    requires 1 < c.cfg.maxEvents
    ensures var r := StartSpec(c, stored, env, freshId);
            && r.queue == (if c.cfg.capture.pageview && Fits(c, [FirstPageview(c, stored, env, freshId)])
                           then [FirstPageview(c, stored, env, freshId)] else [])
            && r.posted == []
            && r.sessionId == LoadSession(stored, env.now, c.cfg.idleTimeoutMs, freshId).id
  {
    var s := Fresh(LoadSession(stored, env.now, c.cfg.idleTimeoutMs, freshId), env.path);
    if c.cfg.capture.pageview {
      var e := FirstPageview(c, stored, env, freshId);
      EnqueueIntoEmpty(c, s.(lastSeenAt := env.now), e, env);
      assert StartSpec(c, stored, env, freshId) == EnqueueSpec(c, s.(lastSeenAt := env.now), e, env);
    }
  }

  /**
   * The tracker starts on the stored session while it is fresh, and records the first
   * pageview, unless that one event alone is over the byte ceiling and is trimmed away.
   */
  lemma StartState(c: Setup, stored: Option<StoredSession>, env: Env, freshId: string)
    requires 1 < c.cfg.maxEvents
    ensures var r := StartSpec(c, stored, env, freshId);
            && (stored.Some? && env.now - stored.value.lastSeenAt <= c.cfg.idleTimeoutMs ==> r.sessionId == stored.value.id)
            && (!(stored.Some? && env.now - stored.value.lastSeenAt <= c.cfg.idleTimeoutMs) ==> r.sessionId == freshId)
            && r.queue == (if c.cfg.capture.pageview && Fits(c, [FirstPageview(c, stored, env, freshId)])
                           then [FirstPageview(c, stored, env, freshId)] else [])
            && (r.queue != [] ==> r.queue[0].body == Pageview(None, env.path))
            && r.posted == []
  {
    StartQueue(c, stored, env, freshId);
  }

}
