/**
 * The pure helpers of the browser SDK: configuration defaults, key classification,
 * scroll depth, viewport buckets, input masking, the privacy rule and the bounded
 * CSS-like selector of an element.
 */
module SdkHelpers {
  import opened Wrappers
  import opened Text
  import opened Events

  // ---- configuration --------------------------------------------------------

  datatype Persist = Tab | Browser
  datatype QueueStorage = Memory | LocalStorage
  datatype InputMode = InputsOff | InputsMetadata | InputsMasked | InputsAllowlist
  datatype KeyboardMode = KeyboardOff | KeyboardMetadata | KeyboardAllowlist

  datatype AppInfo = AppInfo(name: Option<string>, version: Option<string>, env: Option<string>)
  datatype SessionOptions = SessionOptions(idleTimeoutMs: Option<int>, persist: Option<Persist>)
  datatype BatchOptions = BatchOptions(maxEvents: Option<int>, flushIntervalMs: Option<int>,
                                       maxQueueBytes: Option<int>, storage: Option<QueueStorage>)
  datatype PrivacyOptions = PrivacyOptions(respectDoNotTrack: Option<bool>, blockSelectors: Option<seq<string>>,
                                           allowSelectors: Option<seq<string>>, maskTextSelectors: Option<seq<string>>)
  datatype MoveOptions = MoveOptions(enabled: Option<bool>, throttleMs: Option<int>)
  datatype InputsOptions = InputsOptions(enabled: Option<bool>, mode: Option<InputMode>, allowSelectors: Option<seq<string>>)
  datatype KeyboardOptions = KeyboardOptions(enabled: Option<bool>, mode: Option<KeyboardMode>, allowSelectors: Option<seq<string>>)
  datatype CaptureOptions = CaptureOptions(click: Option<bool>, move: Option<MoveOptions>, scroll: Option<bool>,
                                           pageview: Option<bool>, inputs: Option<InputsOptions>,
                                           keyboard: Option<KeyboardOptions>)

  /** What the host page passes to `init`; `None` is an absent key. */
  datatype InitConfig = InitConfig(endpoint: string, projectKey: string, app: Option<AppInfo>,
                                   session: Option<SessionOptions>, batch: Option<BatchOptions>,
                                   sampling: Option<real>, privacy: Option<PrivacyOptions>,
                                   capture: Option<CaptureOptions>)

  datatype PrivacyConfig = PrivacyConfig(respectDoNotTrack: bool, blockSelectors: seq<string>,
                                         allowSelectors: seq<string>, maskTextSelectors: seq<string>)

  datatype CaptureConfig = CaptureConfig(
    click: bool, moveEnabled: bool, moveThrottleMs: int, scroll: bool, pageview: bool,
    inputsEnabled: bool, inputsMode: InputMode, inputsAllow: seq<string>,
    keyboardEnabled: bool, keyboardMode: KeyboardMode, keyboardAllow: seq<string>)

  datatype ResolvedConfig = ResolvedConfig(
    endpoint: string, projectKey: string, app: AppInfo,
    idleTimeoutMs: int, persist: Persist,
    maxEvents: int, flushIntervalMs: int, maxQueueBytes: int, storage: QueueStorage,
    sampling: real, privacy: PrivacyConfig, capture: CaptureConfig)

  const DEFAULT_BLOCK_SELECTORS: seq<string> := [
    "[data-private]",
    "input[type=password]",
    "input[type=hidden]",
    "input[autocomplete=\"one-time-code\"]",
    "input[autocomplete=\"current-password\"]",
    "input[autocomplete=\"cc-number\"]",
    "input[autocomplete=\"cc-csc\"]",
    "input[autocomplete=\"cc-exp\"]"
  ]

  const DEFAULT_IDLE_TIMEOUT_MS := 30 * 60 * 1000
  const DEFAULT_MAX_EVENTS := 50
  const DEFAULT_FLUSH_INTERVAL_MS := 2000
  const DEFAULT_MAX_QUEUE_BYTES := 1000000
  const DEFAULT_MOVE_THROTTLE_MS := 80

  function Pick<T>(o: Option<T>, default: T): T { o.GetOr(default) }

  /**
   * `ensureConfig`: every key the caller gave wins, every absent key takes the
   * built-in default, section by section.
   */
  function EnsureConfig(c: InitConfig): (r: ResolvedConfig)
    ensures r.endpoint == c.endpoint && r.projectKey == c.projectKey
    ensures c.app.Some? ==> r.app == c.app.value
    ensures c.app.None? ==> r.app == AppInfo(None, None, None)
  {
    var app := Pick(c.app, AppInfo(None, None, None));
    var session := Pick(c.session, SessionOptions(None, None));
    var batch := Pick(c.batch, BatchOptions(None, None, None, None));
    var privacy := Pick(c.privacy, PrivacyOptions(None, None, None, None));
    var capture := Pick(c.capture, CaptureOptions(None, None, None, None, None, None));
    var move := Pick(capture.move, MoveOptions(None, None));
    var inputs := Pick(capture.inputs, InputsOptions(None, None, None));
    var keyboard := Pick(capture.keyboard, KeyboardOptions(None, None, None));
    ResolvedConfig(
      c.endpoint, c.projectKey, app,
      Pick(session.idleTimeoutMs, DEFAULT_IDLE_TIMEOUT_MS), Pick(session.persist, Tab),
      Pick(batch.maxEvents, DEFAULT_MAX_EVENTS), Pick(batch.flushIntervalMs, DEFAULT_FLUSH_INTERVAL_MS),
      Pick(batch.maxQueueBytes, DEFAULT_MAX_QUEUE_BYTES), Pick(batch.storage, Memory),
      Pick(c.sampling, 1.0),
      PrivacyConfig(Pick(privacy.respectDoNotTrack, true), Pick(privacy.blockSelectors, DEFAULT_BLOCK_SELECTORS),
                    Pick(privacy.allowSelectors, []), Pick(privacy.maskTextSelectors, [])),
      CaptureConfig(
        Pick(capture.click, true), Pick(move.enabled, true), Pick(move.throttleMs, DEFAULT_MOVE_THROTTLE_MS),
        Pick(capture.scroll, true), Pick(capture.pageview, true),
        Pick(inputs.enabled, false), Pick(inputs.mode, InputsOff), Pick(inputs.allowSelectors, []),
        Pick(keyboard.enabled, false), Pick(keyboard.mode, KeyboardOff), Pick(keyboard.allowSelectors, [])))
  }

  /** `ensureConfig`, session section: a given key wins; an absent key, or an absent section, takes its default. */
  lemma EnsureConfigSession(c: InitConfig)
    ensures var r := EnsureConfig(c);
            && r.idleTimeoutMs == (if c.session.Some? && c.session.value.idleTimeoutMs.Some?
                                       then c.session.value.idleTimeoutMs.value else 30 * 60 * 1000)
            && r.persist == (if c.session.Some? && c.session.value.persist.Some? then c.session.value.persist.value else Tab)
  {
  }

  /** `ensureConfig`, batch section and sampling: 50 events, 2000 ms, 1000000 bytes, memory storage, rate 1 unless given. */
  lemma EnsureConfigBatch(c: InitConfig)
    ensures var r := EnsureConfig(c);
            && r.maxEvents == (if c.batch.Some? && c.batch.value.maxEvents.Some? then c.batch.value.maxEvents.value else 50)
            && r.flushIntervalMs == (if c.batch.Some? && c.batch.value.flushIntervalMs.Some?
                                         then c.batch.value.flushIntervalMs.value else 2000)
            && r.maxQueueBytes == (if c.batch.Some? && c.batch.value.maxQueueBytes.Some?
                                       then c.batch.value.maxQueueBytes.value else 1000000)
            && r.storage == (if c.batch.Some? && c.batch.value.storage.Some? then c.batch.value.storage.value else Memory)
            && r.sampling == (if c.sampling.Some? then c.sampling.value else 1.0)
  {
  }

  /** `ensureConfig`, privacy section: do-not-track honoured, the built-in block list, no allow or mask lists unless given. */
  lemma EnsureConfigPrivacy(c: InitConfig)
    ensures var r := EnsureConfig(c);
            && r.privacy.respectDoNotTrack == (if c.privacy.Some? && c.privacy.value.respectDoNotTrack.Some?
                                                   then c.privacy.value.respectDoNotTrack.value else true)
            && r.privacy.blockSelectors == (if c.privacy.Some? && c.privacy.value.blockSelectors.Some?
                                                then c.privacy.value.blockSelectors.value else DEFAULT_BLOCK_SELECTORS)
            && r.privacy.allowSelectors == (if c.privacy.Some? && c.privacy.value.allowSelectors.Some?
                                                then c.privacy.value.allowSelectors.value else [])
            && r.privacy.maskTextSelectors == (if c.privacy.Some? && c.privacy.value.maskTextSelectors.Some?
                                                   then c.privacy.value.maskTextSelectors.value else [])
  {
  }

  /** `ensureConfig`, capture section: click, move (80 ms), scroll and pageview on; inputs and keyboard off unless given. */
  lemma EnsureConfigCapture(c: InitConfig)
    ensures var r := EnsureConfig(c);
            && r.capture.click == (if c.capture.Some? && c.capture.value.click.Some? then c.capture.value.click.value else true)
            && r.capture.scroll == (if c.capture.Some? && c.capture.value.scroll.Some? then c.capture.value.scroll.value else true)
            && r.capture.pageview == (if c.capture.Some? && c.capture.value.pageview.Some?
                                          then c.capture.value.pageview.value else true)
            && r.capture.moveEnabled == (if c.capture.Some? && c.capture.value.move.Some? && c.capture.value.move.value.enabled.Some?
                                             then c.capture.value.move.value.enabled.value else true)
            && r.capture.moveThrottleMs == (if c.capture.Some? && c.capture.value.move.Some? && c.capture.value.move.value.throttleMs.Some?
                                                then c.capture.value.move.value.throttleMs.value else 80)
            && r.capture.inputsEnabled == (if c.capture.Some? && c.capture.value.inputs.Some? && c.capture.value.inputs.value.enabled.Some?
                                               then c.capture.value.inputs.value.enabled.value else false)
            && r.capture.inputsMode == (if c.capture.Some? && c.capture.value.inputs.Some? && c.capture.value.inputs.value.mode.Some?
                                            then c.capture.value.inputs.value.mode.value else InputsOff)
            && r.capture.inputsAllow == (if c.capture.Some? && c.capture.value.inputs.Some? && c.capture.value.inputs.value.allowSelectors.Some?
                                             then c.capture.value.inputs.value.allowSelectors.value else [])
            && r.capture.keyboardEnabled == (if c.capture.Some? && c.capture.value.keyboard.Some? && c.capture.value.keyboard.value.enabled.Some?
                                                 then c.capture.value.keyboard.value.enabled.value else false)
            && r.capture.keyboardMode == (if c.capture.Some? && c.capture.value.keyboard.Some? && c.capture.value.keyboard.value.mode.Some?
                                              then c.capture.value.keyboard.value.mode.value else KeyboardOff)
            && r.capture.keyboardAllow == (if c.capture.Some? && c.capture.value.keyboard.Some? && c.capture.value.keyboard.value.allowSelectors.Some?
                                               then c.capture.value.keyboard.value.allowSelectors.value else [])
  {
  }

  datatype InitOutcome = MissingCredentials | NoopTracker | LiveTracker(config: ResolvedConfig)

  /**
   * `init`: missing endpoint or project key throws; an honoured do-not-track signal
   * or a sampling draw above the rate gives the no-op tracker; otherwise a live one.
   */
  function Init(c: InitConfig, doNotTrack: bool, draw: real): (r: InitOutcome)
    ensures r.MissingCredentials? <==> c.endpoint == "" || c.projectKey == ""
    ensures r.LiveTracker? <==>
      && c.endpoint != "" && c.projectKey != ""
      && !(EnsureConfig(c).privacy.respectDoNotTrack && doNotTrack)
      && !(EnsureConfig(c).sampling < 1.0 && draw > EnsureConfig(c).sampling)
    ensures r.LiveTracker? ==> r.config == EnsureConfig(c)
  {
    var resolved := EnsureConfig(c);
    if resolved.endpoint == "" || resolved.projectKey == "" then MissingCredentials
    else if resolved.privacy.respectDoNotTrack && doNotTrack then NoopTracker
    else if resolved.sampling < 1.0 && draw > resolved.sampling then NoopTracker
    else LiveTracker(resolved)
  }

  // ---- sessions ---------------------------------------------------------------

  datatype StoredSession = StoredSession(id: string, startedAt: int, lastSeenAt: int)

  /** `loadSession`: reuse the stored session unless it has been idle too long. */
  function LoadSession(stored: Option<StoredSession>, now: int, idleTimeoutMs: int, freshId: string): (s: StoredSession)
    ensures stored.Some? && now - stored.value.lastSeenAt <= idleTimeoutMs ==> s == stored.value
    ensures !(stored.Some? && now - stored.value.lastSeenAt <= idleTimeoutMs) ==> s == StoredSession(freshId, now, now)
  {
    if stored.None? || now - stored.value.lastSeenAt > idleTimeoutMs
    then StoredSession(freshId, now, now)
    else stored.value
  }

  // ---- keyboard ---------------------------------------------------------------

  const EDITING_KEYS: seq<string> := ["Backspace", "Delete", "Enter", "Tab"]
  const NAVIGATION_KEYS: seq<string> := ["ArrowUp", "ArrowDown", "ArrowLeft", "ArrowRight", "PageUp", "PageDown", "Home", "End"]
  const MODIFIER_KEYS: seq<string> := ["Shift", "Control", "Alt", "Meta"]
  const SYSTEM_KEYS: seq<string> := ["Escape", "PrintScreen"]

  /** `classifyKey`: each category holds exactly the keys of its list; the rest are "other". */
  function ClassifyKey(key: string): (c: KeyCategory)
    ensures c == Editing <==> key in EDITING_KEYS
    ensures c == Navigation <==> key in NAVIGATION_KEYS
    ensures c == Modifier <==> key in MODIFIER_KEYS
    ensures c == System <==> key in SYSTEM_KEYS
    ensures c == OtherKey <==> key !in EDITING_KEYS + NAVIGATION_KEYS + MODIFIER_KEYS + SYSTEM_KEYS
  {
    if key in EDITING_KEYS then Editing
    else if key in NAVIGATION_KEYS then Navigation
    else if key in MODIFIER_KEYS then Modifier
    else if key in SYSTEM_KEYS then System
    else OtherKey
  }

  // ---- scroll -----------------------------------------------------------------

  datatype ScrollReading = ScrollReading(scrollTop: real, pct: real)

  /**
   * `computeScrollDepth`: the scroll offset (window first, document second) and the
   * scrolled fraction of the scrollable height as a percentage clamped to [0, 100].
   */
  function ComputeScrollDepth(windowScrollY: real, docScrollTop: real, docScrollHeight: real, innerHeight: real)
    : (r: ScrollReading)
    ensures 0.0 <= r.pct <= 100.0
    ensures r.scrollTop == if windowScrollY != 0.0 then windowScrollY else docScrollTop
    ensures docScrollHeight - innerHeight <= 0.0 ==> r.pct == 0.0
    ensures docScrollHeight - innerHeight > 0.0 && 0.0 <= r.scrollTop <= docScrollHeight - innerHeight
            ==> r.pct == r.scrollTop / (docScrollHeight - innerHeight) * 100.0
  {
    var scrollTop := if windowScrollY != 0.0 then windowScrollY else docScrollTop;
    var scrollHeight := docScrollHeight - innerHeight;
    var pct := if scrollHeight > 0.0 then scrollTop / scrollHeight * 100.0 else 0.0;
    assert scrollHeight > 0.0 && 0.0 <= scrollTop <= scrollHeight ==> 0.0 <= pct <= 100.0 by {
      if scrollHeight > 0.0 && 0.0 <= scrollTop <= scrollHeight {
        RatioPercentInRange(scrollTop, scrollHeight);
      }
    }
    ScrollReading(scrollTop, if pct < 0.0 then 0.0 else if pct > 100.0 then 100.0 else pct)
  }

  lemma RatioPercentInRange(t: real, h: real)
    requires h > 0.0 && 0.0 <= t <= h
    ensures 0.0 <= t / h * 100.0 <= 100.0
  {
    var q := t / h;
    assert q * h == t;
  }

  // ---- viewport bucket --------------------------------------------------------

  /** `Math.round(v / 100) * 100`: the nearest multiple of 100, halves rounding up. */
  function RoundToHundred(v: real): (r: int)
    ensures r % 100 == 0
    ensures v - 50.0 < r as real <= v + 50.0
  {
    var q := Round(v / 100.0);
    assert v / 100.0 - 0.5 < q as real <= v / 100.0 + 0.5;
    q * 100
  }

  /** `viewportBucket`: the "WxH" label of the viewport rounded to 100 px. */
  function ViewportBucket(w: real, h: real): (b: string)
    ensures Split(b, 'x') == [IntToString(RoundToHundred(w)), IntToString(RoundToHundred(h))]
  {
    var sw := IntToString(RoundToHundred(w));
    var sh := IntToString(RoundToHundred(h));
    IntToStringNoX(RoundToHundred(w));
    IntToStringNoX(RoundToHundred(h));
    SplitAt(sw, 'x', sh);
    SplitNone(sh, 'x');
    sw + "x" + sh
  }

  lemma IntToStringNoX(i: int)
    ensures 'x' !in IntToString(i) && ':' !in IntToString(i)
  {
    NatToStringChars(if i < 0 then -i else i);
  }

  // ---- input masking ----------------------------------------------------------

  const MASK_CAP := 16

  /** The masked form of an input of the given length: `*` repeated min(length, 16) times. */
  function MaskFor(length: Option<nat>): (m: string)
    ensures forall i :: 0 <= i < |m| ==> m[i] == '*'
    ensures length.None? || length.value == 0 ==> m == ""
    ensures length.Some? ==> |m| == Min(length.value, MASK_CAP)
  {
    match length
    case None => ""
    case Some(n) => if n == 0 then "" else Repeat('*', Min(n, MASK_CAP))
  }

  /**
   * The mask of a raw value equals the value exactly when the value consists of at
   * most 16 `*` characters: masking does not always change the text.
   */
  lemma MaskEqualsRawIff(raw: string)
    ensures MaskFor(Some(Utf16Length(raw))) == raw <==> |raw| <= MASK_CAP && forall i :: 0 <= i < |raw| ==> raw[i] == '*'
  {
    var m := MaskFor(Some(Utf16Length(raw)));
    Utf16LengthBmp(raw);
    if |raw| <= MASK_CAP && forall i :: 0 <= i < |raw| ==> raw[i] == '*' {
      assert Utf16Length(raw) == |raw|;
      assert |m| == |raw|;
      assert forall i :: 0 <= i < |raw| ==> m[i] == raw[i];
    }
    if m == raw {
      assert forall i :: 0 <= i < |raw| ==> raw[i] == '*';
      assert Utf16Length(raw) == |raw|;
    }
  }

  // ---- elements and the privacy rule --------------------------------------------

  datatype ElementKind = PlainElement | InputElement(inputType: string, value: string) | TextAreaElement(value: string)

  /** The part of a DOM element the SDK reads, with its ancestor chain. */
  datatype Element = Element(tagName: string, id: string, classList: seq<string>,
                             attrs: map<string, string>, kind: ElementKind, parent: Option<Element>)

  /** `matchesAny`: some selector matches the element or an ancestor (`Element.closest`). */
  predicate MatchesAny(closest: (Element, string) -> bool, el: Element, selectors: seq<string>) {
    exists i :: 0 <= i < |selectors| && closest(el, selectors[i])
  }

  /**
   * `shouldCapture`: no target is never captured, a blocked target never, then a
   * non-empty global allow list decides, then a non-empty per-capture allow list.
   */
  function ShouldCapture(closest: (Element, string) -> bool, privacy: PrivacyConfig,
                         el: Option<Element>, allow: Option<seq<string>>): (r: bool)
    ensures el.None? ==> !r
    ensures el.Some? && MatchesAny(closest, el.value, privacy.blockSelectors) ==> !r
    ensures el.Some? && !MatchesAny(closest, el.value, privacy.blockSelectors) ==>
              if |privacy.allowSelectors| > 0 then (r <==> MatchesAny(closest, el.value, privacy.allowSelectors))
              else if allow.Some? && |allow.value| > 0 then (r <==> MatchesAny(closest, el.value, allow.value))
              else r
  {
    match el
    case None => false
    case Some(e) =>
      if MatchesAny(closest, e, privacy.blockSelectors) then false
      else if |privacy.allowSelectors| > 0 then MatchesAny(closest, e, privacy.allowSelectors)
      else if allow.Some? && |allow.value| > 0 then MatchesAny(closest, e, allow.value)
      else true
  }

  /** A blocked element stays uncaptured whatever either allow list says. */
  lemma BlockBeatsAllow(closest: (Element, string) -> bool, privacy: PrivacyConfig, e: Element, s: string,
                        allow: Option<seq<string>>)
    requires s in privacy.blockSelectors && closest(e, s)
    ensures forall extra: seq<string> :: !ShouldCapture(closest, privacy.(allowSelectors := extra), Some(e), allow)
  {
    var i :| 0 <= i < |privacy.blockSelectors| && privacy.blockSelectors[i] == s;
    assert MatchesAny(closest, e, privacy.blockSelectors);
  }

  /** A non-empty global allow list makes the per-capture list irrelevant. */
  lemma GlobalAllowOverrides(closest: (Element, string) -> bool, privacy: PrivacyConfig, e: Element,
                             a1: Option<seq<string>>, a2: Option<seq<string>>)
    requires |privacy.allowSelectors| > 0
    ensures ShouldCapture(closest, privacy, Some(e), a1) == ShouldCapture(closest, privacy, Some(e), a2)
  {
  }

  /** With no block match and no allow list at all, every target is captured. */
  lemma NoListsCaptureAll(closest: (Element, string) -> bool, privacy: PrivacyConfig, e: Element)
    requires privacy.allowSelectors == [] && !MatchesAny(closest, e, privacy.blockSelectors)
    ensures ShouldCapture(closest, privacy, Some(e), None)
    ensures ShouldCapture(closest, privacy, Some(e), Some([]))
  {
  }

  /** Adding a selector to the block list never turns an uncaptured target into a captured one. */
  lemma MoreBlockingCapturesLess(closest: (Element, string) -> bool, privacy: PrivacyConfig, el: Option<Element>,
                                 allow: Option<seq<string>>, s: string)
    ensures ShouldCapture(closest, privacy.(blockSelectors := privacy.blockSelectors + [s]), el, allow)
            ==> ShouldCapture(closest, privacy, el, allow)
  {
    if el.Some? && MatchesAny(closest, el.value, privacy.blockSelectors) {
      var i :| 0 <= i < |privacy.blockSelectors| && closest(el.value, privacy.blockSelectors[i]);
      assert (privacy.blockSelectors + [s])[i] == privacy.blockSelectors[i];
    }
  }

  function Attr(e: Element, name: string): string {
    if name in e.attrs then e.attrs[name] else ""
  }

  /**
   * `isSensitiveInput`: a password input, or an input or text area whose
   * autocomplete, name or id hints at a one-time code, token, secret or card.
   */
  function IsSensitiveInput(el: Option<Element>): (r: bool)
    ensures r ==> el.Some? && !el.value.kind.PlainElement?
    ensures el.Some? && el.value.kind.InputElement? && el.value.kind.inputType == "password" ==> r
  {
    match el
    case None => false
    case Some(e) =>
      if e.kind.PlainElement? then false
      else
        var inputType := if e.kind.InputElement? then e.kind.inputType else "text";
        var hints := LowerAscii(Attr(e, "autocomplete") + " " + Attr(e, "name") + " " + e.id);
        || inputType == "password"
        || Contains(hints, "one-time-code") || Contains(hints, "otp")
        || Contains(hints, "token") || Contains(hints, "secret")
        || Contains(hints, "cc-") || Contains(hints, "card")
  }

  // ---- the element selector ------------------------------------------------------

  const MAX_SELECTOR_PARTS := 4
  const MAX_SELECTOR_LENGTH := 200
  const MAX_CLASSES := 2

  /** The classes a part shows: the first two of the class list. */
  function ShownClasses(e: Element): (cs: seq<string>)
    ensures |cs| <= MAX_CLASSES && |cs| <= |e.classList| && cs == e.classList[..|cs|]
  {
    e.classList[..Min(MAX_CLASSES, |e.classList|)]
  }

  /** One selector part: the lower-case tag, then `#id`, or else up to two `.class`es. */
  function PartOf(e: Element): string {
    var tag := LowerAscii(e.tagName);
    if e.id != "" then tag + "#" + e.id
    else if |e.classList| > 0 then tag + "." + Join(ShownClasses(e), ".")
    else tag
  }

  /**
   * The elements the walk visits: the target, then its ancestors, stopping after
   * the first one with an id, at the root, or after `budget` elements.
   */
  function Chain(e: Element, budget: nat): seq<Element>
    decreases budget
  {
    if budget == 0 then []
    else if e.id != "" then [e]
    else [e] + match e.parent
               case None => []
               case Some(p) => Chain(p, budget - 1)
  }

  /** The visited chain's parts, outermost first (each visit `unshift`s its part). */
  function PartsOf(chain: seq<Element>): (ps: seq<string>)
    ensures |ps| == |chain|
  {
    if chain == [] then [] else [PartOf(chain[|chain| - 1])] + PartsOf(chain[..|chain| - 1])
  }

  /** What `elementSelector` returns for a target. */
  function SelectorOf(el: Option<Element>): Option<string> {
    match el
    case None => None
    case Some(e) => Some(Utf16Prefix(Join(PartsOf(Chain(e, MAX_SELECTOR_PARTS)), " > "), MAX_SELECTOR_LENGTH))
  }

  /**
   * The chain has at most `budget` elements, starts at the target, follows parent
   * links, and only its last element may carry an id.
   */
  lemma {:induction false} ChainShape(e: Element, budget: nat)
    ensures |Chain(e, budget)| <= budget
    ensures budget > 0 ==> |Chain(e, budget)| >= 1 && Chain(e, budget)[0] == e
    ensures forall i :: 0 <= i < |Chain(e, budget)| - 1 ==>
      Chain(e, budget)[i].id == "" && Chain(e, budget)[i].parent == Some(Chain(e, budget)[i + 1])
    decreases budget
  {
    if budget > 0 && e.id == "" && e.parent.Some? {
      ChainShape(e.parent.value, budget - 1);
      var c := Chain(e, budget);
      var rest := Chain(e.parent.value, budget - 1);
      assert c == [e] + rest;
      forall i | 0 <= i < |c| - 1
        ensures c[i].id == "" && c[i].parent == Some(c[i + 1])
      {
        if i > 0 {
          assert c[i] == rest[i - 1] && c[i + 1] == rest[i];
        }
      }
    }
  }

  /**
   * `elementSelector` on a target: at most four parts, never longer than 200
   * UTF-16 code units, the untruncated join whenever that fits, and otherwise
   * the longest prefix of it that fits.
   */
  lemma SelectorBounds(e: Element)
    ensures |PartsOf(Chain(e, MAX_SELECTOR_PARTS))| <= MAX_SELECTOR_PARTS
    ensures Utf16Length(SelectorOf(Some(e)).value) <= MAX_SELECTOR_LENGTH
    ensures var full := Join(PartsOf(Chain(e, MAX_SELECTOR_PARTS)), " > ");
            var sel := SelectorOf(Some(e)).value;
            && sel == full[..|sel|]
            && (Utf16Length(full) <= MAX_SELECTOR_LENGTH ==> sel == full)
            && (|sel| < |full| ==> Utf16Length(full[..|sel| + 1]) > MAX_SELECTOR_LENGTH)
  {
    ChainShape(e, MAX_SELECTOR_PARTS);
  }

  /** The part of the chain still to visit from `current` with `budget` steps left. */
  function Rest(current: Option<Element>, budget: nat): seq<Element> {
    match current
    case None => []
    case Some(c) => Chain(c, budget)
  }

  lemma ChainStep(c: Element, budget: nat)
    requires budget > 0
    ensures Chain(c, budget) == [c] + if c.id != "" then [] else Rest(c.parent, budget - 1)
  {
  }

  lemma PartsOfSnoc(visited: seq<Element>, c: Element)
    ensures PartsOf(visited + [c]) == [PartOf(c)] + PartsOf(visited)
  {
    assert (visited + [c])[..|visited|] == visited;
  }

  /** One step of the walk: the element visited next, and what is left after it. */
  lemma WalkStep(whole: seq<Element>, visited: seq<Element>, c: Element, left: nat)
    requires left > 0 && whole == visited + Chain(c, left)
    ensures whole == (visited + [c]) + if c.id != "" then [] else Rest(c.parent, left - 1)
  {
    ChainStep(c, left);
  }

  /** The loop body's part: the lower-case tag, then `#id`, or else up to two `.class`es. */
  method SelectorPart(c: Element) returns (part: string)
    ensures part == PartOf(c)
  {
    part := LowerAscii(c.tagName);
    if c.id != "" {
      part := part + "#" + c.id;
    } else if |c.classList| > 0 {
      part := part + "." + Join(c.classList[..Min(MAX_CLASSES, |c.classList|)], ".");
    }
  }

  /** `elementSelector`, walking up the ancestors and prepending one part per step. */
  method ElementSelector(el: Option<Element>) returns (r: Option<string>)
    ensures r == SelectorOf(el)
  {
    if el.None? {
      return None;
    }
    var parts: seq<string> := [];
    var current := el;
    ghost var visited: seq<Element> := [];
    ghost var whole := Rest(el, MAX_SELECTOR_PARTS);
    while current.Some? && |parts| < MAX_SELECTOR_PARTS
      invariant |parts| == |visited| <= MAX_SELECTOR_PARTS
      invariant parts == PartsOf(visited)
      invariant whole == visited + Rest(current, MAX_SELECTOR_PARTS - |parts|)
      decreases MAX_SELECTOR_PARTS - |parts|
    {
      var c := current.value;
      WalkStep(whole, visited, c, MAX_SELECTOR_PARTS - |parts|);
      PartsOfSnoc(visited, c);
      var part := SelectorPart(c);
      parts := [part] + parts;
      visited := visited + [c];
      if c.id != "" {
        current := None;
        break;
      }
      current := c.parent;
    }
    assert visited == whole by {
      if current.Some? {
        assert |parts| == MAX_SELECTOR_PARTS;
        assert Chain(current.value, 0) == [];
      }
    }
    var selector := Join(parts, " > ");
    r := Some(if Utf16Length(selector) > MAX_SELECTOR_LENGTH then Utf16Prefix(selector, MAX_SELECTOR_LENGTH) else selector);
  }
}
