# heat-tracker, modelled in Dafny

heat-tracker records what visitors do on a web page and turns it into heatmaps. It has two halves, and this
project models the core of both.

- **The SDK** runs in the browser. `init` resolves a configuration. It then decides, from Do-Not-Track and
  the sampling rate, whether to track at all, and loads or starts a session (a new one after 30 minutes
  idle). The tracker turns pageviews, clicks, throttled mouse moves, throttled scrolls, form inputs and
  key categories into events, subject to the allow/block privacy rules. Sensitive fields (passwords, card
  numbers, ...) are never recorded, and an input carries only a mask of its length. Events are queued,
  trimmed to a byte ceiling and sent in batches. A failed batch goes back to the front of the queue and
  is retried with an exponential backoff of 1 s doubling up to 30 s, plus jitter.
- **The collector** is an HTTP service. Its ingest endpoint checks the project key and the rate limit
  (120 requests per 10 s per project and address). It then authenticates by project key, by RS256 JWT
  against a cached JWKS key set (five-minute cache), or by either. It validates the payload against the
  zod schemas, runs an optional hook, and stores the project, user, session and event rows. Query
  endpoints bin click, move and scroll rows into a resolution × resolution heatmap grid over the
  dominant viewport bucket. They also list sessions with their event counts and return a session's
  events in timestamp order.

## Module layout

| file | what it holds |
|---|---|
| `wrappers.dfy` | `Option` and `Result` |
| `json.dfy` | JSON values (numbers as reals, objects as maps) |
| `text.dfy` | `Math.round`, decimal rendering and `Number()` parsing, splitting, trimming, ASCII lower-casing |
| `events.dfy` | the event datatype the SDK sends and the collector validates |
| `sdk_helpers.dfy` | the SDK's pure helpers: configuration, sampling, sessions, key classes, scroll depth, viewport buckets, masks, privacy rules, sensitive fields, the element selector |
| `tracker.dfy` | the `HeatTracker` class as `TrackerImpl`, with one specification function per method |
| `tracker_props.dfy` | backoff schedule, the tracker's state invariant over any run, throttles and privacy gates |
| `validation.dfy` | the zod schemas of the ingest payload and the three query strings |
| `wire.dfy` | what the SDK sends is accepted by the collector's schema and read back unchanged |
| `jwt.dfy` | base64url normalisation, the JWKS cache class and `verifyJwt` |
| `store.dfy` | the storage steps of ingest (project, user, session, event rows) on an in-memory store class |
| `counts.dfy` | counting tables in JavaScript object insertion order |
| `heatmap.dfy` | `buildHeatmap` and `parseViewportBucket` |
| `queries.dfy` | `parseTime`, `queryEvents`, `listSessions` and `getSessionDetail` |
| `collector.dfy` | the rate limiter class and the ingest handler class |
| `ingest_props.dfy` | the decision order of ingest and what storage does on success and failure |

Everything outside the program's own logic becomes a parameter:

- the clock, generated ids and the retry jitter (`Tracker.Env`, `Collector.IngestEnv`);
- the delivery outcome of a POST, and the byte size of the serialised queue;
- `Element.closest` for CSS selectors, and `Date.parse`;
- the SHA-256 digest, the RSA signature check and the JWKS keys a fetch returns;
- `JSON.parse` of the token segments, and which storage stage fails.

## Model

| member | source | states |
|---|---|---|
| SdkHelpers.EnsureConfig | packages/heat-sdk/src/index.ts:302-335 | endpoint and project key are kept, and the app block given replaces the empty default one |
| SdkHelpers.EnsureConfigSession | packages/heat-sdk/src/index.ts:307 | each session option given wins, else the idle timeout is 30 minutes and the session lives in the tab |
| SdkHelpers.EnsureConfigBatch | packages/heat-sdk/src/index.ts:303-308 | each batch option given wins, else 50 events, a 2-second flush interval, a 1 000 000-byte ceiling, memory storage and a sampling rate of 1 |
| SdkHelpers.EnsureConfigPrivacy | packages/heat-sdk/src/index.ts:309-315 | each privacy option given wins, else Do-Not-Track is honoured, the default block list applies and the allow and mask lists are empty |
| SdkHelpers.EnsureConfigCapture | packages/heat-sdk/src/index.ts:316-332 | each capture option given wins, else clicks, scrolls, pageviews and moves are on with an 80 ms move throttle, and inputs and keyboard are off with empty allow lists |
| SdkHelpers.Init | packages/heat-sdk/src/index.ts:793-811 | an empty endpoint or project key is an error; a live tracker exactly when Do-Not-Track is not honoured and the random draw is not above a sampling rate below 1, and it carries the resolved configuration |
| SdkHelpers.LoadSession | packages/heat-sdk/src/index.ts:717-740 | a stored session is kept while its last activity is within the idle timeout, otherwise a fresh session starts at `now` |
| SdkHelpers.ClassifyKey | packages/heat-sdk/src/index.ts:284-292 | each key falls in exactly the category its list names, and anything else is `other` |
| SdkHelpers.ComputeScrollDepth | packages/heat-sdk/src/index.ts:294-300 | the offset is `scrollY` when non-zero, else the document's scrollTop; the percentage lies in [0, 100], is 0 when nothing can scroll, and is the exact ratio when the offset lies within the scrollable height |
| SdkHelpers.RatioPercentInRange | packages/heat-sdk/src/index.ts:294-300 | the ratio of an offset within a positive height, as a percentage, lies in [0, 100] |
| SdkHelpers.RoundToHundred | packages/heat-sdk/src/index.ts:520-525 | the result is a multiple of 100 in (v − 50, v + 50] |
| SdkHelpers.ViewportBucket | packages/heat-sdk/src/index.ts:520-525 | the bucket splits on `x` into exactly the two sizes rounded to hundreds, in decimal |
| SdkHelpers.IntToStringNoX | packages/heat-sdk/src/index.ts:520-525 | a decimal rendering holds neither `x` nor `:`, so bucket and cell keys split back into their parts |
| SdkHelpers.MaskFor | packages/heat-sdk/src/index.ts:693-696 | the mask is asterisks only, one per character up to 16, and empty when the length is unknown or 0 |
| SdkHelpers.MaskEqualsRawIff | packages/heat-sdk/src/index.ts:693-696 | a raw value equals the mask of its UTF-16 length exactly when it has at most 16 characters, all asterisks |
| SdkHelpers.ShouldCapture | packages/heat-sdk/src/index.ts:527-538 | no element is never captured and a blocked one never; an unblocked one is captured exactly when it matches a non-empty global allow list, else exactly when it matches a non-empty per-capture list, else always |
| SdkHelpers.BlockBeatsAllow | packages/heat-sdk/src/index.ts:527-538 | an element matching a block selector is refused whatever the global and per-capture allow lists say |
| SdkHelpers.GlobalAllowOverrides | packages/heat-sdk/src/index.ts:527-538 | with a non-empty global allow list the per-capture allow list makes no difference |
| SdkHelpers.NoListsCaptureAll | packages/heat-sdk/src/index.ts:527-538 | an unblocked element is captured when there is no global allow list and no per-capture list, or an empty one |
| SdkHelpers.MoreBlockingCapturesLess | packages/heat-sdk/src/index.ts:527-538 | adding a block selector never makes an uncaptured element captured |
| SdkHelpers.IsSensitiveInput | packages/heat-sdk/src/index.ts:252-264 | only inputs and text areas can be sensitive, and every password input is |
| SdkHelpers.ShownClasses | packages/heat-sdk/src/index.ts:230-250 | a part shows at most two classes, the first ones of the class list |
| SdkHelpers.ChainShape | packages/heat-sdk/src/index.ts:230-250 | the walk visits at most four elements, starting at the target, each the parent of the one before, and only the last may carry an id |
| SdkHelpers.SelectorBounds | packages/heat-sdk/src/index.ts:230-250 | a selector has at most four parts and at most 200 UTF-16 units, is a prefix of the full ` > ` join, is the whole join when that fits, and is the longest prefix that fits |
| SdkHelpers.ElementSelector | packages/heat-sdk/src/index.ts:230-250 | the loop computes the selector function: from the target outwards, parts joined by ` > ` and cut to the longest prefix of at most 200 UTF-16 units; no element gives no selector |
| Text.Utf16Length | packages/heat-sdk/src/index.ts:249 | the JavaScript `length` of a string counts two units for a character outside the Basic Multilingual Plane, so it lies between the character count and twice it |
| Text.Utf16LengthBmp | packages/heat-sdk/src/index.ts:249 | the UTF-16 length equals the character count exactly when every character is in the Basic Multilingual Plane |
| Text.Utf16Prefix | packages/heat-sdk/src/index.ts:249 | the cut is a prefix of at most the given UTF-16 length, the whole text when it fits, and no longer prefix fits |
| Tracker.TrimmedSpec | packages/heat-sdk/src/index.ts:423-431 | trimming keeps a suffix of the queue that fits the ceiling or is empty, drops the oldest events first, and does nothing with a zero ceiling |
| Tracker.DropOldestSuffix | packages/heat-sdk/src/index.ts:423-431 | dropping from the front leaves a suffix that fits the ceiling or is empty, and every longer suffix was over it |
| Tracker.FitsUntrimmed | packages/heat-sdk/src/index.ts:423-431 | a queue within the ceiling, or with no ceiling, is left untouched by trimming, and a non-empty queue over it loses at least one event |
| Tracker.BatchSize | packages/heat-sdk/src/index.ts:454-458 | a batch takes `min(maxEvents, queued)` events and none when `maxEvents` is not positive |
| Tracker.TrackerImpl.constructor | packages/heat-sdk/src/index.ts:358-374 | the new tracker is the state a fresh start reaches: the loaded session, then the initial pageview |
| Tracker.TrackerImpl.Identify | packages/heat-sdk/src/index.ts:376-379 | only the user id and traits change |
| Tracker.TrackerImpl.SetAuthToken | packages/heat-sdk/src/index.ts:381-383 | only the token changes |
| Tracker.TrackerImpl.Track | packages/heat-sdk/src/index.ts:385-394 | a custom event is enqueued; a stopped tracker still queues it, but no longer sends |
| Tracker.TrackerImpl.Flush | packages/heat-sdk/src/index.ts:396-400 | the new state is that of the flush specification: nothing once stopped, otherwise the move points become an event and a batch is sent |
| Tracker.TrackerImpl.Shutdown | packages/heat-sdk/src/index.ts:402-412 | a final flush, then the tracker is stopped and its retry timer cleared |
| Tracker.TrackerImpl.RetryTimerFired | packages/heat-sdk/src/index.ts:498-501 | the timer clears itself and flushes |
| Tracker.TrackerImpl.Enqueue | packages/heat-sdk/src/index.ts:414-421 | the event is appended, the queue trimmed, and a flush runs once `maxEvents` events are queued |
| Tracker.TrackerImpl.TrimQueue | packages/heat-sdk/src/index.ts:423-431 | the loop leaves the queue its trimmed suffix and changes nothing else |
| Tracker.TrackerImpl.EnqueueMoveEvent | packages/heat-sdk/src/index.ts:441-452 | all accumulated points become one move event and the points are cleared; no points, no event |
| Tracker.TrackerImpl.SendBatch | packages/heat-sdk/src/index.ts:454-492 | the head batch is posted; on success the backoff resets, on failure the batch returns to the front and a retry is scheduled |
| Tracker.TrackerImpl.PostHead | packages/heat-sdk/src/index.ts:458-469 | the batch is the queue's first `k` events, the queue loses exactly them, and one post is recorded with the session id, start, last-seen time, the user only when the id is non-empty and the token only when non-empty; nothing else changes |
| Tracker.TrackerImpl.ScheduleRetry | packages/heat-sdk/src/index.ts:494-502 | an armed timer is left alone; otherwise the backoff advances and a timer is armed |
| Tracker.TrackerImpl.BaseEvent | packages/heat-sdk/src/index.ts:504-518 | the event carries the session, path, viewport, bucket and time, and `lastSeenAt` is refreshed |
| Tracker.TrackerImpl.HandleNavigation | packages/heat-sdk/src/index.ts:604-610 | a pageview is recorded only when the path changed |
| Tracker.TrackerImpl.RecordPageview | packages/heat-sdk/src/index.ts:612-621 | the current path moves to the new one and a pageview with the referrer path is enqueued |
| Tracker.TrackerImpl.HandleClick | packages/heat-sdk/src/index.ts:623-636 | a click on a captured element is enqueued with its position, button and selector |
| Tracker.TrackerImpl.HandleMove | packages/heat-sdk/src/index.ts:638-645 | a sample is kept only after the throttle interval, as a point whose offset is measured from the first sample since the last move event |
| Tracker.TrackerImpl.HandleScroll | packages/heat-sdk/src/index.ts:647-660 | at most one scroll event per 200 ms, carrying the clamped depth |
| Tracker.TrackerImpl.CaptureInputEvent | packages/heat-sdk/src/index.ts:674-700 | only captured, non-sensitive form fields produce an input event, and it carries a mask or a length but never the value |
| Tracker.TrackerImpl.InputEventBody | packages/heat-sdk/src/index.ts:683-696 | the `input` body carries the action, the selector, `textarea` or the input's type, and the value's UTF-16 length; in masked mode a mask of that length (capped at 16), otherwise no mask; never the value itself |
| Tracker.TrackerImpl.HandleKeyboard | packages/heat-sdk/src/index.ts:702-715 | only the key's category is recorded, for captured non-sensitive targets |
| TrackerProps.SendBatchConserves | packages/heat-sdk/src/index.ts:454-492 | a send loses no event: what is posted plus what remains is the old queue, in order; a failure posts the queue's head batch and restores the queue exactly |
| TrackerProps.FailedSendBacksOff | packages/heat-sdk/src/index.ts:483-502 | a failed send with no retry armed advances the backoff one step and arms a timer for backoff plus jitter |
| TrackerProps.BackoffClosedForm | packages/heat-sdk/src/index.ts:494-502 | the k-th consecutive failure waits min(1000 · 2^(k−1), 30000) ms before jitter |
| TrackerProps.BackoffResets | packages/heat-sdk/src/index.ts:476-480 | after a success the next failure waits the base second again |
| TrackerProps.InvRun | packages/heat-sdk/src/index.ts:358-715 | every state reached by any sequence of tracker operations keeps the invariant (backoff 0 or within [1 s, 30 s], an armed retry waits the backoff plus a jitter below 300 ms, move offsets start at 0 and are never negative), and a stopped tracker never posts again |
| TrackerProps.InvStep | packages/heat-sdk/src/index.ts:385-715 | each single operation keeps the invariant |
| TrackerProps.InvFlush | packages/heat-sdk/src/index.ts:396-400 | a flush keeps the invariant and, unless stopped, leaves no move points behind |
| TrackerProps.InvStart | packages/heat-sdk/src/index.ts:358-374 | a freshly constructed tracker satisfies the invariant |
| TrackerProps.NothingSentAfterShutdown | packages/heat-sdk/src/index.ts:402-412 | after shutdown no operation ever posts anything again |
| TrackerProps.FlushRealisesMoves | packages/heat-sdk/src/index.ts:396-400 | with points accumulated, a flush first enqueues their move event stamped at the first sample, then sends; the move event carries exactly the points (when it fits and stays below `maxEvents`) |
| TrackerProps.FlushWithoutMoves | packages/heat-sdk/src/index.ts:396-400 | with no points accumulated a running tracker's flush is exactly a send |
| TrackerProps.FullQueueFlushes | packages/heat-sdk/src/index.ts:414-421 | the event that brings a fitting queue to `maxEvents` makes the first `maxEvents` events be posted at once as one batch |
| TrackerProps.EnqueueBelowThreshold | packages/heat-sdk/src/index.ts:414-421 | below `maxEvents`, an event whose queue fits the byte ceiling waits at the back of the queue and nothing else changes |
| TrackerProps.EnqueueIntoEmpty | packages/heat-sdk/src/index.ts:414-431 | an event into an empty queue stays there alone, unless it alone is over the byte ceiling and is trimmed away |
| TrackerProps.MoveThrottle | packages/heat-sdk/src/index.ts:638-645 | samples closer than the throttle are dropped; later ones add exactly one point |
| TrackerProps.ScrollThrottle | packages/heat-sdk/src/index.ts:647-660 | a scroll within 200 ms of the last recorded one records nothing |
| TrackerProps.NavigationOnChange | packages/heat-sdk/src/index.ts:604-610 | navigating to the same path records nothing; a change of path, with pageviews captured, moves the current path and queues one pageview from the old path to the new one |
| TrackerProps.BlockedClickIgnored | packages/heat-sdk/src/index.ts:623-636 | a click on a blocked or missing element leaves the state unchanged |
| TrackerProps.SensitiveFieldsIgnored | packages/heat-sdk/src/index.ts:674-715 | sensitive fields are never recorded by input or keyboard capture |
| TrackerProps.InputCarriesNoValue | packages/heat-sdk/src/index.ts:674-700 | an input event carries the value's length and never the value; the mask is present exactly in masked mode, and equals the value only for at most 16 asterisks |
| TrackerProps.StartState | packages/heat-sdk/src/index.ts:358-374 | the tracker resumes a stored session active within the idle timeout, or starts the fresh one; its queue is exactly the first pageview (no referrer, the current path) when pageviews are captured and it fits, and nothing was posted (for `maxEvents` above 1) |
| TrackerProps.StartQueue | packages/heat-sdk/src/index.ts:358-374 | a fresh start has the loaded session's id, has posted nothing, and queues the first pageview exactly when captured and within the ceiling |
| Validation.ParseViewport | packages/heat-collector/src/validation.ts:3-7 | a viewport parses exactly from an object with numeric `w` and `h` and an absent or numeric `dpr`, and holds those values |
| Validation.ParseDevice | packages/heat-collector/src/validation.ts:9-13 | a device parses exactly when `ua`, `platform` and `language` are absent or strings |
| Validation.ParsePoints | packages/heat-collector/src/validation.ts:43-53 | a point list parses exactly when every element does, keeping its length |
| Validation.ParseBody | packages/heat-collector/src/validation.ts:25-74 | an unknown `type` is refused; for each of the seven variants the body parses exactly when that variant's fields have their schema types, and its fields are the ones given |
| Validation.ParseEvent | packages/heat-collector/src/validation.ts:15-84 | an event is accepted exactly when it is an object with a string `type`, the base fields have their schema types and the body of that type parses; its body, viewport, device and meta are those parsed from the element |
| Validation.ParseEvents | packages/heat-collector/src/validation.ts:76-84 | a list is accepted exactly when every element is, and then holds each element's parse in order |
| Validation.ParseSdk | packages/heat-collector/src/validation.ts:87-92 | an absent `sdk` block gives none; a present one is accepted exactly when it is an object whose `name` and `version` are absent or strings, and holds those values |
| Validation.ParseApp | packages/heat-collector/src/validation.ts:93-99 | an absent `app` block gives none; a present one is accepted exactly when it is an object whose `name`, `version` and `env` are absent or strings, and holds those values |
| Validation.ParseSession | packages/heat-collector/src/validation.ts:100-104 | the session block is accepted exactly when it is an object with a string id and absent or numeric `startedAt` and `lastSeenAt`, and holds those values |
| Validation.ParseUser | packages/heat-collector/src/validation.ts:105-110 | an absent user block gives none; a present one is accepted exactly when it is an object with a string id and an absent or object-valued `traits`, and holds those values |
| Validation.ParsePayload | packages/heat-collector/src/validation.ts:86-112 | a payload is accepted exactly when it is an object whose sdk, app, session and user blocks parse and whose `events` is an array of at least one element that all parse; its blocks are the parsed ones and its events are parsed from the matching elements |
| Validation.EmptyPayloadRejected | packages/heat-collector/src/collector.test.ts:80-88 | an empty body, or one with no events, is rejected |
| Validation.CoercedInt | packages/heat-collector/src/validation.ts:114-136 | an absent parameter takes its default; a present one must be a number with no fractional part |
| Validation.ParseHeatmapQuery | packages/heat-collector/src/validation.ts:114-121 | a query is accepted exactly when a given type is click, move or scroll and the resolution coerces to an integer (128 by default); path, range, type and bucket are the given strings |
| Validation.ParseSessionsQuery | packages/heat-collector/src/validation.ts:123-130 | a query is accepted exactly when the limit coerces to an integer in [1, 200] (default 50) and the offset to one of at least 0 (default 0); range, user and path are the given strings |
| Validation.ParseSessionEventsQuery | packages/heat-collector/src/validation.ts:132-136 | a query is accepted exactly when the limit coerces to an integer in [1, 500] (default 200) and the offset to one of at least 0 (default 0); the type is the given string |
| Validation.QueryDefaults | packages/heat-collector/src/validation.ts:114-136 | empty query strings give exactly the documented defaults |
| Validation.ResolutionUnbounded | packages/heat-collector/src/validation.ts:114-121 | any decimal integer is an accepted resolution, zero and negative ones included |
| Validation.SessionsLimitRange | packages/heat-collector/src/validation.ts:123-130 | an explicit limit is accepted exactly when it lies in [1, 200] |
| Validation.SessionEventsLimitRange | packages/heat-collector/src/validation.ts:132-136 | an explicit limit is accepted exactly when it lies in [1, 500] |
| Wire.EventRoundTrip | packages/heat-collector/src/validation.ts:15-84 | every well-formed event the SDK serialises is accepted by the collector's schema and read back unchanged |
| Wire.EventsRoundTrip | packages/heat-collector/src/validation.ts:76-84 | a list of serialised events is read back unchanged |
| Wire.PayloadRoundTrip | packages/heat-collector/src/validation.ts:86-112 | a serialised batch with at least one event is accepted and read back as the same payload |
| Wire.NoEventsRejected | packages/heat-collector/src/validation.ts:86-112 | a serialised batch with no events is rejected |
| Wire.UnknownKeysStripped | packages/heat-collector/src/validation.ts:15-84 | extra keys outside the schema do not change what is read |
| Wire.PointsRoundTrip | packages/heat-collector/src/validation.ts:43-53 | serialised move points are read back unchanged |
| Wire.BodyRoundTrip | packages/heat-collector/src/validation.ts:25-74 | each body variant is read back unchanged from its own fields |
| Jwt.Base64UrlNormalize | packages/heat-collector/src/jwt.ts:36-40 | the result pads to a multiple of four with `=` and maps `-` and `_` to `+` and `/`, character by character |
| Jwt.NormalizeRoundTrip | packages/heat-collector/src/jwt.ts:36-40 | normalising URL-safe text loses nothing: stripping the padding and mapping back returns it |
| Jwt.NormalizedAlphabet | packages/heat-collector/src/jwt.ts:36-40 | normalised text holds no `-` or `_`, and `=` only as trailing padding |
| Jwt.PutSpec | packages/heat-collector/src/jwt.ts:60-64 | after setting a kid the lookup finds the new key, and every other kid still finds its old one |
| Jwt.IndexKeysSpec | packages/heat-collector/src/jwt.ts:60-64 | the refreshed table finds a kid other than `__proto__` exactly when a fetched key has it, answers with a key of that kid, and never holds an empty kid or `__proto__` as an own key |
| Jwt.Pick | packages/heat-collector/src/jwt.ts:50-52 | a kid that is an own key gives its key; otherwise a kid naming an `Object.prototype` member gives that inherited member; no kid, or any other one, gives the first key of the table |
| Jwt.CacheHitServes | packages/heat-collector/src/jwt.ts:50-52 | a fresh cache entry is served without a refresh: a known kid gives its key, one naming an inherited member gives that member, and any other falls back to the first key |
| Jwt.RefreshThenHit | packages/heat-collector/src/jwt.ts:47-67 | a stale entry is replaced by the fetched table stamped with the current time, which is then served for five minutes |
| Jwt.JwksCache.GetJwk | packages/heat-collector/src/jwt.ts:47-67 | the answer and the new cache are those of the `getJwk` specification |
| Jwt.JwksCache.VerifyJwt | packages/heat-collector/src/jwt.ts:69-115 | the verdict and the new cache are those of the `verifyJwt` specification |
| Jwt.CheckClaims | packages/heat-collector/src/jwt.ts:95-112 | the claims pass exactly when the payload is not null, not expired, already active, and issuer and audience match; each error implies the checks before it passed (order exp, nbf, iss, aud) |
| Jwt.CompactForm | packages/heat-collector/src/jwt.ts:70-73 | a token `h.p.s` whose three segments are non-empty and dot-free splits back into them |
| Jwt.MalformedTokenRefused | packages/heat-collector/src/jwt.ts:70-73 | a token is refused as malformed, with the key cache untouched, exactly when one of its first three dot-separated segments is missing or empty, as it is for any token with no dot |
| Jwt.SplitThree | packages/heat-collector/src/jwt.ts:70 | three dot-free segments joined by dots split back into exactly those three |
| Jwt.SegmentsMalformed | packages/heat-collector/src/jwt.ts:70-73 | a token made of three dot-free segments is malformed exactly when one of them is empty |
| Jwt.WellFormedNotInvalid | packages/heat-collector/src/jwt.ts:70-73 | a token with three non-empty segments is never refused for its format |
| Jwt.InheritedKidRefused | packages/heat-collector/src/jwt.ts:82-89 | a well-formed RS256 token whose kid names an inherited `Object.prototype` member that the served table does not hold is refused as having no usable key |
| Jwt.ProtoKidNeverOwn | packages/heat-collector/src/jwt.ts:62-65 | a refreshed table never holds `__proto__` as an own key, so that kid reads the inherited prototype |
| Jwt.BadSignatureRefused | packages/heat-collector/src/jwt.ts:87-93 | a well-formed RS256 token whose key is found but whose signature over `header.payload` fails is refused as having an invalid signature |
| Jwt.ArrayToNumber | packages/heat-collector/src/jwt.ts:96-99 | an `exp` or `nbf` array converts as JavaScript would: empty or `[null]` is 0, one non-boolean element converts as that element, a boolean one or more than one element is not a number |
| Jwt.OnlyRs256 | packages/heat-collector/src/jwt.ts:78-80 | an accepted token's header names the RS256 algorithm |
| Jwt.OtherAlgRefused | packages/heat-collector/src/jwt.ts:75-80 | a well-formed token whose segments decode but whose header names another algorithm is refused as unsupported, with the key cache untouched |
| Jwt.AcceptedTokenChecks | packages/heat-collector/src/jwt.ts:82-112 | an accepted token has three non-empty segments, an RS256 header, a found key whose signature check passed over `header.payload` and the decoded signature, its payload is the decoded middle segment, and it is not expired, already active, and matches the issuer and audience |
| Jwt.TimeClaims | packages/heat-collector/src/jwt.ts:95-101 | `exp` and `nbf` of 0 count as absent, a non-zero numeric `exp` is rejected exactly when it is in the past and an `nbf` exactly when it is in the future, and an empty-array `exp` counts as 0 and so is in the past |
| Jwt.AudienceForms | packages/heat-collector/src/jwt.ts:103-112 | the audience may be the configured string or an array containing it |
| Store.EnsureProjectSpec | packages/heat-collector/src/collector.ts:230-250 | an existing project is found by key; a new key creates one project named "Default" |
| Store.EnsureUserSpec | packages/heat-collector/src/collector.ts:252-284 | no user for an empty external id; an existing user is found, and a new one created with the traits |
| Store.ValidEnsureProject | packages/heat-collector/src/collector.ts:230-250 | get-or-create of a project keeps the store consistent: keys index their rows and sessions are listed once each |
| Store.ValidEnsureUser | packages/heat-collector/src/collector.ts:252-284 | get-or-create of a user keeps the store consistent |
| Store.HashIp | packages/heat-collector/src/collector.ts:315-319 | an empty address has no hash; any other hashes to the first 32 hex digits of its SHA-256 digest |
| Collector.SessionInfo | packages/heat-collector/src/collector.ts:300-302 | the session is told the request's user agent, and an ip hash exactly when `req.ip` is present and non-empty |
| Store.UpsertSessionSpec | packages/heat-collector/src/collector.ts:286-313 | a new session is inserted with its first path and request details and listed last; an existing one has `lastSeenAt` updated, and its `userId` set when a user is resolved, else kept |
| Store.ValidUpsert | packages/heat-collector/src/collector.ts:286-313 | a session upsert keeps the store consistent, a new session going once at the end of the listing order |
| Store.SanitizeMeta | packages/heat-collector/src/collector.ts:75-82 | the stored meta is the given one without `value`, `text` and `content` |
| Store.PointRowsContent | packages/heat-collector/src/collector.ts:321-381 | a move becomes one row per point, at the event time plus the point's offset and the point's rounded position |
| Store.RowsOfSpec | packages/heat-collector/src/collector.ts:321-381 | an input with a non-asterisk mask makes no row; a move makes a row per point; any other event exactly one row |
| Store.AllRowsCount | packages/heat-collector/src/collector.ts:321-381 | the rows of a batch are the rows of its events in order, as many as their total |
| Store.SdkMaskKept | packages/heat-collector/src/collector.ts:325-327 | a mask the SDK produces is never discarded |
| Store.AllStars | packages/heat-collector/src/collector.ts:325-327 | the scan is true exactly when every character is `*` |
| Store.MemoryStore.EnsureProject | packages/heat-collector/src/collector.ts:230-250 | the id returned and the new store are those of the project specification |
| Store.MemoryStore.EnsureUser | packages/heat-collector/src/collector.ts:252-284 | the id returned and the new store are those of the user specification |
| Store.MemoryStore.UpsertSession | packages/heat-collector/src/collector.ts:286-313 | the new store is that of the session specification |
| Store.MemoryStore.InsertEvents | packages/heat-collector/src/collector.ts:321-381 | the loop appends exactly all rows of the batch to the event table and touches nothing else; a batch with no rows makes no insert, so it succeeds even when the insert would fail, and otherwise a failing insert appends nothing |
| Store.EventRows | packages/heat-collector/src/collector.ts:325-378 | one event's rows are exactly the rows the row specification gives: none for an input whose mask is not all stars, one per point for a move, else one row |
| Store.MoveRows | packages/heat-collector/src/collector.ts:347-355 | the loop over a move's points yields exactly one row per point, in order, at `ts + tsOffset` with rounded coordinates |
| Store.EnsureIdempotent | packages/heat-collector/src/collector.ts:230-284 | a second identical get-or-create finds what the first created and changes nothing |
| Store.UpsertIdempotent | packages/heat-collector/src/collector.ts:286-313 | repeating an upsert with the same payload and time changes nothing more |
| Store.LastSeenSetUnconditionally | packages/heat-collector/src/collector.ts:304-311 | an update sets `lastSeenAt` to the payload's value even when that is earlier, and keeps the user when none is resolved |
| Counts.BumpCounts | packages/heat-collector/src/collector.ts:403-413 | bumping a key adds one to its count and leaves every other count alone |
| Counts.BumpShape | packages/heat-collector/src/collector.ts:403-413 | a known key keeps its place; a new key goes last with count 1 |
| Counts.FirstMax | packages/heat-collector/src/collector.ts:415-416 | the chosen entry has the largest count, and no earlier entry has as large a one |
| Heatmap.ParseViewportBucket | packages/heat-collector/src/collector.ts:68-73 | no bucket or an empty one gives no viewport, and a viewport it gives has no zero side |
| Heatmap.ParseViewportBucketSpec | packages/heat-collector/src/collector.ts:68-73 | a bucket gives a viewport exactly when it holds an `x` and the texts before it and up to the next `x` are non-zero numbers, and the viewport is those two numbers |
| Heatmap.ParseFormatsBack | packages/heat-collector/src/collector.ts:68-73 | the bucket the SDK formats parses back to its two rounded sizes |
| Heatmap.ParseRejectsZero | packages/heat-collector/src/collector.ts:68-73 | a zero side, or text without `x`, gives no viewport |
| Heatmap.DominantBucket | packages/heat-collector/src/collector.ts:403-416 | an explicit bucket wins; otherwise no labelled row gives no bucket, and a chosen bucket is a non-empty label of some row with the largest count, seen before every other label with as large a count |
| Heatmap.CountBucketsSpec | packages/heat-collector/src/collector.ts:403-413 | the count of each non-empty label is the number of rows carrying it, and the table holds exactly the labels that occur |
| Heatmap.CountBucketsOrder | packages/heat-collector/src/collector.ts:403-413 | every label in the table occurs in the rows, and the table lists its labels in the order they are first seen |
| Heatmap.OrderStep | packages/heat-collector/src/collector.ts:405-408 | one more row keeps a first-seen-ordered table ordered: a known label keeps its place and a new one goes last |
| Heatmap.FirstSeenCount | packages/heat-collector/src/collector.ts:403-413 | a label is seen in the rows exactly when its count is positive |
| Heatmap.FirstSeenSnoc | packages/heat-collector/src/collector.ts:403-413 | a new row keeps the first position of a label already seen, and is the first position of a label it introduces |
| Heatmap.ChosenViewport | packages/heat-collector/src/collector.ts:415-416 | the viewport used never has a zero side |
| Heatmap.GridOf | packages/heat-collector/src/collector.ts:418-419 | n cells of the computed width exactly span the viewport |
| Heatmap.CellIndex | packages/heat-collector/src/collector.ts:431-432 | a cell index always lies in [0, n) |
| Heatmap.EdgesClamp | packages/heat-collector/src/collector.ts:431-432 | coordinates left of or above the viewport go to the first cell, and those past the far edge to the last |
| Heatmap.CellKeyRoundTrip | packages/heat-collector/src/collector.ts:433-438 | a cell key `bx:by` splits back into its two indices |
| Heatmap.BinRowsSpec | packages/heat-collector/src/collector.ts:421-434 | the bins have distinct keys and positive counts, every key is a cell of the grid, and the counts add up to the rows with coordinates |
| Heatmap.BinRowsCounts | packages/heat-collector/src/collector.ts:421-434 | each cell key's bin count is the number of rows with coordinates that fall in that cell, and the key is present exactly when that number is positive |
| Heatmap.EntryIsCell | packages/heat-collector/src/collector.ts:421-434 | each bin is some grid cell's key with that cell's row count |
| Heatmap.CellHasEntry | packages/heat-collector/src/collector.ts:421-434 | each cell with a row in it has a bin carrying its count |
| Heatmap.PointOfCell | packages/heat-collector/src/collector.ts:436-443 | a bin becomes a point at the centre of its cell, with the bin's count as value |
| Heatmap.BinnedPoints | packages/heat-collector/src/collector.ts:421-443 | each point sits at a cell centre and carries that cell's row count, and every cell with a row has such a point |
| Heatmap.Points | packages/heat-collector/src/collector.ts:436-443 | one point per bin, carrying the bin's count |
| Heatmap.HeatmapShape | packages/heat-collector/src/collector.ts:398-454 | `total` counts all rows and `resolution` is the one asked; there is one point per bin, the point values add up to the rows with coordinates; each point is positive and sits at the centre of a grid cell |
| Heatmap.HeatmapPoints | packages/heat-collector/src/collector.ts:398-454 | the points are those of the bins over the chosen viewport's grid |
| Heatmap.HeatmapCells | packages/heat-collector/src/collector.ts:398-454 | each point sits at the centre of a cell of the chosen grid with that cell's row count as value, and every cell with a row in it has a point |
| Heatmap.OneClickOnePoint | packages/heat-collector/src/collector.ts:421-443 | a single click gives a single point of value 1 |
| Heatmap.BuildHeatmap | packages/heat-collector/src/collector.ts:398-454 | the two loops compute exactly the heatmap specification |
| Heatmap.TallyBuckets | packages/heat-collector/src/collector.ts:403-413 | the first loop counts each non-empty `viewportBucket` exactly as the counting-table specification, in first-seen order |
| Heatmap.BinCells | packages/heat-collector/src/collector.ts:421-435 | the second loop bins every row with numeric coordinates (scroll rows at x 0) into the clamped cell of the grid, as the binning specification |
| Queries.ParseTime | packages/heat-collector/src/collector.ts:55-61 | no value or an empty one gives no time |
| Queries.ParseTimeNumeric | packages/heat-collector/src/collector.ts:57-58 | an integer written in decimal is read as that number, without consulting the date parser |
| Queries.QueryEvents | packages/heat-collector/src/collector.ts:383-396 | a row is returned exactly when it is in the project, of the type, on the path when given, and in the time range |
| Queries.HeatmapEndpoint | packages/heat-collector/src/collector.ts:168-187 | the route answers for every resolution of at least 1 |
| Queries.HeatmapDefaults | packages/heat-collector/src/collector.ts:175-177 | the heatmap type defaults to click and the range to [0, now] |
| Queries.Candidates | packages/heat-collector/src/collector.ts:464-467 | a session is a candidate exactly when it is in the project, of the user when given, and within non-zero bounds |
| Queries.ZeroBoundsIgnored | packages/heat-collector/src/collector.ts:464-467 | a `from` or `to` of 0 filters nothing |
| Queries.Page | packages/heat-collector/src/collector.ts:484-485 | a page is the slice at the offset (clamped to [0, length]), of length `min(limit, rows remaining)` with a negative limit counting as 0 |
| Queries.WithFirstPath | packages/heat-collector/src/collector.ts:487-489 | a row is kept exactly when its first path is the one asked for |
| Queries.ListSessionsSpec | packages/heat-collector/src/collector.ts:456-492 | at most `limit` sessions; each listed one comes from the page of candidates with its own first path and event count; with a path, every listed session has it; without one, the listing is exactly the page, in order, each session with its user, times, first path and event count |
| Queries.PathFilterAfterPaging | packages/heat-collector/src/collector.ts:484-489 | a session is listed exactly when it is on the unfiltered page and has the path, so a page can come back shorter than the sessions that match |
| Queries.CandidatesOnlyByFilter | packages/heat-collector/src/collector.ts:464-467 | two filters that admit the same sessions give the same candidates in the same order |
| Queries.SessionEvents | packages/heat-collector/src/collector.ts:508-510 | an event is selected exactly when it is of the session, and of the type when given |
| Queries.SortByTsSpec | packages/heat-collector/src/collector.ts:512-518 | ordering by time gives a sorted permutation of the events |
| Queries.SortByTsSorted | packages/heat-collector/src/collector.ts:512-518 | the insertion sort by `ts` yields rows in non-decreasing time order |
| Queries.SortByTsPermutes | packages/heat-collector/src/collector.ts:512-518 | the insertion sort by `ts` keeps exactly the input rows, each as often as it occurs |
| Queries.GetSessionDetail | packages/heat-collector/src/collector.ts:494-519 | an unknown session gives no session and no events |
| Queries.SessionDetailSpec | packages/heat-collector/src/collector.ts:494-519 | a known session comes back with at most `limit` of its events, of the type asked, in time order, the sorted events being a permutation of the selected ones |
| Queries.SessionDetailWindow | packages/heat-collector/src/collector.ts:506-519 | the events returned are exactly the window of the time-sorted selection that starts at the clamped offset and is `min(limit, remaining)` long |
| Collector.RateStep | packages/heat-collector/src/collector.ts:41-53 | a missing or expired bucket restarts at 1 and admits; otherwise the count goes up by one and the request is limited once it exceeds the maximum |
| Collector.OneWindow | packages/heat-collector/src/collector.ts:41-53 | within one window from a fresh key, the k-th request is limited exactly when k + 1 exceeds the maximum, and the bucket counts all of them |
| Collector.MaxOneAdmitsThenLimits | packages/heat-collector/src/collector.test.ts:90-113 | with a maximum of one, the first request is admitted and the second limited |
| Collector.WindowExpires | packages/heat-collector/src/collector.ts:44-47 | a request after the window ends is admitted with a fresh bucket |
| Collector.RateLimiter.Check | packages/heat-collector/src/collector.ts:41-53 | only the key's bucket changes, as the rate step says, and the verdict is the step's |
| Collector.ClientAddress | packages/heat-collector/src/collector.ts:118-119 | the rate key uses the request address, else the socket address, else "unknown"; it is never empty |
| Collector.StripBearer | packages/heat-collector/src/collector.ts:122-128 | a leading `Bearer ` in any case is removed, and any other header is kept whole |
| Collector.Authenticate | packages/heat-collector/src/collector.ts:122-138 | project-key mode passes; JWT mode needs a verified token; either mode verifies a token when present; any verification failure is refused |
| Collector.CollectorImpl.Ingest | packages/heat-collector/src/collector.ts:107-166 | the response and the new limiter, cache and store are those of the ingest specification, whose storage stage fails only at a database call the source makes |
| Collector.CollectorImpl.CheckAuth | packages/heat-collector/src/collector.ts:122-138 | the verdict and the new key cache are those of authentication |
| Collector.CollectorImpl.Persist | packages/heat-collector/src/collector.ts:151-165 | the success flag and the new store are those of the storage steps: no user lookup for an empty external id, and no insert for a batch without rows |
| IngestProps.MissingKeyFirst | packages/heat-collector/src/collector.ts:113-116 | a request without a project key is 401 and changes nothing |
| IngestProps.RateLimitBeforeAuth | packages/heat-collector/src/collector.ts:118-120 | a limited request is 429 before authentication or validation, and only its bucket changes |
| IngestProps.JwtModeNeedsToken | packages/heat-collector/src/collector.ts:122-130 | in JWT mode a request without a token is 401 |
| IngestProps.BothModeFallsBack | packages/heat-collector/src/collector.ts:122-138 | in either mode a request without a token is handled as in project-key mode |
| IngestProps.AnyVerifyFailureIs401 | packages/heat-collector/src/collector.ts:131-138 | a token that fails verification is 401 and the store is untouched |
| IngestProps.InvalidPayloadIs400 | packages/heat-collector/src/collector.ts:140-144 | an authenticated request with an invalid payload is 400 and the store is untouched |
| IngestProps.EmptyBodyIs400 | packages/heat-collector/src/collector.test.ts:80-88 | an empty body is 400 |
| IngestProps.Outcomes | packages/heat-collector/src/collector.ts:107-166 | every response is 200, 400, 401, 429 or 500, or the hook's exception, and only 200 and 500 reach the store |
| IngestProps.SuccessfulIngest | packages/heat-collector/src/collector.ts:151-165 | a successful ingest answers 200, finds the existing project or creates one, finds or creates the user when the token subject or payload names one, stores the session, and appends exactly every event's rows under that project, session and user |
| IngestProps.StoreSuccess | packages/heat-collector/src/collector.ts:151-154 | with no failing stage, storage succeeds, keeps an existing project's id, has the named user, and appends exactly the batch's rows filed under the project, session and user |
| IngestProps.EventFailureKeepsEarlierWrites | packages/heat-collector/src/collector.ts:151-165 | a failure while inserting a batch that has rows answers 500 and keeps the project, user and session already written |
| IngestProps.StoreEventFailure | packages/heat-collector/src/collector.ts:151-154 | when the event insert of a batch with rows throws, storage reports failure yet the project and session are written and no event row is added |
| IngestProps.FaultsOnlyAtRunSteps | packages/heat-collector/src/collector.ts:258-262 | a user-step fault with no external id, and an insert fault on a batch without rows, change nothing, because the source makes neither call |
| IngestProps.RowlessBatchSucceeds | packages/heat-collector/src/collector.ts:379 | an admitted, authenticated batch that makes no rows answers 200 and adds no event row, even when the insert would fail |
| IngestProps.StoreRowless | packages/heat-collector/src/collector.ts:379 | storing a batch without rows succeeds under an insert fault and leaves the event table unchanged |
| IngestProps.StoreIngestValid | packages/heat-collector/src/collector.ts:151-154 | storage keeps the store consistent whether it completes or stops at a failing step |
| IngestProps.ProjectFailureWritesNothing | packages/heat-collector/src/collector.ts:151-165 | a failure on the project step answers 500 and writes nothing |
| IngestProps.StorageReplay | packages/heat-collector/src/collector.ts:151-165 | storing the same batch twice reuses the project, user and session but appends its event rows a second time |
| IngestProps.FirstPass | packages/heat-collector/src/collector.ts:151-154 | a successful storage pass leaves the project and user with their ids, a session the same upsert would not change, and the batch's rows appended |
| IngestProps.SecondPass | packages/heat-collector/src/collector.ts:151-154 | on such a state, storage succeeds again and only appends the batch's rows once more |
| IngestProps.AuthOutcomes | packages/heat-collector/src/collector.ts:122-166 | after admission the handler answers 200, 400, 401 or 500 or rethrows the hook's error, and only 200 and 500 follow a store change |
| IngestProps.BodyOutcomes | packages/heat-collector/src/collector.ts:140-166 | after authentication the handler answers 200, 400 or 500 or rethrows the hook's error, and only 200 and 500 follow a store change |

## Left out

- The DOM, event listeners, the History API patching, and `visibilitychange`/`pagehide`. They are modelled as calls to the handler methods with their readings as arguments.
- Timers (`setInterval`, `setTimeout`), `fetch`/`sendBeacon`, `localStorage`, and `crypto.randomUUID`/`Math.random`. They become parameters (clock, ids, jitter, delivery outcome, stored session).
- SdkHelpers.IsSensitiveInput: the contract states only the password case; the hint matching (one-time code, otp, token, secret, `cc-`, card) is given by the definition and not restated. The hints are lower-cased ASCII only, where `toLowerCase` also folds other letters (the Kelvin sign `K` lowers to `k`, so it would match `token`).
- Tag names are lower-cased ASCII only; `tagName.toLowerCase()` also folds non-ASCII letters.
- SdkHelpers.ElementSelector: the cut to 200 UTF-16 units never splits a character outside the Basic Multilingual Plane. Where `slice(0, 200)` would keep a lone high surrogate, the model drops the whole character.
- TrackerProps.StartState: stated for `maxEvents` above 1. With `maxEvents` of 1 or less the first pageview is sent at once and the constructor's queue depends on the delivery outcome.
- The byte size of `JSON.stringify(queue)`. It is a size function given to the tracker, since JSON text rendering is not modelled.
- The asynchrony of `sendBatch`: nested sends within one call share a single delivery outcome, and interleavings of in-flight requests are not modelled.
- Floating point. Numbers are exact reals and integers: `Math.round` is floor(x + 0.5), and IEEE rounding, NaN and Infinity are absent.
- Jwt.Pick: the first key of the table is the first kid inserted. JavaScript's `Object.values(...)[0]` (jwt.ts:52 and 66) lists integer-like keys first, so a kid `"1"` fetched after a kid `"abc"` is the one the source falls back to. The same key order decides ties between `viewportBucket` labels that look like integers in Heatmap.DominantBucket. Cell keys `bx:by` are never integer-like.
- Jwt.IndexKeys: a fetched key whose kid is `__proto__` is kept out of the table, as in the source, but there `keys["__proto__"] = key` also makes that key the table's prototype. After such a fetch the source reads that key for a kid `__proto__`, and reads the key's own member for a kid naming one. The model reads the `Object.prototype` member in the first case, which is refused, and falls back to the first key in the second.
- Heatmap.DominantBucket: labels are counted as plain keys. In the source `bucketCounts` is a `{}` (collector.ts:407). A label `__proto__` is never counted: its count would be the string `[object Object]1`, and assigning a string to `__proto__` is ignored. A label naming another `Object.prototype` member (`constructor`, `toString`, ...) starts from the inherited function, so its count becomes a string such as `function Object() { [native code] }1`. The comparator at collector.ts:415 returns NaN for it, and the order `sort` then produces is implementation-defined. So for such labels the model counts them as ordinary labels and may choose a different bucket than the source.
- `Number()`: only decimal literals with an optional sign and fraction are parsed, after trimming ASCII space, tab, line feed and carriage return. Exponents, hex, `Infinity` and the other whitespace JavaScript trims (vertical tab, form feed, no-break space, line separators and the other Unicode spaces) are not handled.
- Queries.ParseTime: `Date.parse` is a parameter, because date-string parsing is not modelled.
- Heatmap.BuildHeatmap: requires a resolution of at least 1, and `Queries.HeatmapEndpoint` answers nothing for smaller ones. The source still answers 200 for them. At resolution 0 the cell width is Infinity, so every row with coordinates falls in the cell `-1:-1` and its point has non-finite coordinates (rendered as `null` in JSON). A negative resolution `r` puts every such row in the cell `(r-1):(r-1)`.
- `parsedBuckets` in `buildHeatmap` is computed and never read, so it is not modelled.
- A `viewportBucket` that is not a string is treated as absent. The same holds for a non-string JWT `sub` and `kid`.
- Queries.SortByTsSpec: rows equal in `ts` keep their storage order. The database's order for ties in `ORDER BY ts` is unspecified.
- Queries.ListSessionsSpec: grouped sessions come in storage order. SQL `GROUP BY` gives no order.
- Row ids (`randomUUID` per stored row) are not modelled. Nothing in the core reads them.
- A hook that returns a payload is taken at its word: the payload is not validated again.
- The RSA signature check, SHA-256 and base64 decoding to bytes are parameters. Only the text normalisation of `base64UrlDecode` is modelled.
- The network fetch of the JWKS document is a parameter: the key list, or a failure.
- Concurrency: two requests interleaving on the rate buckets, the key cache or the store.
- The SQL and MongoDB backends (`db.ts`), the table definitions (`schema.ts`), the Express wiring, the CLI, logging and metrics. Storage is an in-memory store. It makes the database calls the source makes, and only those: no user lookup when the external id is empty, and no insert when a batch has no rows.
