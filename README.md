# passmarked/browser core, modelled in Dafny

The browser client drives a headless Chrome over its remote debugging
protocol. Each page load runs in a `ChromePage`. A page records every network
resource it sees and sums their sizes. It aggregates the responses' timing
blocks, picks the page's document, and settles on one result: success,
failed, timeout or insecure. It can also record a filmstrip of timed steps.
Around the pages, the client merges its option defaults and derives the
configuration of each page job. It also decides which browser tabs `flush`
closes and which tab a job binds to.

The model consists of these modules:

- `Page` (page.dfy) — class `ChromePage`. Its fields are the page's state
  record. It has one method per protocol event or timer: request sent,
  response received, load event, certificate error, timeout, interval tick,
  and a screenshot render returning. It also has the set-once `End` and
  `CaptureStep`. The set-once result is
  also stated as a fold over a series of signals (`SettleAll`).
- `NetworkTrace` (network_trace.dfy) — the network half of the page state as
  one value, `Trace`. It has the invariant every reachable trace keeps
  (`TraceOk`), and the pure transitions `AfterRequest` and `AfterResponse`
  that the two network handlers are proved against. Resource records are
  shared objects in the source: the request map, `document` and
  `firstRequest` point at the same record. Here every record ever created
  lives in `resources`, and those slots hold positions in it.
- `Resources` (resources.dfy) — the event and record types, the
  `content-length` rule, the document rule, and the sums of record sizes.
- `Timing` (timing.dfy) — `diffFromStartEnd`, and the aggregation loop over
  the seven phase keys, together with its pointwise reference `Aggregate`.
- `NetworkConditions` (network_conditions.dfy) — the network-shaping request
  a page sends: as written, and corrected (see Findings).
- `Bootstrap` (bootstrap.dfy) — whether a page's configuration reaches
  navigation, which hangs on how `emulate` ends: as written, and corrected
  (see Findings).
- `ClientOptions` (client_options.dfy) — the client's defaults merge, the
  `contentTypes` fallback, and the per-job merge of options, headers and
  cookies.
- `Targets` (targets.dfy) — the `flush` selection loop and the job's target
  chooser.
- `JsValues`, `NumberText`, `Optional` — JavaScript option values, with
  `||`, `_.extend` sources, `[].concat` and `String()`; the integer part of
  `parseFloat`; and an option type.

Clock readings, rendered screenshots and the default host and port (from
`lib/constants.js`, which is not part of this model) are parameters. Timers
are modelled as the events they deliver: `StartNavigation` arms the timeout,
`OnTimeout` and `OnIntervalTick` are the timers firing, and `Disable` clears
them.

Two behaviours of the timing aggregation worth knowing:

- The aggregated phase keys are the seven keys of the source's `timingKeys`.
  These include `domContentLoadedEvent`. `waiting` is not among them: it is
  updated separately, by the response's duration.
- Aggregate timing is not monotone as written. A key holding 0 counts as
  unset and is overwritten with the new diff, which may be -1
  (`Timing.ZeroKeyCanDecrease`). Monotonicity is proved only for keys
  holding a non-zero value (`Timing.AggregateKeepsSetKeys`).

## Model

| member | source | states |
|---|---|---|
| ClientOptions.WithDefaultContentTypes | lib/index.js:54-63 | an empty array becomes `['*']` and a non-empty one is kept; an empty string becomes `'*'`; a value without a length is kept; null or undefined, or a plain object with length 0, throws |
| ClientOptions.Configure | lib/index.js:12-63 | the merged options hold the default keys plus the caller's; every key the caller gives keeps the caller's value; every other key takes its default; `contentTypes` is the fallback applied to the merged value; the merge fails exactly when that fallback throws |
| ClientOptions.ContentTypesFallback | lib/index.js:22-63 | with no caller `contentTypes` the result is `['*']`; a caller array is kept unless it is empty, in which case it becomes `['*']` |
| ClientOptions.MissingOptionsThrow | lib/index.js:12-51 | as written, creating the client with undefined or null options throws while the literal of defaults is built, so the fallback to an empty object that closes it never applies; the empty object is accepted |
| ClientOptions.ConfigureClientAgrees | lib/index.js:12-51 | with the fallback to an empty object applied first, the factory agrees with the one as written on every argument that does not throw, and reads undefined or null as the empty object |
| ClientOptions.NoOptionsDefaults | lib/index.js:12-63 | the corrected factory without options yields `contentTypes` `['*']`, one tab and certificate errors ignored |
| ClientOptions.LiteralDefaults | lib/index.js:12-51 | absent keys take the literal defaults: `tabs` 1, `ignoreSSL` true, `offline` false |
| ClientOptions.CallerDependentDefaults | lib/index.js:17-47 | the duplicate literal keys resolve to their later entries: an absent `timeout` is undefined and an absent `userAgent` is null; `disableCache` defaults to false and `cookies` to the empty list |
| ClientOptions.JobCookies | lib/index.js:220 | the job's cookies follow the client's, in order; a missing side reads as empty; a non-array job value is appended whole; a string receiver concatenates text; other truthy receivers throw, and exactly those |
| ClientOptions.JobHeaders | lib/index.js:219 | the merged headers hold the keys of both sides; the job's header wins on every key it has; the client's header is kept on every other key |
| ClientOptions.JobConfig | lib/index.js:215-222 | the job configuration is the client's options overridden by the job's parameters, with `url` from the job and the merged headers and cookies; it fails exactly when the cookie concatenation throws |
| ClientOptions.JobOverridesClient | lib/index.js:215-222 | for a client configured with headers and cookies and a job giving both, the job's cookies follow the client's, and the job's headers override the client's key by key |
| Targets.SpecialExamples | lib/index.js:107-108 | `about:blank` is not a special target; `chrome://` and `about://` urls are |
| Targets.SelectTargetsToClose | lib/index.js:99-124 | the loop with its `specialCount` counter issues exactly the closes of `Closed` over the reply's target list, where a missing list reads as empty |
| Targets.SpecialCountZero | lib/index.js:105-115 | the special counter stays 0 over a list exactly when no entry is special |
| Targets.ClosedWithoutSpecial | lib/index.js:105-124 | with no special target, every target is closed in list order |
| Targets.ClosedKeepsFirstSpecial | lib/index.js:105-124 | the first special target is kept; every target before it and after it, later special ones included, is closed in list order |
| Targets.ClosedCount | lib/index.js:105-124 | the number of closes is the number of targets minus one when some target is special, and the number of targets otherwise |
| Targets.FindTarget | lib/index.js:174-192 | the chooser returns the first tab whose id equals the job's target id, and none exactly when no tab matches |
| NumberText.ParseIntToString | lib/page.js:171 | `parseFloat` reads back every integer written in decimal |
| Resources.NewResource | lib/page.js:145-155 | a new record has size and transfer size 0, the event's request and initiator, creation time = wall time, and nothing received |
| Resources.ContentLengthOfDecimal | lib/page.js:168-180 | a `content-length` header holding a decimal number contributes exactly that number |
| Resources.TotalsAppend | lib/page.js:145-155 | adding a record grows the summed size and transfer size by that record's amounts |
| Resources.TotalsUpdate | lib/page.js:179-183 | replacing a record changes each sum by the difference between the new and the old record |
| Timing.FieldOrMinusOne | lib/page.js:126-127 | a present, non-zero field reads as itself; a missing or zero field reads as -1 |
| Timing.DiffFromStartEnd | lib/page.js:123-137 | -1 when both sides are missing or zero; end minus start when both are set and one is non-negative; a missing side counts as -1; -1 whenever both sides read negative |
| Timing.AggregateOverAt | lib/page.js:92-118 | folding the loop over distinct keys combines each visited key by the per-key rule and leaves every other key untouched |
| Timing.AggregateSpec | lib/page.js:92-118 | exactly the seven phase keys are added or changed; a key holding a non-zero value grows by a positive diff and ignores a non-positive one; a missing or zero key takes the diff as it is |
| Timing.AggregateTiming | lib/page.js:92-118 | the loop over `timingKeys` computes exactly `Aggregate` |
| Timing.AggregateKeepsSetKeys | lib/page.js:101-107 | a key holding a non-zero value never decreases; it grows by exactly the diff when the diff is positive, and is otherwise unchanged |
| Timing.ZeroKeyCanDecrease | lib/page.js:101-112 | a key holding 0 is overwritten: `connect` at 0 with a block lacking connect fields becomes -1 |
| NetworkConditions.BuildAsWritten | lib/page.js:487-515 | shaping is sent exactly when a rate or latency is non-zero, a connection type is given, or `offline` is anything but false; the download throughput is taken from `uploadRate` and the upload throughput from `downloadRate` (the as-written swap) |
| NetworkConditions.AsWrittenSwapsRates | lib/page.js:497-502 | a download rate of 500 alone is emulated as a 500 upload throughput and the default download throughput |
| NetworkConditions.AsWrittenIsSwappedBuild | lib/page.js:487-502 | for every input, the builder as written equals the corrected builder applied with the download and upload rates exchanged |
| NetworkConditions.Build | lib/page.js:487-515 | the same trigger, with each rate emulated in its own direction, defaulting to 100000; `offline` only when true; latency or 0 |
| NetworkConditions.DefaultsRequestNothing | lib/page.js:487-491 | the client's defaults request no shaping; a single non-zero rate is emulated in its own direction and the other direction takes the default |
| NetworkTrace.EmptyTrace | lib/page.js:18-55 | a fresh page's trace has no requests, no records, zero totals, no document, no first request and no timing, and keeps the trace invariant |
| NetworkTrace.AfterRequest | lib/page.js:145-155 | a request-sent event installs a fresh record for its id and replaces any earlier entry for that id; other ids are unchanged; `requestCount` grows by one; totals, document, first request and timing are unchanged; the invariant is kept |
| NetworkTrace.AfterResponse | lib/page.js:160-223 | the response's record gets the response, its type, its resolve time and its duration; the record and the page totals grow by the same content-length and encoded length (0 when absent); the document changes exactly when the document rule holds; the timing follows `TimingAfter`; the first response sets the first request; the invariant is kept |
| NetworkTrace.TimingAfterResponse | lib/page.js:194-209 | a response with a timing block touches exactly the seven phase keys and `waiting`; `waiting` grows by the request's duration; other keys keep their values |
| NetworkTrace.RequestThenResponse | lib/page.js:145-183 | after a request and its response, the record holds the response and lives from the wall time to the timestamp; its size and transfer size are exactly what the page totals grew by |
| Page.DecidedStaysDecided | lib/page.js:946-966 | once the result is decided, no later signal changes it, so `getResult` is fixed from then on |
| Page.FirstSignalDecides | lib/page.js:946-956 | the first signal to reach an undecided page decides it, whatever follows |
| Page.ChromePage.constructor | lib/page.js:18-55 | a fresh page: empty trace, no result, not started, no steps, no timeout armed, and the interval timer running exactly when `recordEvery` is non-zero |
| Page.ChromePage.OnRequestWillBeSent | lib/page.js:145-155 | the network state becomes `AfterRequest` of the old state; the page invariant is kept |
| Page.ChromePage.OnResponseReceived | lib/page.js:160-223 | for a known request id, the network state becomes `AfterResponse` of the old state, whose timing is what the `AggregateTiming` loop computes; the page invariant is kept |
| Page.ChromePage.End | lib/page.js:946-956 | the first call records its outcome and reports the page loaded once; later calls change nothing |
| Page.ChromePage.OnLoadEventFired | lib/page.js:224-270 | the interval timer is stopped; with no document the page fails; with a document and no steps recorded it succeeds; when steps are recorded the page stays undecided and a final step is sent to be rendered (none before the start); a decided page keeps its result |
| Page.ChromePage.OnCertificateError | lib/page.js:363-390 | ignored when `ignoreSSL` is true; otherwise the page ends insecure unless it is already decided |
| Page.ChromePage.StartNavigation | lib/page.js:575-593 | the start time is recorded, and the timeout timer is armed exactly when a non-zero timeout is set |
| Page.ChromePage.OnTimeout | lib/page.js:579-591 | the armed timeout fires once and ends the page with a timeout unless it is already decided |
| Page.ChromePage.OnIntervalTick | lib/page.js:1070-1075 | each tick of the running interval timer captures one step, which does not end the page when rendered |
| Page.ChromePage.CaptureStep | lib/page.js:1032-1049 | nothing before the page has started; afterwards the counter grows by one and exactly one step, with that index and the delay since the start, is sent to be rendered; filmstrip and renders together stay numbered 1, 2, 3, ... |
| Page.ChromePage.OnStepRendered | lib/page.js:1054-1063 | the returning render's step, with its image, is appended to the filmstrip; a final step then ends the page with success unless it is already decided; any other step leaves the result alone |
| Page.ChromePage.Disable | lib/page.js:63-69 | both timers are cleared |
| Page.ChromePage.GetTiming | lib/page.js:763-790 | called with the callback alone, the aggregate timing; a truthy id is looked up under its string form: none when unknown, otherwise that request's response timing block, or none when it has no response or no block; a falsy first argument is called as the callback and throws |
| Page.CertificateErrorBeatsLoad | lib/page.js:363-390 | a page whose document arrives and whose certificate check then fails ends insecure and reports itself loaded once, whatever the load event does after |
| Page.TimeoutBeatsFinalStep | lib/page.js:224-270 | for an undecided page recording steps, with its document, the timeout armed and no render pending, a timeout between the load event and the final render decides the page as timed out; the render then only adds its step |
| Bootstrap.NavigatesAsWrittenOnlyWithViewport | lib/page.js:859-941 | as written, a page configured by `bootstrap` navigates exactly when some viewport option is truthy, and never with the client's defaults, because `emulate` then calls its missing callback |
| Bootstrap.EveryPageNavigates | lib/page.js:859-941 | with the final callback guarded like the others, configuration reaches navigation for every viewport, the client's defaults included, and wherever the code as written navigates |

## Left out

- Protocol I/O: domain enable and disable, navigation, stop loading, dialog
  and certificate-error replies, scripts, screenshots and PDFs, and target
  creation, listing and closing. The browser's part is foreign transport; the
  model keeps only the decisions the code makes around these calls.
- Concurrency: the client's job queue (`async.queue`), the process-wide
  `unhandledRejection` hook, and promise ordering. Timers appear only as the
  events they deliver.
- Page.ChromePage.OnStepRendered: renders are taken to return in the order
  they were requested; steps whose renders return out of order, which the
  source would push to the filmstrip out of index order, are not modelled.
- Page.ChromePage.GetTiming: a callback passed as the first argument is the
  `None` argument; any other function-valued first argument is not modelled.
- Page.ChromePage.OnResponseReceived: states its timing through the
  `Aggregate` function, which `Timing.AggregateTiming` is proved to compute,
  rather than running the loop inside the handler.
- `lastRequest` and `duration`: they compare and subtract a `timestamp`
  field that records never carry. The model keeps `lastRequest` equal to the
  first responding record, which is what that comparison yields, and leaves
  out the page duration and the `ended` time.
- `getResult`, `getSteps`, `getRequests`, `getRequestCount`, `getSize` and
  the other getters read fields of the state directly. `Page.ChromePage.GetResult`
  is such a read and carries no contract of its own.
- Page.ChromePage.StartNavigation: as written, configuration reaches
  navigation only when some viewport option (`width`, `height`, `mobile`,
  `orientation`, `fitWindow`) is truthy; otherwise `emulate` calls its
  missing callback and throws out of `bootstrap`, so with the client's
  defaults no page is started, no timeout armed and nothing navigated (see
  Findings). The model treats configuration as completing, as
  `Bootstrap.Navigates` says.
- The device metrics `emulate` would set (`deviceScaleFactor` float
  parsing) beyond whether it returns, the background colour (the
  foreign `hexRgb` library), the dialog handler, `exec`'s result mapping,
  the console log, websocket and frame events, and `page.exit` and `close`.
- `flush` completion: the promise aggregation after the selection loop.
  Only the selection is modelled.
- The `instance` key of the job configuration, which carries the transport
  handle.
- Resources.ContentLength: `parseFloat` is modelled only up to its integer
  prefix: sign, digits, and the white space listed in `NumberText.IsJsSpace`.
  Fractions, exponents, `Infinity` and the other Unicode space separators
  are not modelled.
- Option values that are functions, and objects whose `length` is a loose
  zero other than the number 0, are not modelled in the `contentTypes`
  fallback. An array contributes only its indexed elements to `_.extend`.

## Findings

| source | as written | input that shows it | evidently intended | confidence | as-written member | corrected member |
|---|---|---|---|---|---|---|
| lib/index.js:12-51 | the literal of defaults reads `options.disableCache` and `options.bypassServiceWorkers` before the fallback to an empty object at its end is evaluated | creating the client with no options argument: a TypeError at line 18, so that fallback can never supply the empty object | a missing options argument reads as the empty object | medium, not executed | ClientOptions.ConfigureAsWritten (with ClientOptions.MissingOptionsThrow) | ClientOptions.ConfigureClient (with ClientOptions.ConfigureClientAgrees and ClientOptions.NoOptionsDefaults) |
| lib/page.js:939 | `emulate` ends with an unguarded `fn(null)`, and `bootstrap` calls it without a callback (line 420) | a page with the client's defaults (no `width`, `height`, `mobile`, `orientation` or `fitWindow`): a TypeError out of `bootstrap`, so its configuration never settles and the page never navigates | `if(fn) fn(null)`, as on the other paths of `emulate` | medium, not executed | Bootstrap.NavigatesAsWritten (with Bootstrap.NavigatesAsWrittenOnlyWithViewport) | Bootstrap.Navigates (with Bootstrap.EveryPageNavigates) |
| lib/page.js:497-502 | `downloadThroughput` is taken from `options.uploadRate` and `uploadThroughput` from `options.downloadRate` | `downloadRate: 500` with no other shaping options: the browser is asked for a 500 upload throughput and the default 100000 download throughput | each rate applies to its own direction | high, not executed | NetworkConditions.BuildAsWritten (with NetworkConditions.AsWrittenSwapsRates and NetworkConditions.AsWrittenIsSwappedBuild) | NetworkConditions.Build (with NetworkConditions.DefaultsRequestNothing) |
