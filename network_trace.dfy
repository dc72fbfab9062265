/**
 * The network half of a page's state (the `requests`, `requestCount`,
 * `size`, `transferSize`, `document`, `firstRequest`, `lastRequest` and
 * `timing` entries of `VARS`, lib/page.js:18-55) and what the request-sent
 * and response-received handlers (lib/page.js:145-223) do to it.
 *
 * Resource records are objects in the source, shared between the request
 * map and the `document` and `firstRequest` slots; here every record ever
 * created lives in `resources`, in creation order, and the map and the
 * slots hold positions in it.
 */
module NetworkTrace {
  import opened Optional
  import opened Resources
  import opened Timing

  datatype Trace = Trace(
    requests: map<string, nat>,
    resources: seq<Resource>,
    requestCount: nat,
    size: int,
    transferSize: int,
    document: Option<nat>,
    firstRequest: Option<nat>,
    lastRequest: Option<nat>,
    timing: Option<map<string, int>>)

  /**
   * What every reachable trace satisfies: one request counted per record,
   * every handle in range, the page totals equal to the sums over the
   * records, and the last request the same as the first.
   */
  ghost predicate TraceOk(t: Trace) {
    && t.requestCount == |t.resources|
    && (forall id :: id in t.requests ==> t.requests[id] < |t.resources|)
    && (t.document.Some? ==> t.document.value < |t.resources|)
    && (t.firstRequest.Some? ==> t.firstRequest.value < |t.resources|)
    && t.lastRequest == t.firstRequest
    && t.size == TotalSize(t.resources)
    && t.transferSize == TotalTransfer(t.resources)
  }

  /** The trace of a page that has seen no network event. */
  function EmptyTrace(): (t: Trace)
    ensures TraceOk(t)
    ensures t.resources == [] && t.requests == map[] && t.size == 0 && t.transferSize == 0
    ensures t.document.None? && t.firstRequest.None? && t.timing.None?
  {
    Trace(map[], [], 0, 0, 0, None, None, None, None)
  }

  /**
   * `Network.requestWillBeSent` (lib/page.js:145-155): a fresh record for
   * the id, replacing any earlier one in the map (the earlier record stays
   * counted), and one more request counted; nothing else changes.
   */
  function AfterRequest(t: Trace, ev: RequestSent): (u: Trace)
    requires TraceOk(t)
    ensures TraceOk(u)
    ensures u.resources == t.resources + [NewResource(ev)]
    ensures ev.requestId in u.requests && u.resources[u.requests[ev.requestId]] == NewResource(ev)
    ensures forall id :: id in t.requests && id != ev.requestId ==> id in u.requests && u.requests[id] == t.requests[id]
    ensures u.requests.Keys == t.requests.Keys + {ev.requestId}
    ensures u.requestCount == t.requestCount + 1
    ensures u.size == t.size && u.transferSize == t.transferSize
    ensures u.document == t.document && u.firstRequest == t.firstRequest && u.timing == t.timing
  {
    TotalsAppend(t.resources, NewResource(ev));
    t.(requests := t.requests[ev.requestId := |t.resources|],
       resources := t.resources + [NewResource(ev)],
       requestCount := t.requestCount + 1)
  }

  /** The aggregate timing when none exists yet: an empty object. */
  function TimingOrEmpty(timing: Option<map<string, int>>): map<string, int> {
    if timing.Some? then timing.value else map[]
  }

  /** `timing.waiting = (timing.waiting || 0) + duration`. */
  function WithWaiting(timing: map<string, int>, duration: int): map<string, int> {
    timing["waiting" := Waiting(timing) + duration]
  }

  /** The aggregate timing after a response: unchanged without a timing block, otherwise aggregated with `waiting` grown by the duration. */
  function TimingAfter(timing: Option<map<string, int>>, block: Option<map<string, int>>, duration: int): Option<map<string, int>> {
    if block.None? then timing else Some(WithWaiting(Aggregate(TimingOrEmpty(timing), block.value), duration))
  }

  /**
   * `Network.responseReceived` (lib/page.js:160-223) for a request the page
   * has seen (the source does not guard unknown ids). The record and the
   * page totals grow by the same amounts; the record becomes the document
   * when the document rule holds; a timing block is aggregated; the first
   * response sets the first (and last) request.
   */
  function AfterResponse(t: Trace, ev: ResponseReceived): (u: Trace)
    requires TraceOk(t)
    requires ev.requestId in t.requests
    ensures TraceOk(u)
    ensures u.requests == t.requests && u.requestCount == t.requestCount
    ensures var h := t.requests[ev.requestId];
            u.resources == t.resources[h := Responded(t.resources[h], ev)]
    ensures u.size == t.size + ContentLength(ev.response.headers)
    ensures u.transferSize == t.transferSize + OrZero(ev.response.encodedDataLength)
    ensures var h := t.requests[ev.requestId];
            u.document == if SelectsDocument(t.resources[h], ev) then Some(h) else t.document
    ensures var h := t.requests[ev.requestId];
            u.timing == TimingAfter(t.timing, ev.response.timing, ev.timestamp - t.resources[h].created)
    ensures u.firstRequest == if t.firstRequest.None? then Some(t.requests[ev.requestId]) else t.firstRequest
  {
    var h := t.requests[ev.requestId];
    var updated := Responded(t.resources[h], ev);
    TotalsUpdate(t.resources, h, updated);
    t.(resources := t.resources[h := updated],
       size := t.size + ContentLength(ev.response.headers),
       transferSize := t.transferSize + OrZero(ev.response.encodedDataLength),
       document := if SelectsDocument(t.resources[h], ev) then Some(h) else t.document,
       timing := TimingAfter(t.timing, ev.response.timing, ev.timestamp - t.resources[h].created),
       // The source moves `lastRequest` only when the event's timestamp
       // exceeds the `timestamp` of the current one; records never carry
       // that field, and a comparison with undefined is false, so only the
       // first response sets it, together with `firstRequest`.
       firstRequest := if t.firstRequest.None? then Some(h) else t.firstRequest,
       lastRequest := if t.firstRequest.None? then Some(h) else t.lastRequest)
  }

  /**
   * A response's timing block touches exactly the seven phase keys and
   * `waiting`, which grows by the request's duration.
   */
  lemma TimingAfterResponse(timing: Option<map<string, int>>, block: map<string, int>, duration: int)
    ensures var t := TimingAfter(timing, Some(block), duration).value;
            && t.Keys == TimingOrEmpty(timing).Keys + (set k | k in TimingKeys) + {"waiting"}
            && t["waiting"] == Waiting(TimingOrEmpty(timing)) + duration
            && (forall k :: k in TimingKeys ==> t[k] == Combined(TimingOrEmpty(timing), k, DiffFromStartEnd(block, k)))
            && (forall k :: k in TimingOrEmpty(timing) && k !in TimingKeys && k != "waiting" ==> t[k] == TimingOrEmpty(timing)[k])
  {
    AggregateSpec(TimingOrEmpty(timing), block);
    assert "waiting" !in TimingKeys;
  }

  /**
   * A request followed by its response: the record holds the response, has
   * lived from the request's wall time to the response's timestamp, and
   * carries exactly what the page totals grew by.
   */
  lemma RequestThenResponse(t: Trace, req: RequestSent, resp: ResponseReceived)
    requires TraceOk(t)
    requires resp.requestId == req.requestId
    ensures var u := AfterResponse(AfterRequest(t, req), resp);
            var r := u.resources[|t.resources|];
            && |u.resources| == |t.resources| + 1
            && r.response == Some(resp.response)
            && r.duration == Some(resp.timestamp - req.wallTime)
            && r.size == u.size - t.size == ContentLength(resp.response.headers)
            && r.transferSize == u.transferSize - t.transferSize
  {
    var m := AfterRequest(t, req);
    assert m.requests[resp.requestId] == |t.resources|;
  }
}
