/**
 * The network resources a page observes (lib/page.js:145-223): the records
 * built from request-sent and response-received events, the size a response
 * contributes, and sums over a list of records.
 */
module Resources {
  import opened Optional
  import opened NumberText

  datatype Request = Request(httpMethod: string, url: string, headers: map<string, string>)

  /** What started a request; `kind` is the protocol's initiator `type` (`"other"`, `"parser"`, `"script"`, ...). */
  datatype Initiator = Initiator(kind: string)

  /** A response as the protocol reports it; `timing` is its timing block, when it has one. */
  datatype Response = Response(
    status: int,
    headers: map<string, string>,
    encodedDataLength: Option<int>,
    timing: Option<map<string, int>>)

  /** The request-sent event. */
  datatype RequestSent = RequestSent(requestId: string, request: Request, initiator: Option<Initiator>, wallTime: int)

  /** The response-received event; `kind` is the protocol's resource type (`"Document"`, `"Script"`, ...). */
  datatype ResponseReceived = ResponseReceived(requestId: string, kind: string, response: Response, timestamp: int)

  /** One resource record: what its request-sent event installed and what its response added. */
  datatype Resource = Resource(
    request: Request,
    initiator: Option<Initiator>,
    created: int,
    size: int,
    transferSize: int,
    response: Option<Response>,
    kind: Option<string>,
    resolved: Option<int>,
    duration: Option<int>)

  /** The record a request-sent event installs: nothing received yet, created at the event's wall time. */
  function NewResource(ev: RequestSent): (r: Resource)
    ensures r.size == 0 && r.transferSize == 0
    ensures r.request == ev.request && r.initiator == ev.initiator && r.created == ev.wallTime
    ensures r.response.None? && r.kind.None? && r.resolved.None? && r.duration.None?
  {
    Resource(ev.request, ev.initiator, ev.wallTime, 0, 0, None, None, None, None)
  }

  /**
   * The body size a response contributes: `parseFloat` of its
   * `content-length` header (looked up with exactly that spelling), and 0
   * when the header is missing or holds no number.
   */
  function ContentLength(headers: map<string, string>): (n: int)
  {
    if "content-length" in headers then
      match ParseNumberPrefix(headers["content-length"])
      case Some(v) => v
      case None => 0
    else 0
  }

  /** A `content-length` header holding a whole number in decimal contributes exactly that number. */
  lemma ContentLengthOfDecimal(headers: map<string, string>, n: nat)
    requires "content-length" in headers && headers["content-length"] == NatToString(n)
    ensures ContentLength(headers) == n
  {
    ParseNatToString(n, []);
    assert NatToString(n) + [] == NatToString(n);
  }

  /** The rule that picks the page's document: a `Document` response with status 200 to a request the browser itself initiated. */
  predicate SelectsDocument(r: Resource, ev: ResponseReceived) {
    ev.kind == "Document" && r.initiator.Some? && r.initiator.value.kind == "other" && ev.response.status == 200
  }

  /** The record after its response: response and type stored, sizes grown, resolved at the event's timestamp. */
  function Responded(r: Resource, ev: ResponseReceived): Resource {
    r.(response := Some(ev.response),
       kind := Some(ev.kind),
       size := r.size + ContentLength(ev.response.headers),
       transferSize := r.transferSize + OrZero(ev.response.encodedDataLength),
       resolved := Some(ev.timestamp),
       duration := Some(ev.timestamp - r.created))
  }

  /** The sum of the sizes of the first `n` records. */
  function SizeUpTo(rs: seq<Resource>, n: nat): int
    requires n <= |rs|
  {
    if n == 0 then 0 else SizeUpTo(rs, n - 1) + rs[n - 1].size
  }

  /** The sum of the transfer sizes of the first `n` records. */
  function TransferUpTo(rs: seq<Resource>, n: nat): int
    requires n <= |rs|
  {
    if n == 0 then 0 else TransferUpTo(rs, n - 1) + rs[n - 1].transferSize
  }

  /** The page's body-size total: the sum of its records' sizes. */
  function TotalSize(rs: seq<Resource>): int {
    SizeUpTo(rs, |rs|)
  }

  /** The page's transfer-size total: the sum of its records' transfer sizes. */
  function TotalTransfer(rs: seq<Resource>): int {
    TransferUpTo(rs, |rs|)
  }

  /** Partial sums depend only on the records they cover. */
  lemma {:induction false} UpToSamePrefix(rs: seq<Resource>, qs: seq<Resource>, n: nat)
    requires n <= |rs| && n <= |qs|
    requires forall i :: 0 <= i < n ==> rs[i] == qs[i]
    ensures SizeUpTo(rs, n) == SizeUpTo(qs, n)
    ensures TransferUpTo(rs, n) == TransferUpTo(qs, n)
  {
    if n > 0 {
      UpToSamePrefix(rs, qs, n - 1);
    }
  }

  /** Adding a record adds its sizes to the totals. */
  lemma TotalsAppend(rs: seq<Resource>, r: Resource)
    ensures TotalSize(rs + [r]) == TotalSize(rs) + r.size
    ensures TotalTransfer(rs + [r]) == TotalTransfer(rs) + r.transferSize
  {
    UpToSamePrefix(rs + [r], rs, |rs|);
  }

  /** Past the changed position, partial sums move by exactly the record's change. */
  lemma {:induction false} UpToUpdate(rs: seq<Resource>, h: nat, r: Resource, n: nat)
    requires h < n <= |rs|
    ensures SizeUpTo(rs[h := r], n) == SizeUpTo(rs, n) - rs[h].size + r.size
    ensures TransferUpTo(rs[h := r], n) == TransferUpTo(rs, n) - rs[h].transferSize + r.transferSize
  {
    if n - 1 == h {
      UpToSamePrefix(rs[h := r], rs, h);
    } else {
      UpToUpdate(rs, h, r, n - 1);
    }
  }

  /** Changing one record changes the totals by exactly its own change. */
  lemma TotalsUpdate(rs: seq<Resource>, h: nat, r: Resource)
    requires h < |rs|
    ensures TotalSize(rs[h := r]) == TotalSize(rs) - rs[h].size + r.size
    ensures TotalTransfer(rs[h := r]) == TotalTransfer(rs) - rs[h].transferSize + r.transferSize
  {
    UpToUpdate(rs, h, r, |rs|);
  }
}
