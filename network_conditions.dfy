/**
 * The network shaping a page asks the browser for (lib/page.js:487-515):
 * whether any shaping is requested, and the conditions object sent.
 */
module NetworkConditions {
  import opened Optional

  /** The shaping options a page is configured with; `None` is a missing or null option. */
  datatype Shaping = Shaping(
    downloadRate: Option<int>,
    uploadRate: Option<int>,
    latency: Option<int>,
    offline: Option<bool>,
    connectionType: Option<string>)

  /** The conditions object handed to the browser's network emulation. */
  datatype Conditions = Conditions(
    offline: bool,
    latency: int,
    downloadThroughput: int,
    uploadThroughput: int,
    connectionType: Option<string>)

  /** The throughput used when no rate is given. */
  const DefaultThroughput: int := 100000

  /** A connection type is given: a non-empty string. */
  predicate HasConnectionType(o: Shaping) {
    o.connectionType.Some? && o.connectionType.value != ""
  }

  /**
   * Shaping is requested when a rate or the latency is a non-zero number,
   * when a connection type is given, or when `offline` is anything but
   * `false`: the loose `!= false` makes a missing `offline` count too.
   */
  predicate Requested(o: Shaping) {
    IsNonZero(o.downloadRate) || IsNonZero(o.uploadRate) || IsNonZero(o.latency)
    || o.offline != Some(false) || HasConnectionType(o)
  }

  /** `rate || 100000`. */
  function RateOr(rate: Option<int>): int {
    if IsNonZero(rate) then rate.value else DefaultThroughput
  }

  /**
   * The conditions as the source builds them: the download throughput is
   * taken from `uploadRate` and the upload throughput from `downloadRate`.
   */
  function BuildAsWritten(o: Shaping): (c: Option<Conditions>)
    ensures c.Some? <==> Requested(o)
    ensures c.Some? ==> c.value.downloadThroughput == RateOr(o.uploadRate)
    ensures c.Some? ==> c.value.uploadThroughput == RateOr(o.downloadRate)
    ensures c.Some? ==> c.value.offline == (o.offline == Some(true)) && c.value.latency == OrZero(o.latency)
    ensures c.Some? ==> (c.value.connectionType.Some? <==> HasConnectionType(o))
  {
    if Requested(o) then
      Some(Conditions(
        o.offline == Some(true),
        OrZero(o.latency),
        RateOr(o.uploadRate),
        RateOr(o.downloadRate),
        if HasConnectionType(o) then o.connectionType else None))
    else None
  }

  /** A download rate alone comes out as the upload throughput, and the download throughput is the default. */
  lemma AsWrittenSwapsRates()
    ensures var o := Shaping(Some(500), None, None, Some(false), None);
            && BuildAsWritten(o).Some?
            && BuildAsWritten(o).value.downloadThroughput == DefaultThroughput
            && BuildAsWritten(o).value.uploadThroughput == 500
  {
  }

  /** The conditions with each rate applied to its own direction. */
  function Build(o: Shaping): (c: Option<Conditions>)
    ensures c.Some? <==> Requested(o)
    ensures c.Some? ==> c.value.downloadThroughput == RateOr(o.downloadRate)
    ensures c.Some? ==> c.value.uploadThroughput == RateOr(o.uploadRate)
    ensures c.Some? ==> c.value.offline == (o.offline == Some(true)) && c.value.latency == OrZero(o.latency)
    ensures c.Some? ==> (c.value.connectionType.Some? <==> HasConnectionType(o))
  {
    if Requested(o) then
      Some(Conditions(
        o.offline == Some(true),
        OrZero(o.latency),
        RateOr(o.downloadRate),
        RateOr(o.uploadRate),
        if HasConnectionType(o) then o.connectionType else None))
    else None
  }

  /** For every input, the builder as written is the corrected one applied with the two rates exchanged. */
  lemma AsWrittenIsSwappedBuild(o: Shaping)
    ensures BuildAsWritten(o) == Build(o.(downloadRate := o.uploadRate, uploadRate := o.downloadRate))
  {
  }

  /**
   * The client's defaults (no rates, no latency, `offline` false, no
   * connection type) ask for no shaping; any single non-zero rate does, and
   * it is then the emulated throughput of its own direction.
   */
  lemma DefaultsRequestNothing(rate: int)
    ensures Build(Shaping(None, None, None, Some(false), None)).None?
    ensures rate != 0 ==> Build(Shaping(Some(rate), None, None, Some(false), None)) ==
                            Some(Conditions(false, 0, rate, DefaultThroughput, None))
    ensures rate != 0 ==> Build(Shaping(None, Some(rate), None, Some(false), None)) ==
                            Some(Conditions(false, 0, DefaultThroughput, rate, None))
  {
  }
}
