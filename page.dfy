/**
 * The per-page trace and completion state of `ChromePage` (lib/page.js):
 * the resource records and totals built from network events, the aggregate
 * timing, the set-once result fed by the load event, certificate errors and
 * the timeout, and the filmstrip of captured steps.
 */
module Page {
  import opened Optional
  import opened Resources
  import opened NetworkTrace
  import opened JsValues

  /** The terminal results a page can record. */
  datatype Outcome = Success | Failed | Timeout | Insecure

  /** The set-once result cell: a decided result stays, an open one takes the outcome offered. */
  function Settle(result: Option<Outcome>, outcome: Outcome): Option<Outcome> {
    if result.Some? then result else Some(outcome)
  }

  /** The result after a series of signals, each offering its outcome in turn. */
  function SettleAll(result: Option<Outcome>, outcomes: seq<Outcome>): Option<Outcome> {
    if outcomes == [] then result
    else Settle(SettleAll(result, outcomes[..|outcomes| - 1]), outcomes[|outcomes| - 1])
  }

  /** Once decided, no later signal changes the result. */
  lemma {:induction false} DecidedStaysDecided(decided: Outcome, outcomes: seq<Outcome>)
    ensures SettleAll(Some(decided), outcomes) == Some(decided)
  {
    if outcomes != [] {
      DecidedStaysDecided(decided, outcomes[..|outcomes| - 1]);
    }
  }

  /** The first signal to reach an undecided page decides it, whatever follows. */
  lemma {:induction false} FirstSignalDecides(first: Outcome, later: seq<Outcome>)
    ensures SettleAll(None, [first] + later) == Some(first)
  {
    if later == [] {
      assert SettleAll(None, [first]) == Settle(SettleAll(None, []), first);
    } else {
      FirstSignalDecides(first, later[..|later| - 1]);
      assert ([first] + later)[..|later|] == [first] + later[..|later| - 1];
    }
  }

  /** One filmstrip step: its index, its delay since the page started, and the rendered image, if rendering succeeded. */
  datatype Step = Step(index: nat, delay: int, data: Option<seq<bv8>>)

  /** Steps are numbered 1, 2, 3, ... in filmstrip order. */
  ghost predicate Numbered(steps: seq<Step>) {
    forall i :: 0 <= i < |steps| ==> steps[i].index == i + 1
  }

  /**
   * A step whose screenshot is still being rendered: its index and delay
   * are fixed when it is captured; `final` marks the step the load event
   * asked for, whose render callback ends the page.
   */
  datatype Capture = Capture(index: nat, delay: int, final: bool)

  /**
   * What `getTiming` hands its callback, or `NotCallable` when the argument
   * it takes for the callback is not a function and calling it throws.
   */
  datatype TimingReply = Replied(timing: Option<map<string, int>>) | NotCallable

  /**
   * The state one page keeps (`VARS`, lib/page.js:18-55): the network
   * entries, read together as a `Trace`, the result, the filmstrip and the
   * two timers.
   */
  class ChromePage {
    /** `options.ignoreSSL === true`. */
    const ignoreSsl: bool
    /** The filmstrip interval in milliseconds, if any. */
    const recordEvery: Option<int>
    /** The load timeout in milliseconds, if any. */
    const timeout: Option<int>

    var requests: map<string, nat>
    var resources: seq<Resource>
    var requestCount: nat
    var size: int
    var transferSize: int
    var document: Option<nat>
    var firstRequest: Option<nat>
    var lastRequest: Option<nat>
    var timing: Option<map<string, int>>

    var result: Option<Outcome>
    /** How many times the page has reported itself loaded to its job. */
    var loadedCalls: nat

    var started: Option<int>
    var currentStep: nat
    var filmstrip: seq<Step>
    /** Captured steps whose renders have not returned yet, oldest first. */
    var rendering: seq<Capture>

    /** The timeout timer is pending. */
    var timeoutArmed: bool
    /** The filmstrip interval timer is running. */
    var intervalArmed: bool

    /** The network entries as one value. */
    function CurrentTrace(): Trace
      reads this`requests, this`resources, this`requestCount, this`size, this`transferSize,
            this`document, this`firstRequest, this`lastRequest, this`timing
    {
      Trace(requests, resources, requestCount, size, transferSize, document, firstRequest, lastRequest, timing)
    }

    /**
     * The completion invariant: the page reports itself loaded once, when
     * its result is decided, and succeeds only with a document; a final
     * step is only ever rendered for a page with a document.
     */
    ghost predicate ResultValid()
      reads this`result, this`loadedCalls, this`document, this`rendering
    {
      && loadedCalls == (if result.Some? then 1 else 0)
      && (result == Some(Success) ==> document.Some?)
      && (document.None? ==> forall j :: 0 <= j < |rendering| ==> !rendering[j].final)
    }

    /**
     * The filmstrip invariant: every counted step is in the filmstrip or
     * still rendering, numbered from 1 in that order; nothing is captured
     * and no timeout armed before the start.
     */
    ghost predicate FilmValid()
      reads this`currentStep, this`filmstrip, this`rendering, this`started, this`timeoutArmed
    {
      && currentStep == |filmstrip| + |rendering| && Numbered(filmstrip)
      && (forall j :: 0 <= j < |rendering| ==> rendering[j].index == |filmstrip| + j + 1)
      && (started.None? ==> filmstrip == [] && rendering == [] && !timeoutArmed)
    }

    ghost predicate Valid()
      reads this
    {
      TraceOk(CurrentTrace()) && ResultValid() && FilmValid()
    }

    /** A fresh page (lib/page.js:18-55, 1070-1075): empty trace, no result, the interval timer running when steps are recorded. */
    constructor (ignoreSsl: bool, recordEvery: Option<int>, timeout: Option<int>)
      ensures Valid()
      ensures this.ignoreSsl == ignoreSsl && this.recordEvery == recordEvery && this.timeout == timeout
      ensures CurrentTrace() == EmptyTrace()
      ensures result.None? && loadedCalls == 0
      ensures started.None? && currentStep == 0 && filmstrip == [] && rendering == []
      ensures intervalArmed == IsNonZero(recordEvery) && !timeoutArmed
    {
      this.ignoreSsl := ignoreSsl;
      this.recordEvery := recordEvery;
      this.timeout := timeout;
      requests := map[];
      resources := [];
      requestCount := 0;
      size := 0;
      transferSize := 0;
      document := None;
      firstRequest := None;
      lastRequest := None;
      timing := None;
      result := None;
      loadedCalls := 0;
      started := None;
      currentStep := 0;
      filmstrip := [];
      rendering := [];
      timeoutArmed := false;
      intervalArmed := IsNonZero(recordEvery);
    }

    /** A request-sent event (lib/page.js:145-155). */
    method OnRequestWillBeSent(ev: RequestSent)
      requires Valid()
      modifies this`requests, this`resources, this`requestCount
      ensures Valid()
      ensures CurrentTrace() == AfterRequest(old(CurrentTrace()), ev)
    {
      TotalsAppend(resources, NewResource(ev));
      requests := requests[ev.requestId := |resources|];
      resources := resources + [NewResource(ev)];
      requestCount := requestCount + 1;
    }

    /**
     * A response-received event (lib/page.js:160-223) for a request the page
     * has seen: the network entries become what `AfterResponse` says, whose
     * timing part is the value the aggregation loop `AggregateTiming` computes.
     */
    method OnResponseReceived(ev: ResponseReceived)
      requires Valid()
      requires ev.requestId in requests
      modifies this`resources, this`size, this`transferSize, this`document, this`timing, this`firstRequest, this`lastRequest
      ensures Valid()
      ensures CurrentTrace() == AfterResponse(old(CurrentTrace()), ev)
    {
      var u := AfterResponse(CurrentTrace(), ev);
      resources, size, transferSize, document, timing, firstRequest, lastRequest :=
        u.resources, u.size, u.transferSize, u.document, u.timing, u.firstRequest, u.lastRequest;
      assert CurrentTrace() == u;
    }

    /**
     * `end` (lib/page.js:946-956): the first call records its outcome and
     * reports the page loaded; every later call changes nothing.
     */
    method End(outcome: Outcome)
      requires Valid()
      requires outcome == Success ==> document.Some?
      modifies this`result, this`loadedCalls
      ensures Valid()
      ensures result == Settle(old(result), outcome)
      ensures loadedCalls == old(loadedCalls) + (if old(result).None? then 1 else 0)
    {
      if result.Some? {
        return;
      }
      result := Some(outcome);
      loadedCalls := loadedCalls + 1;
    }

    /**
     * The load event (lib/page.js:224-270): stops the interval timer; with no
     * document the page fails. With a document and no steps recorded it
     * succeeds; when steps are recorded it only captures a final step, and
     * the page succeeds when that step's render returns (`OnStepRendered`),
     * unless something else decides it first. Before the page has started
     * that capture returns at once without calling back, so the page is not
     * ended.
     */
    method OnLoadEventFired(now: int)
      requires Valid()
      modifies this`intervalArmed, this`result, this`loadedCalls, this`currentStep, this`rendering
      ensures Valid()
      ensures !intervalArmed
      ensures result == if old(result).Some? then old(result)
                        else if document.None? then Some(Failed)
                        else if IsNonZero(recordEvery) then None
                        else Some(Success)
      ensures rendering == if document.Some? && IsNonZero(recordEvery) && started.Some?
                           then old(rendering) + [Capture(old(currentStep) + 1, now - started.value, true)]
                           else old(rendering)
    {
      intervalArmed := false;
      if document.None? {
        End(Failed);
      } else if IsNonZero(recordEvery) {
        CaptureStep(now, true);
      } else {
        End(Success);
      }
    }

    /**
     * A certificate error (lib/page.js:363-390): ignored (the browser is told
     * to continue) when `ignoreSSL` is true, otherwise the page ends insecure.
     */
    method OnCertificateError()
      requires Valid()
      modifies this`result, this`loadedCalls
      ensures Valid()
      ensures result == if ignoreSsl then old(result) else Settle(old(result), Insecure)
    {
      if !ignoreSsl {
        End(Insecure);
      }
    }

    /**
     * Configuration done, navigation begins (lib/page.js:575-593): the start
     * time is taken and the timeout timer armed when a timeout is set.
     * Configuration completes as `Bootstrap.Navigates` says, with the guard
     * on `emulate`'s final callback in place.
     */
    method StartNavigation(now: int)
      requires Valid()
      requires started.None?
      modifies this`started, this`timeoutArmed
      ensures Valid()
      ensures started == Some(now)
      ensures timeoutArmed == IsNonZero(timeout)
    {
      started := Some(now);
      timeoutArmed := IsNonZero(timeout);
    }

    /** The timeout timer fires (lib/page.js:582-591): the page ends with a timeout. */
    method OnTimeout()
      requires Valid()
      requires timeoutArmed
      modifies this`timeoutArmed, this`result, this`loadedCalls
      ensures Valid()
      ensures !timeoutArmed
      ensures result == Settle(old(result), Timeout)
    {
      timeoutArmed := false;
      End(Timeout);
    }

    /** The filmstrip interval timer fires (lib/page.js:1073): one step is captured, with no callback. */
    method OnIntervalTick(now: int)
      requires Valid()
      requires intervalArmed
      modifies this`currentStep, this`rendering
      ensures Valid()
      ensures started.None? ==> rendering == old(rendering)
      ensures started.Some? ==> rendering == old(rendering) + [Capture(old(currentStep) + 1, now - started.value, false)]
    {
      CaptureStep(now, false);
    }

    /**
     * `captureStep` (lib/page.js:1032-1047): nothing before the page has
     * started; afterwards the step counter goes up by one and a step with
     * that index and the delay since the start is sent to be rendered.
     * `final` says whether the caller passed the callback that ends the page.
     */
    method CaptureStep(now: int, final: bool)
      requires Valid()
      requires final ==> document.Some?
      modifies this`currentStep, this`rendering
      ensures Valid()
      ensures started.None? ==> currentStep == old(currentStep) && rendering == old(rendering)
      ensures started.Some? ==> currentStep == old(currentStep) + 1
      ensures started.Some? ==> rendering == old(rendering) + [Capture(currentStep, now - started.value, final)]
    {
      if started.None? {
        return;
      }
      currentStep := currentStep + 1;
      rendering := rendering + [Capture(currentStep, now - started.value, final)];
    }

    /**
     * The oldest pending render returns (lib/page.js:1049-1063): its step,
     * with the rendered image if there is one, is appended to the
     * filmstrip, and a final step then ends the page with success.
     */
    method OnStepRendered(frame: Option<seq<bv8>>)
      requires Valid()
      requires rendering != []
      modifies this`filmstrip, this`rendering, this`result, this`loadedCalls
      ensures Valid()
      ensures filmstrip == old(filmstrip) + [Step(old(rendering[0].index), old(rendering[0].delay), frame)]
      ensures rendering == old(rendering[1..])
      ensures result == if old(rendering[0].final) then Settle(old(result), Success) else old(result)
    {
      var c := rendering[0];
      filmstrip := filmstrip + [Step(c.index, c.delay, frame)];
      rendering := rendering[1..];
      if c.final {
        End(Success);
      }
    }

    /** The timers `disable` clears (lib/page.js:63-69); its protocol calls are not modelled. */
    method Disable()
      requires Valid()
      modifies this`timeoutArmed, this`intervalArmed
      ensures Valid()
      ensures !timeoutArmed && !intervalArmed
    {
      timeoutArmed := false;
      intervalArmed := false;
    }

    /** `getResult` (lib/page.js:961-966). */
    function GetResult(): Option<Outcome>
      reads this
    {
      result
    }

    /**
     * `getTiming` (lib/page.js:763-790). `requestId` is the first argument
     * when it is not the callback. A truthy id looks up the timing block of
     * that request's response (none for an unknown id or a response without
     * one); called with the callback alone, the aggregate timing. A falsy
     * first argument is taken for the callback and called, which throws.
     */
    function GetTiming(requestId: Option<Value>): (r: TimingReply)
      reads this
      requires Valid()
      ensures requestId.None? ==> r == Replied(timing)
      ensures requestId.Some? && !Truthy(requestId.value) ==> r == NotCallable
      ensures requestId.Some? && Truthy(requestId.value) && ToJsString(requestId.value) !in requests ==> r == Replied(None)
      ensures requestId.Some? && Truthy(requestId.value) && ToJsString(requestId.value) in requests ==>
                r == Replied(match resources[requests[ToJsString(requestId.value)]].response
                             case None => None
                             case Some(response) => response.timing)
    {
      match requestId
      case None => Replied(timing)
      case Some(v) =>
        if !Truthy(v) then NotCallable
        else
          var id := ToJsString(v);
          if id in requests && resources[requests[id]].response.Some? && resources[requests[id]].response.value.timing.Some?
          then Replied(resources[requests[id]].response.value.timing)
          else Replied(None)
    }
  }

  /**
   * A page whose document arrives and whose certificate check fails before
   * the load event ends insecure, reports itself loaded once, and the load
   * event then changes nothing.
   */
  method CertificateErrorBeatsLoad(ev: RequestSent, response: ResponseReceived) returns (result: Option<Outcome>, loadedCalls: nat)
    requires response.requestId == ev.requestId
    ensures result == Some(Insecure) && loadedCalls == 1
  {
    var page := new ChromePage(false, None, Some(30000));
    page.StartNavigation(0);
    page.OnRequestWillBeSent(ev);
    page.OnResponseReceived(response);
    page.OnCertificateError();
    page.OnLoadEventFired(10);
    result, loadedCalls := page.GetResult(), page.loadedCalls;
  }

  /**
   * A page recording steps, with its document and nothing being rendered,
   * whose load event fires but whose timeout expires before the final
   * step's render returns, ends with a timeout; the render then only adds
   * its step to the filmstrip.
   */
  method TimeoutBeatsFinalStep(page: ChromePage, now: int, frame: Option<seq<bv8>>)
    requires page.Valid()
    requires page.document.Some? && IsNonZero(page.recordEvery) && page.started.Some?
    requires page.result.None? && page.timeoutArmed && page.rendering == []
    modifies page
    ensures page.result == Some(Timeout) && page.loadedCalls == 1
    ensures page.filmstrip == old(page.filmstrip) + [Step(old(page.currentStep) + 1, now - old(page.started.value), frame)]
  {
    page.OnLoadEventFired(now);
    page.OnTimeout();
    page.OnStepRendered(frame);
  }
}
