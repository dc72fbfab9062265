/**
 * Whether a page's configuration step reaches navigation (lib/page.js:392-596):
 * `bootstrap` collects the configuration promises, among them the one from
 * `emulate`, and navigates once they all settle.
 */
module Bootstrap {
  import opened Optional

  /** The viewport options `emulate` inspects; `None` is a missing or null option. */
  datatype Viewport = Viewport(
    width: Option<int>,
    height: Option<int>,
    mobile: bool,
    orientation: Option<string>,
    fitWindow: bool)

  /** The viewport the client's defaults give every page (lib/index.js:34-39). */
  const ClientDefaults: Viewport := Viewport(None, None, false, None, false)

  /** Device emulation is asked for: some viewport option is truthy (lib/page.js:862-866). */
  predicate EmulationRequested(v: Viewport) {
    IsNonZero(v.width) || IsNonZero(v.height) || v.mobile
    || (v.orientation.Some? && v.orientation.value != "") || v.fitWindow
  }

  /** How a call to `emulate` ends: it returns a promise, or it throws before returning. */
  datatype Ending = Returns | Throws

  /**
   * `emulate` as `bootstrap` calls it, without a callback (lib/page.js:420,
   * 859-941): when emulation is asked for it returns a promise whose
   * failures its own guarded callbacks absorb; otherwise it calls the
   * missing callback at its end, which throws.
   */
  function EmulateAsWritten(v: Viewport): Ending {
    if EmulationRequested(v) then Returns else Throws
  }

  /** Navigation happens exactly when `emulate` returns, since the throw leaves `bootstrap` before its `Promise.all`. */
  function NavigatesAsWritten(v: Viewport): bool {
    EmulateAsWritten(v) == Returns
  }

  /** As written, a page navigates only when some viewport option is given, and never with the client's defaults. */
  lemma NavigatesAsWrittenOnlyWithViewport(v: Viewport)
    ensures NavigatesAsWritten(v) <==> EmulationRequested(v)
    ensures !NavigatesAsWritten(ClientDefaults)
  {
  }

  /** `emulate` with its final call guarded like its others (`if(fn) fn(null)`): it always returns. */
  function Emulate(v: Viewport): Ending {
    Returns
  }

  function Navigates(v: Viewport): bool {
    Emulate(v) == Returns
  }

  /** With the guard, every page navigates, the client's defaults included, and it agrees with the code wherever that navigates. */
  lemma EveryPageNavigates(v: Viewport)
    ensures Navigates(v)
    ensures Navigates(ClientDefaults)
    ensures NavigatesAsWritten(v) ==> Navigates(v)
  {
  }
}
