// The long-lived session of a scraper: the Playwright driver, one Firefox
// browser and one browsing context. `setup_browser` creates what is missing;
// `close` releases what is there, context first.

module Session {
  import opened Browser

  /** The three optional handles a scraper holds. */
  datatype Handles = Handles(playwright: Option<Handle>, browser: Option<Handle>, context: Option<Handle>)

  /** The state of a new scraper, and of one whose session was closed cleanly. */
  const Closed: Handles := Handles(None, None, None)

  /**
   * The order in which handles are acquired and released: a context only
   * inside a browser, a browser only with a running driver.
   */
  predicate Nested(h: Handles) {
    && (h.context.Some? ==> h.browser.Some?)
    && (h.browser.Some? ==> h.playwright.Some?)
  }

  const AnalyticsPattern: string := "**/analytics**"
  const AdsPattern: string := "**/ads**"

  /** The handles after a setup, the exception it raised if any, and the calls it made. */
  datatype SetupRun = SetupRun(handles: Handles, fault: Option<Fault>, ops: seq<Op>)

  /**
   * `setup_browser`: start a driver and launch a browser when there is no
   * browser, then open a context and block analytics and advertising
   * requests when there is no context. A failing call raises, and whatever
   * was assigned before it stays assigned.
   */
  function Setup(h: Handles, s: SetupScript): SetupRun {
    if h.browser.None? then
      match s.start
      case Raise(f) => SetupRun(h, Some(f), [StartDriver])
      case Return(d) =>
        match s.launch
        case Raise(f) => SetupRun(h.(playwright := Some(d)), Some(f), [StartDriver, LaunchBrowser])
        case Return(b) =>
          SetupContext(h.(playwright := Some(d), browser := Some(b)), s, [StartDriver, LaunchBrowser])
    else
      SetupContext(h, s, [])
  }

  /** The second half of `setup_browser`, after `ops` were made. */
  function SetupContext(h: Handles, s: SetupScript, ops: seq<Op>): SetupRun {
    if h.context.None? then
      match s.newContext
      case Raise(f) => SetupRun(h, Some(f), ops + [NewContext])
      case Return(c) =>
        var withContext := h.(context := Some(c));
        match s.routeAnalytics
        case Raise(f) => SetupRun(withContext, Some(f), ops + [NewContext, Route(AnalyticsPattern)])
        case Return(_) =>
          var ops' := ops + [NewContext, Route(AnalyticsPattern), Route(AdsPattern)];
          match s.routeAds
          case Raise(f) => SetupRun(withContext, Some(f), ops')
          case Return(_) => SetupRun(withContext, None, ops')
    else
      SetupRun(h, None, ops)
  }

  /** The calls a setup makes. */
  predicate SetupOp(op: Op) {
    op.StartDriver? || op.LaunchBrowser? || op.NewContext? || op.Route?
  }

  /** Setup makes setup calls only. */
  lemma SetupOpsOnly(h: Handles, s: SetupScript)
    ensures forall op :: op in Setup(h, s).ops ==> SetupOp(op)
  {
  }

  /** Setup never replaces a browser or a context that is already there, nor the driver of a live browser. */
  lemma SetupKeepsLiveHandles(h: Handles, s: SetupScript)
    ensures h.browser.Some? ==>
      Setup(h, s).handles.browser == h.browser && Setup(h, s).handles.playwright == h.playwright
    ensures h.context.Some? ==> Setup(h, s).handles.context == h.context
  {
  }

  /** A setup that raises nothing leaves both a browser and a context behind. */
  lemma SetupSucceeds(h: Handles, s: SetupScript)
    ensures Setup(h, s).fault.None? ==> Setup(h, s).handles.browser.Some? && Setup(h, s).handles.context.Some?
  {
  }

  /** Once a setup succeeded, setting up again makes no call and changes nothing, whatever the world does. */
  lemma SetupIdempotent(h: Handles, s: SetupScript, s': SetupScript)
    requires Setup(h, s).fault.None?
    ensures Setup(Setup(h, s).handles, s') == SetupRun(Setup(h, s).handles, None, [])
  {
  }

  /** Setup acquires handles in nesting order, whatever fails. */
  lemma SetupKeepsNested(h: Handles, s: SetupScript)
    requires Nested(h)
    ensures Nested(Setup(h, s).handles)
  {
  }

  /**
   * When an earlier launch failed, the driver it started is still held, yet
   * setup starts another one and overwrites the handle without stopping the
   * first.
   */
  lemma SetupRestartsDriverAfterFailedLaunch(h: Handles, s: SetupScript)
    requires h.playwright.Some? && h.browser.None?
    requires s.start.Return?
    ensures Setup(h, s).handles.playwright == Some(s.start.value)
    ensures StartDriver in Setup(h, s).ops
  {
  }

  /** The handles after a close and the calls it made. */
  datatype CloseRun = CloseRun(handles: Handles, ops: seq<Op>)

  /**
   * `close`: close the context, then the browser, then stop the driver,
   * clearing each handle once its call returned. The three steps share one
   * `try`, so the first failing call ends the close; the exception is logged
   * and swallowed.
   */
  function Close(h: Handles, s: CloseScript): CloseRun {
    if h.context.Some? then
      match s.closeContext
      case Raise(_) => CloseRun(h, [CloseContext])
      case Return(_) => CloseBrowserStep(h.(context := None), s, [CloseContext])
    else
      CloseBrowserStep(h, s, [])
  }

  function CloseBrowserStep(h: Handles, s: CloseScript, ops: seq<Op>): CloseRun {
    if h.browser.Some? then
      match s.closeBrowser
      case Raise(_) => CloseRun(h, ops + [CloseBrowser])
      case Return(_) => StopDriverStep(h.(browser := None), s, ops + [CloseBrowser])
    else
      StopDriverStep(h, s, ops)
  }

  function StopDriverStep(h: Handles, s: CloseScript, ops: seq<Op>): CloseRun {
    if h.playwright.Some? then
      match s.stopDriver
      case Raise(_) => CloseRun(h, ops + [StopDriver])
      case Return(_) => CloseRun(h.(playwright := None), ops + [StopDriver])
    else
      CloseRun(h, ops)
  }

  /** A close whose calls all return leaves no handle behind. */
  lemma CloseClearsAll(h: Handles, s: CloseScript)
    requires s.closeContext.Return? && s.closeBrowser.Return? && s.stopDriver.Return?
    ensures Close(h, s).handles == Closed
  {
  }

  /** A failure closing one handle leaves it and every later handle untouched. */
  lemma CloseStopsAtFirstFailure(h: Handles, s: CloseScript)
    ensures h.context.Some? && s.closeContext.Raise? ==> Close(h, s).handles == h
    ensures (h.context.None? || s.closeContext.Return?) && h.browser.Some? && s.closeBrowser.Raise? ==>
      Close(h, s).handles == h.(context := None)
    ensures Close(h, s).handles.playwright.None? ==>
      h.playwright.None? || s.stopDriver.Return?
  {
  }

  /** Close releases handles in nesting order, whatever fails, and makes no call on a closed session. */
  lemma CloseKeepsNested(h: Handles, s: CloseScript)
    requires Nested(h)
    ensures Nested(Close(h, s).handles)
    ensures Close(Closed, s) == CloseRun(Closed, [])
  {
  }
}
