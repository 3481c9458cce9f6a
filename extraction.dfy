// One extraction attempt (`_extract_scrape_content`): set up the session,
// open a page, send the headers, navigate, classify the response, wait for
// the readiness selector and read the rendered content. The page is closed
// on every path once it was opened. Every failure becomes a `ScrapingError`
// except an HTTP error status, which becomes a `SkipScrape`.

module Extraction {
  import opened Settings
  import opened Browser
  import opened Session

  /** The arguments of one extraction. `simulateBehavior` is accepted and never read. */
  datatype Request = Request(
    url: string,
    selector: string,
    timeout: int,
    waitUntil: string,
    simulateBehavior: bool,
    headers: Option<map<string, string>>)

  /** What the message of a `ScrapingError` reports. */
  datatype Cause =
    | TimedOut         // an `asyncio.TimeoutError` was raised
    | ContextMissing   // no context after setup
    | NoResponse       // navigation returned no response
    | Foreign          // any other exception

  /** The scraper's two exception classes. */
  datatype Exc = SkipScrape(status: int) | ScrapingError(cause: Cause)

  /** How an attempt ends: with the parsed document, or with an exception. */
  datatype Outcome = Scraped(doc: Document) | Raised(exc: Exc)

  const ValidWaitUntil: set<string> := {"load", "domcontentloaded", "networkidle", "commit"}
  const DefaultWaitUntil: string := "domcontentloaded"

  /** The navigation policy actually used: a known one is kept, anything else becomes the default. */
  function NormalizeWaitUntil(waitUntil: string): (r: string)
    ensures r in ValidWaitUntil
    ensures waitUntil in ValidWaitUntil ==> r == waitUntil
    ensures waitUntil !in ValidWaitUntil ==> r == DefaultWaitUntil
  {
    if waitUntil in ValidWaitUntil then waitUntil else DefaultWaitUntil
  }

  lemma NormalizeIdempotent(waitUntil: string)
    ensures NormalizeWaitUntil(NormalizeWaitUntil(waitUntil)) == NormalizeWaitUntil(waitUntil)
  {
  }

  /**
   * The verdict on a navigation's response: none means the attempt goes on,
   * a missing response is retryable and an HTTP error status is a skip.
   */
  function ClassifyResponse(response: Option<int>): (r: Option<Exc>)
    ensures r.None? <==> response.Some? && response.value < 400
    ensures r == Some(ScrapingError(NoResponse)) <==> response.None?
    ensures forall status :: r == Some(SkipScrape(status)) <==> response == Some(status) && status >= 400
  {
    match response
    case None => Some(ScrapingError(NoResponse))
    case Some(status) => if status >= 400 then Some(SkipScrape(status)) else None
  }

  /** The `except` clauses: a timeout and any other exception both become a `ScrapingError`. */
  function Wrap(f: Fault): (e: Exc)
    ensures e.ScrapingError?
    ensures e.cause == TimedOut <==> f == Timeout
  {
    match f
    case Timeout => ScrapingError(TimedOut)
    case Failure => ScrapingError(Foreign)
  }

  /**
   * The calls made on an open page, in order: the timeouts, the headers, the
   * navigation with the normalised policy, the wait for the selector and the
   * content read. An attempt makes a prefix of them.
   */
  function PageCalls(req: Request, userAgent: string): seq<Op> {
    [ SetTimeouts(req.timeout, PageLoadTimeout),
      SetExtraHeaders(userAgent, req.headers),
      Goto(req.url, NormalizeWaitUntil(req.waitUntil), PageLoadTimeout),
      WaitForSelector(req.selector, req.timeout),
      Content ]
  }

  /** The outcome of the steps taken on an open page, and how many of the page calls they made. */
  datatype PageRun = PageRun(outcome: Outcome, calls: nat)

  /** The body of the `try` once the page is open. */
  function OnPage(req: Request, s: AttemptScript): (r: PageRun)
    ensures 1 <= r.calls <= |PageCalls(req, s.userAgent)|
  {
    match s.setTimeouts
    case Raise(f) => PageRun(Raised(Wrap(f)), 1)
    case Return(_) =>
      match s.setHeaders
      case Raise(f) => PageRun(Raised(Wrap(f)), 2)
      case Return(_) =>
        match s.goto
        case Raise(f) => PageRun(Raised(Wrap(f)), 3)
        case Return(response) =>
          match ClassifyResponse(response)
          case Some(e) => PageRun(Raised(e), 3)
          case None =>
            match s.waitForSelector
            case Raise(f) => PageRun(Raised(Wrap(f)), 4)
            case Return(_) =>
              match s.content
              case Raise(f) => PageRun(Raised(Wrap(f)), 5)
              case Return(html) => PageRun(Scraped(Soup(html)), 5)
  }

  /** The session after an attempt, how it ended, and the calls it made. */
  datatype AttemptRun = AttemptRun(handles: Handles, outcome: Outcome, ops: seq<Op>)

  /** `_extract_scrape_content` from session state `h` in world `s`. */
  function Attempt(h: Handles, req: Request, s: AttemptScript): AttemptRun {
    var setup := Setup(h, s.setup);
    if setup.fault.Some? then
      AttemptRun(setup.handles, Raised(Wrap(setup.fault.value)), setup.ops)
    else if setup.handles.context.None? then
      AttemptRun(setup.handles, Raised(ScrapingError(ContextMissing)), setup.ops)
    else
      match s.newPage
      case Raise(f) => AttemptRun(setup.handles, Raised(Wrap(f)), setup.ops + [NewPage])
      case Return(_) =>
        // `finally`: the open page is closed; a failing close is only logged
        var body := OnPage(req, s);
        AttemptRun(setup.handles, body.outcome,
                   setup.ops + [NewPage] + PageCalls(req, s.userAgent)[..body.calls] + [ClosePage])
  }

  /** The attempt opened a page: setup raised nothing and `new_page` returned. */
  predicate PageOpened(h: Handles, s: AttemptScript) {
    Setup(h, s.setup).fault.None? && s.newPage.Return?
  }

  /** The attempt reached navigation: the page was opened, its timeouts set and the headers sent. */
  predicate Navigated(h: Handles, s: AttemptScript) {
    PageOpened(h, s) && s.setTimeouts.Return? && s.setHeaders.Return?
  }

  /** An HTTP status of 400 or more is a skip, and it is the only way to get one. */
  lemma SkipIffErrorStatus(h: Handles, req: Request, s: AttemptScript, status: int)
    ensures Attempt(h, req, s).outcome == Raised(SkipScrape(status)) <==>
      Navigated(h, s) && s.goto == Return(Some(status)) && status >= 400
  {
    SetupSucceeds(h, s.setup);
  }

  /** A navigation that returns no response raises a `ScrapingError`. */
  lemma NoResponseRetryable(h: Handles, req: Request, s: AttemptScript)
    requires Navigated(h, s) && s.goto == Return(None)
    ensures Attempt(h, req, s).outcome == Raised(ScrapingError(NoResponse))
  {
    SetupSucceeds(h, s.setup);
  }

  /**
   * An attempt yields a document exactly when it navigated, the status was
   * below 400, the selector appeared and the content was read; the document
   * holds that content.
   */
  lemma ScrapedIffAllStepsSucceed(h: Handles, req: Request, s: AttemptScript, html: string)
    ensures Attempt(h, req, s).outcome == Scraped(Soup(html)) <==>
      && Navigated(h, s)
      && s.goto.Return? && s.goto.value.Some? && s.goto.value.value < 400
      && s.waitForSelector.Return?
      && s.content == Return(html)
  {
    SetupSucceeds(h, s.setup);
  }

  /** Every exception an attempt raises is a skip or a `ScrapingError`, and a skip only after navigation. */
  lemma RaisedIsClassified(h: Handles, req: Request, s: AttemptScript)
    requires Attempt(h, req, s).outcome.Raised?
    ensures Attempt(h, req, s).outcome.exc.SkipScrape? ==> Navigated(h, s) && s.goto.Return?
    ensures !Navigated(h, s) ==> Attempt(h, req, s).outcome.exc.ScrapingError?
  {
    SetupSucceeds(h, s.setup);
  }

  /**
   * An opened page is closed exactly once, as the attempt's last call; an
   * attempt that opened no page closes none.
   */
  lemma PageClosedOnEveryPath(h: Handles, req: Request, s: AttemptScript)
    ensures var ops := Attempt(h, req, s).ops;
      multiset(ops)[ClosePage] == (if PageOpened(h, s) then 1 else 0)
      && (PageOpened(h, s) ==> ops[|ops| - 1] == ClosePage)
  {
    SetupSucceeds(h, s.setup);
    SetupOpsOnly(h, s.setup);
    var setup := Setup(h, s.setup);
    assert ClosePage !in setup.ops;
    if PageOpened(h, s) {
      var calls := PageCalls(req, s.userAgent)[..OnPage(req, s).calls];
      assert ClosePage !in calls;
      assert Attempt(h, req, s).ops == setup.ops + [NewPage] + calls + [ClosePage];
    } else if setup.fault.None? {
      assert Attempt(h, req, s).ops == setup.ops + [NewPage];
    }
  }

  /** Whether closing the page fails never changes the attempt. */
  lemma CloseFailureIgnored(h: Handles, req: Request, s: AttemptScript, c: Call<()>)
    ensures Attempt(h, req, s.(closePage := c)) == Attempt(h, req, s)
  {
  }

  /**
   * Navigation always uses a known policy, the normalised one, and the
   * headers sent are the merged ones.
   */
  lemma NavigationArguments(h: Handles, req: Request, s: AttemptScript)
    ensures forall op :: op in Attempt(h, req, s).ops && op.Goto? ==>
      op == Goto(req.url, NormalizeWaitUntil(req.waitUntil), PageLoadTimeout) && op.waitUntil in ValidWaitUntil
    ensures forall op :: op in Attempt(h, req, s).ops && op.SetExtraHeaders? ==>
      op == SetExtraHeaders(s.userAgent, req.headers)
  {
    SetupSucceeds(h, s.setup);
    SetupOpsOnly(h, s.setup);
  }

  /** An attempt changes the session only through setup, so it keeps the nesting order. */
  lemma AttemptSession(h: Handles, req: Request, s: AttemptScript)
    ensures Attempt(h, req, s).handles == Setup(h, s.setup).handles
    ensures Nested(h) ==> Nested(Attempt(h, req, s).handles)
  {
    if Nested(h) {
      SetupKeepsNested(h, s.setup);
    }
  }
}
