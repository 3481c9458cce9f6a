// The scraper's constants and the browser engine as the scraper sees it.
//
// Every call the scraper makes into Playwright either returns a value or
// raises. Which of the two happens is not up to the scraper, so each
// operation takes a script: a value that says, call by call, what the
// outside world does. A trace of the calls made lets the model state what
// the scraper asked the browser to do (which pages it closed, which
// navigation policy it used).

module Settings {
  /** Attempts made by the retry governor before it gives up. */
  const MaxRetries: nat := 5
  /** Ceiling of the wait between two attempts, in seconds. */
  const MaxWaitBetweenReq: nat := 5
  /** Floor of the wait between two attempts, in seconds. */
  const MinWaitBetweenReq: nat := 2
  /** Default selector timeout, in milliseconds. */
  const RequestTimeout: int := 60000
  /** Navigation timeout, in milliseconds. */
  const PageLoadTimeout: int := 60000
}

module Browser {
  datatype Option<+T> = None | Some(value: T)

  /** An opaque Playwright object: the driver, a browser, a context or a page. */
  datatype Handle = Handle(id: nat)

  /** A parsed document. Parsing is taken to keep the rendered HTML as it is. */
  datatype Document = Soup(html: string)

  /** An exception raised by a foreign call: `asyncio.TimeoutError`, or any other `Exception`. */
  datatype Fault = Timeout | Failure

  /** The result of one foreign call. */
  datatype Call<+T> = Return(value: T) | Raise(fault: Fault)

  /** What the outside world does while the session is being set up. */
  datatype SetupScript = SetupScript(
    start: Call<Handle>,          // starting the Playwright driver
    launch: Call<Handle>,         // launching Firefox
    newContext: Call<Handle>,     // opening a browsing context
    routeAnalytics: Call<()>,     // blocking analytics requests
    routeAds: Call<()>)           // blocking advertising requests

  /** What the outside world does during one extraction attempt. */
  datatype AttemptScript = AttemptScript(
    setup: SetupScript,
    newPage: Call<Handle>,
    setTimeouts: Call<()>,        // setting the page's default and navigation timeouts
    userAgent: string,            // the random user agent drawn for the headers
    setHeaders: Call<()>,
    goto: Call<Option<int>>,      // Return(None): no response; Return(Some(status))
    waitForSelector: Call<()>,
    content: Call<string>,        // the rendered HTML
    closePage: Call<()>)

  /** What the outside world does while the session is torn down. */
  datatype CloseScript = CloseScript(
    closeContext: Call<()>,
    closeBrowser: Call<()>,
    stopDriver: Call<()>)

  /** One call into the browser engine, with the arguments the model cares about. */
  datatype Op =
    | StartDriver
    | LaunchBrowser
    | NewContext
    | Route(pattern: string)
    | NewPage
    | SetTimeouts(timeout: int, navigationTimeout: int)
    | SetExtraHeaders(userAgent: string, overrides: Option<map<string, string>>)  // the headers get_headers builds from these
    | Goto(url: string, waitUntil: string, timeout: int)
    | WaitForSelector(selector: string, timeout: int)
    | Content
    | ClosePage
    | CloseContext
    | CloseBrowser
    | StopDriver
}
