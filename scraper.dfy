// The scraper object and the module-level entry points. A `WebScraper`
// holds the session handles and updates them in place; each method is
// proved against the function of the same operation in the modules it
// imports, and the ghost `trace` collects every call made into the browser.

module Scraper {
  import opened Settings
  import opened Browser
  import opened Headers
  import opened Session
  import opened Extraction
  import opened Backoff
  import opened Governor

  class WebScraper {
    var playwrightInstance: Option<Handle>
    var browser: Option<Handle>
    var context: Option<Handle>
    /** Initialised and never read or updated again. */
    var pagesScraped: nat
    /** Initialised and never read: no restart policy is applied. */
    const restartBrowserEvery: nat
    /** The calls made into the browser engine, oldest first. */
    ghost var trace: seq<Op>

    /** The session handles the scraper holds. */
    function State(): Handles
      reads this
    {
      Handles(playwrightInstance, browser, context)
    }

    /** Handles are held in nesting order: a context inside a browser, a browser with its driver. */
    ghost predicate Valid()
      reads this
    {
      Nested(State())
    }

    /** A new scraper holds no handle and has made no call. */
    constructor ()
      ensures State() == Closed && trace == []
      ensures pagesScraped == 0 && restartBrowserEvery == 10
      ensures Valid()
    {
      playwrightInstance := None;
      browser := None;
      context := None;
      pagesScraped := 0;
      restartBrowserEvery := 10;
      trace := [];
    }

    /**
     * `get_headers`: the defaults with the user agent drawn, updated with
     * the caller's overrides when there are any.
     */
    method GetHeaders(userAgent: string, headers: Option<map<string, string>>) returns (h: map<string, string>)
      ensures h == HeadersFor(userAgent, headers)
      ensures h.Keys == DefaultHeaderNames() + Overrides(headers).Keys
      ensures forall k :: k in Overrides(headers) ==> h[k] == Overrides(headers)[k]
      ensures "User-Agent" !in Overrides(headers) ==> h["User-Agent"] == userAgent
    {
      h := DefaultHeaders(userAgent);
      if headers.Some? && headers.value != map[] {
        h := Update(h, headers.value);
      }
      HeaderMerge(userAgent, headers);
    }

    /** `setup_browser`: the handles and calls of `Setup`; the exception it raises, if any, is returned. */
    method SetupBrowser(s: SetupScript) returns (fault: Option<Fault>)
      modifies this
      ensures State() == Setup(old(State()), s).handles
      ensures fault == Setup(old(State()), s).fault
      ensures trace == old(trace) + Setup(old(State()), s).ops
      ensures pagesScraped == old(pagesScraped)
      ensures old(Valid()) ==> Valid()
    {
      if old(Valid()) {
        SetupKeepsNested(State(), s);
      }
      if browser.None? {
        trace := trace + [StartDriver];
        if s.start.Raise? {
          return Some(s.start.fault);
        }
        playwrightInstance := Some(s.start.value);
        trace := trace + [LaunchBrowser];
        if s.launch.Raise? {
          return Some(s.launch.fault);
        }
        browser := Some(s.launch.value);
      }
      if context.None? {
        trace := trace + [NewContext];
        if s.newContext.Raise? {
          return Some(s.newContext.fault);
        }
        context := Some(s.newContext.value);
        trace := trace + [Route(AnalyticsPattern)];
        if s.routeAnalytics.Raise? {
          return Some(s.routeAnalytics.fault);
        }
        trace := trace + [Route(AdsPattern)];
        if s.routeAds.Raise? {
          return Some(s.routeAds.fault);
        }
      }
      return None;
    }

    /**
     * `page.set_extra_http_headers(self.get_headers(headers))`: builds the
     * headers and records the call by the two arguments they are built from.
     */
    method SetExtraHttpHeaders(userAgent: string, headers: Option<map<string, string>>)
      modifies this
      ensures trace == old(trace) + [SetExtraHeaders(userAgent, headers)]
      ensures State() == old(State()) && pagesScraped == old(pagesScraped)
    {
      var sent := GetHeaders(userAgent, headers);
      trace := trace + [SetExtraHeaders(userAgent, headers)];
    }

    /** The body of the `try` once a page is open: the page calls of `OnPage`, its outcome, and no change to the session. */
    method OnOpenPage(req: Request, s: AttemptScript) returns (outcome: Outcome)
      modifies this
      ensures outcome == OnPage(req, s).outcome
      ensures trace == old(trace) + PageCalls(req, s.userAgent)[..OnPage(req, s).calls]
      ensures State() == old(State()) && pagesScraped == old(pagesScraped)
    {
      var calls := PageCalls(req, s.userAgent);
      trace := trace + [SetTimeouts(req.timeout, PageLoadTimeout)];
      assert trace == old(trace) + calls[..1];
      if s.setTimeouts.Raise? {
        return Raised(Wrap(s.setTimeouts.fault));
      }
      SetExtraHttpHeaders(s.userAgent, req.headers);
      assert trace == old(trace) + calls[..2];
      if s.setHeaders.Raise? {
        return Raised(Wrap(s.setHeaders.fault));
      }
      var waitUntil := req.waitUntil;
      if waitUntil !in ValidWaitUntil {
        waitUntil := DefaultWaitUntil;
      }
      trace := trace + [Goto(req.url, waitUntil, PageLoadTimeout)];
      assert trace == old(trace) + calls[..3];
      if s.goto.Raise? {
        return Raised(Wrap(s.goto.fault));
      }
      var response := s.goto.value;
      if response.None? {
        return Raised(ScrapingError(NoResponse));
      }
      if response.value >= 400 {
        return Raised(SkipScrape(response.value));
      }
      trace := trace + [WaitForSelector(req.selector, req.timeout)];
      assert trace == old(trace) + calls[..4];
      if s.waitForSelector.Raise? {
        return Raised(Wrap(s.waitForSelector.fault));
      }
      trace := trace + [Content];
      assert trace == old(trace) + calls[..5];
      if s.content.Raise? {
        return Raised(Wrap(s.content.fault));
      }
      return Scraped(Soup(s.content.value));
    }

    /**
     * `_extract_scrape_content`: one attempt, with the session, outcome and
     * calls of `Attempt`. The `finally` closes the page whenever one was
     * opened; a failing close is only logged.
     */
    method ExtractOnce(req: Request, s: AttemptScript) returns (outcome: Outcome)
      modifies this
      ensures State() == Attempt(old(State()), req, s).handles
      ensures outcome == Attempt(old(State()), req, s).outcome
      ensures trace == old(trace) + Attempt(old(State()), req, s).ops
      ensures pagesScraped == old(pagesScraped)
      ensures old(Valid()) ==> Valid()
    {
      var page: Option<Handle> := None;
      var fault := SetupBrowser(s.setup);
      if fault.Some? {
        outcome := Raised(Wrap(fault.value));
      } else if context.None? {
        outcome := Raised(ScrapingError(ContextMissing));
      } else {
        trace := trace + [NewPage];
        if s.newPage.Raise? {
          outcome := Raised(Wrap(s.newPage.fault));
        } else {
          page := Some(s.newPage.value);
          outcome := OnOpenPage(req, s);
        }
      }
      if page.Some? {
        trace := trace + [ClosePage];
        if s.closePage.Return? {
          page := None;
        }
      }
    }

    /**
     * `extract_scrape_content`: the retry governor around `ExtractOnce`; a
     * skip and an exhausted governor both give `None`.
     */
    method ExtractScrapeContent(req: Request, script: nat -> AttemptScript) returns (doc: Option<Document>)
      modifies this
      ensures State() == ExtractContent(old(State()), req, script).handles
      ensures doc == ExtractContent(old(State()), req, script).doc
      ensures trace == old(trace) + ExtractContent(old(State()), req, script).ops
      ensures pagesScraped == old(pagesScraped)
      ensures old(Valid()) ==> Valid()
    {
      if old(Valid()) {
        ExtractKeepsNested(State(), req, script);
      }
      var outcome, attempts, waits := RetryExtractScrapeContent(this, req, script);
      if outcome.Scraped? {
        doc := Some(outcome.doc);
      } else {
        doc := None;
      }
    }

    /** `close`: the handles and calls of `Session.Close`; any exception is swallowed. */
    method Close(s: CloseScript)
      modifies this
      ensures State() == Session.Close(old(State()), s).handles
      ensures trace == old(trace) + Session.Close(old(State()), s).ops
      ensures pagesScraped == old(pagesScraped)
      ensures old(Valid()) ==> Valid()
    {
      if old(Valid()) {
        CloseKeepsNested(State(), s);
      }
      if context.Some? {
        trace := trace + [CloseContext];
        if s.closeContext.Raise? {
          return;
        }
        context := None;
      }
      if browser.Some? {
        trace := trace + [CloseBrowser];
        if s.closeBrowser.Raise? {
          return;
        }
        browser := None;
      }
      if playwrightInstance.Some? {
        trace := trace + [StopDriver];
        if s.stopDriver.Raise? {
          return;
        }
        playwrightInstance := None;
      }
    }
  }

  /**
   * `retry_extract_scrape_content`: attempt, and after a `ScrapingError`
   * that is not the last attempt's, sleep `WaitExponential(n)` and attempt
   * again. Returns the final outcome (re-raised when it is an exception),
   * the attempts made and the sleeps taken, all those of `Retry`.
   */
  method RetryExtractScrapeContent(scraper: WebScraper, req: Request, script: nat -> AttemptScript)
    returns (outcome: Outcome, attempts: nat, waits: seq<int>)
    modifies scraper
    ensures scraper.State() == Retry(old(scraper.State()), AttemptCall(req, script)).handles
    ensures outcome == Retry(old(scraper.State()), AttemptCall(req, script)).outcome
    ensures attempts == Retry(old(scraper.State()), AttemptCall(req, script)).attempts
    ensures waits == Retry(old(scraper.State()), AttemptCall(req, script)).waits
    ensures scraper.trace == old(scraper.trace) + Retry(old(scraper.State()), AttemptCall(req, script)).ops
    ensures scraper.pagesScraped == old(scraper.pagesScraped)
  {
    var call := AttemptCall(req, script);
    ghost var run := Retry(scraper.State(), call);
    ghost var done: seq<Op> := [];
    var n := 1;
    waits := [];
    while true
      invariant 1 <= n <= MaxRetries && |waits| == n - 1
      invariant scraper.trace == old(scraper.trace) + done
      invariant run == After(waits, done, RetryFrom(scraper.State(), call, n))
      invariant scraper.pagesScraped == old(scraper.pagesScraped)
      decreases MaxRetries - n
    {
      ghost var before := scraper.State();
      outcome := scraper.ExtractOnce(req, script(n));
      ghost var a := call(before, n);
      assert a == Attempt(before, req, script(n));
      Concat3(old(scraper.trace), done, a.ops);
      assert scraper.trace == old(scraper.trace) + (done + a.ops);
      RetryStep(before, call, n);
      if !(Retryable(outcome) && n < MaxRetries) {
        AfterAfter(waits, done, [], a.ops, RetryRun(a.handles, a.outcome, 1, [], []));
        assert run.ops == done + a.ops;
        return outcome, n, waits;
      }
      AfterAfter(waits, done, [WaitExponential(n)], a.ops, RetryFrom(scraper.State(), call, n + 1));
      waits := waits + [WaitExponential(n)];
      done := done + a.ops;
      n := n + 1;
    }
  }

  /** Concatenation is associative. */
  lemma Concat3<T>(a: seq<T>, b: seq<T>, c: seq<T>)
    ensures a + b + c == a + (b + c)
  {
  }

  /** The request `scrape_url` makes: its own selector, policy and overrides, the default timeout. */
  function UrlRequest(url: string, selector: string, headers: Option<map<string, string>>, waitUntil: string): Request {
    Request(url, selector, RequestTimeout, waitUntil, true, headers)
  }

  /**
   * `scrape_url`: one extraction on a new scraper, then `close` as the
   * context manager exits. The document is the one the public entry point
   * gives from an empty session; the calls are the extraction's followed by
   * the close's, and the session left is what that close leaves, in nesting
   * order.
   */
  method ScrapeUrl(url: string, selector: string, headers: Option<map<string, string>>, waitUntil: string,
                   script: nat -> AttemptScript, closeScript: CloseScript)
    returns (doc: Option<Document>, ghost ops: seq<Op>, ghost final: Handles)
    ensures doc == ExtractContent(Closed, UrlRequest(url, selector, headers, waitUntil), script).doc
    ensures var e := ExtractContent(Closed, UrlRequest(url, selector, headers, waitUntil), script);
      && ops == e.ops + Session.Close(e.handles, closeScript).ops
      && final == Session.Close(e.handles, closeScript).handles
    ensures Nested(final)
  {
    var scraper := new WebScraper();
    doc := scraper.ExtractScrapeContent(UrlRequest(url, selector, headers, waitUntil), script);
    scraper.Close(closeScript);
    ops, final := scraper.trace, scraper.State();
  }

  /**
   * `scrape_urls`: every pair in order on one scraper, then `close` as the
   * context manager exits. One result per pair, each the document the
   * public entry point gives on the session the earlier pairs left; the
   * calls are the batch's followed by the close's, and the session left is
   * what that close leaves, in nesting order.
   */
  method ScrapeUrls(pairs: seq<(string, string)>, oracle: (nat, nat) -> AttemptScript, closeScript: CloseScript)
    returns (results: seq<Option<Document>>, ghost ops: seq<Op>, ghost final: Handles)
    ensures results == Batch(Closed, pairs, ScrapeItem(oracle), |pairs|).results
    ensures |results| == |pairs|
    ensures forall i :: 0 <= i < |pairs| ==>
      results[i] == ExtractContent(Batch(Closed, pairs, ScrapeItem(oracle), i).handles, ItemRequest(pairs[i]), ItemScript(oracle, i)).doc
    ensures var b := Batch(Closed, pairs, ScrapeItem(oracle), |pairs|);
      && ops == b.ops + Session.Close(b.handles, closeScript).ops
      && final == Session.Close(b.handles, closeScript).handles
    ensures Nested(final)
  {
    var scraper := new WebScraper();
    results := [];
    var i := 0;
    while i < |pairs|
      invariant 0 <= i <= |pairs|
      invariant scraper.State() == Batch(Closed, pairs, ScrapeItem(oracle), i).handles
      invariant results == Batch(Closed, pairs, ScrapeItem(oracle), i).results
      invariant scraper.trace == Batch(Closed, pairs, ScrapeItem(oracle), i).ops
      invariant scraper.Valid()
    {
      var result := scraper.ExtractScrapeContent(ItemRequest(pairs[i]), ItemScript(oracle, i));
      results := results + [result];
      i := i + 1;
    }
    scraper.Close(closeScript);
    ops, final := scraper.trace, scraper.State();
    BatchLength(Closed, pairs, ScrapeItem(oracle), |pairs|);
    forall i | 0 <= i < |pairs|
      ensures results[i] == ExtractContent(Batch(Closed, pairs, ScrapeItem(oracle), i).handles, ItemRequest(pairs[i]), ItemScript(oracle, i)).doc
    {
      BatchResult(Closed, pairs, ScrapeItem(oracle), |pairs|, i);
    }
  }
}
