// The retry governor around one attempt (`retry_extract_scrape_content`),
// the public entry point that never raises (`extract_scrape_content`), and
// the batch of extractions made by `scrape_urls`.

module Governor {
  import opened Settings
  import opened Browser
  import opened Session
  import opened Extraction
  import opened Backoff

  /** `retry_if_exception_type(ScrapingError)`: only a `ScrapingError` earns another attempt. */
  predicate Retryable(o: Outcome) {
    o.Raised? && o.exc.ScrapingError?
  }

  /**
   * A run of the governor: the session after it, the outcome it returns or
   * re-raises, how many attempts it made, the waits it slept between them
   * and the calls the attempts made.
   */
  datatype RetryRun = RetryRun(handles: Handles, outcome: Outcome, attempts: nat, waits: seq<int>, ops: seq<Op>)

  /**
   * The governor from attempt number `n` on, around the decorated call:
   * `call(h, n)` is attempt number `n` made on session `h`. A retryable
   * failure before the last attempt is followed by a wait and the next
   * attempt; anything else, or any outcome of the last attempt, is final
   * (`reraise=True` re-raises the last `ScrapingError` itself).
   */
  function RetryFrom(h: Handles, call: (Handles, nat) -> AttemptRun, n: nat): RetryRun
    requires 1 <= n <= MaxRetries
    decreases MaxRetries - n
  {
    var a := call(h, n);
    if Retryable(a.outcome) && n < MaxRetries then
      var rest := RetryFrom(a.handles, call, n + 1);
      RetryRun(rest.handles, rest.outcome, rest.attempts + 1, [WaitExponential(n)] + rest.waits, a.ops + rest.ops)
    else
      RetryRun(a.handles, a.outcome, 1, [], a.ops)
  }

  /** A governor run whose first attempts slept `waits` and made the calls `ops`, followed by the run `rest`. */
  function After(waits: seq<int>, ops: seq<Op>, rest: RetryRun): RetryRun {
    RetryRun(rest.handles, rest.outcome, |waits| + rest.attempts, waits + rest.waits, ops + rest.ops)
  }

  /** Two prefixes of a governor run make one. */
  lemma AfterAfter(w1: seq<int>, o1: seq<Op>, w2: seq<int>, o2: seq<Op>, rest: RetryRun)
    ensures After(w1, o1, After(w2, o2, rest)) == After(w1 + w2, o1 + o2, rest)
  {
    assert w1 + (w2 + rest.waits) == (w1 + w2) + rest.waits;
    assert o1 + (o2 + rest.ops) == (o1 + o2) + rest.ops;
  }

  /** One step of the governor: a final attempt ends the run, a retryable one is followed by a wait and the rest. */
  lemma RetryStep(h: Handles, call: (Handles, nat) -> AttemptRun, n: nat)
    requires 1 <= n <= MaxRetries
    ensures var a := call(h, n);
      RetryFrom(h, call, n) ==
        if Retryable(a.outcome) && n < MaxRetries then After([WaitExponential(n)], a.ops, RetryFrom(a.handles, call, n + 1))
        else After([], a.ops, RetryRun(a.handles, a.outcome, 1, [], []))
  {
  }

  /** The decorated function's run, from its first attempt. */
  function Retry(h: Handles, call: (Handles, nat) -> AttemptRun): RetryRun {
    RetryFrom(h, call, 1)
  }

  /** `retry_extract_scrape_content`'s call: attempt `n` is one extraction in world `script(n)`. */
  function AttemptCall(req: Request, script: nat -> AttemptScript): (Handles, nat) -> AttemptRun {
    (h: Handles, n: nat) => Attempt(h, req, script(n))
  }

  /** The governor makes between one attempt and the attempts left, and sleeps once less than it attempts. */
  lemma {:induction false} RetryBound(h: Handles, call: (Handles, nat) -> AttemptRun, n: nat)
    requires 1 <= n <= MaxRetries
    decreases MaxRetries - n
    ensures 1 <= RetryFrom(h, call, n).attempts <= MaxRetries - n + 1
    ensures |RetryFrom(h, call, n).waits| == RetryFrom(h, call, n).attempts - 1
  {
    var a := call(h, n);
    if Retryable(a.outcome) && n < MaxRetries {
      RetryBound(a.handles, call, n + 1);
    }
  }

  /** The `i`-th sleep of the governor started at attempt `n` follows the failed attempt `n + i`. */
  lemma {:induction false} RetryWaitAt(h: Handles, call: (Handles, nat) -> AttemptRun, n: nat, i: nat)
    requires 1 <= n <= MaxRetries
    requires i < |RetryFrom(h, call, n).waits|
    decreases MaxRetries - n
    ensures n + i >= 1 && RetryFrom(h, call, n).waits[i] == WaitExponential(n + i)
  {
    var a := call(h, n);
    if Retryable(a.outcome) && n < MaxRetries && i > 0 {
      RetryWaitAt(a.handles, call, n + 1, i - 1);
    }
  }

  /** The governor ends with a `ScrapingError` only once every attempt was spent. */
  lemma {:induction false} RetryableOnlyWhenExhausted(h: Handles, call: (Handles, nat) -> AttemptRun, n: nat)
    requires 1 <= n <= MaxRetries
    decreases MaxRetries - n
    ensures var r := RetryFrom(h, call, n);
      Retryable(r.outcome) ==> n + r.attempts - 1 == MaxRetries
  {
    var a := call(h, n);
    if Retryable(a.outcome) && n < MaxRetries {
      RetryableOnlyWhenExhausted(a.handles, call, n + 1);
    }
  }

  /**
   * An attempt that returns a document or raises `SkipScrape`, and any
   * outcome of the last attempt, ends the governor at once with that
   * outcome: no wait follows and no further attempt is made.
   */
  lemma StopsOnFinalOutcome(h: Handles, call: (Handles, nat) -> AttemptRun, n: nat)
    requires 1 <= n <= MaxRetries
    requires !Retryable(call(h, n).outcome) || n == MaxRetries
    ensures RetryFrom(h, call, n) == RetryRun(call(h, n).handles, call(h, n).outcome, 1, [], call(h, n).ops)
  {
  }

  /** The session the governor's last attempt starts from. */
  function LastSession(h: Handles, call: (Handles, nat) -> AttemptRun, n: nat): Handles
    requires 1 <= n <= MaxRetries
    decreases MaxRetries - n
  {
    var a := call(h, n);
    if Retryable(a.outcome) && n < MaxRetries then LastSession(a.handles, call, n + 1) else h
  }

  /**
   * The governor returns, or re-raises, the outcome of its last attempt, and
   * leaves the session that attempt left: with `reraise=True` the final
   * `ScrapingError` is the last attempt's own, not one of an earlier attempt.
   */
  lemma {:induction false} LastAttemptOutcome(h: Handles, call: (Handles, nat) -> AttemptRun, n: nat)
    requires 1 <= n <= MaxRetries
    decreases MaxRetries - n
    ensures var r := RetryFrom(h, call, n);
      && n + r.attempts - 1 <= MaxRetries
      && r.outcome == call(LastSession(h, call, n), n + r.attempts - 1).outcome
      && r.handles == call(LastSession(h, call, n), n + r.attempts - 1).handles
  {
    var a := call(h, n);
    if Retryable(a.outcome) && n < MaxRetries {
      LastAttemptOutcome(a.handles, call, n + 1);
    }
  }

  /**
   * When every attempt fails with a `ScrapingError`, whatever the session,
   * the governor makes every attempt and re-raises the error of the last one.
   */
  lemma {:induction false} ExhaustsWhenAlwaysRetryable(h: Handles, call: (Handles, nat) -> AttemptRun, n: nat)
    requires 1 <= n <= MaxRetries
    requires forall k, h' :: n <= k <= MaxRetries ==> Retryable(call(h', k).outcome)
    decreases MaxRetries - n
    ensures RetryFrom(h, call, n).attempts == MaxRetries - n + 1
    ensures Retryable(RetryFrom(h, call, n).outcome)
    ensures RetryFrom(h, call, n).outcome == call(LastSession(h, call, n), MaxRetries).outcome
  {
    if n < MaxRetries {
      ExhaustsWhenAlwaysRetryable(call(h, n).handles, call, n + 1);
    }
    LastAttemptOutcome(h, call, n);
  }

  /**
   * The governor's waits: at most four, each between the floor and the
   * ceiling, never decreasing, and exactly 2, 2, 4, 5 seconds in turn.
   */
  lemma RetryWaits(h: Handles, call: (Handles, nat) -> AttemptRun)
    ensures var w := Retry(h, call).waits;
      && |w| <= MaxRetries - 1
      && (forall i :: 0 <= i < |w| ==> MinWaitBetweenReq <= w[i] <= MaxWaitBetweenReq)
      && (forall i, j :: 0 <= i <= j < |w| ==> w[i] <= w[j])
      && w == [2, 2, 4, 5][..|w|]
  {
    RetryBound(h, call, 1);
    var w := Retry(h, call).waits;
    WaitSchedule();
    forall i | 0 <= i < |w| ensures w[i] == WaitExponential(1 + i) {
      RetryWaitAt(h, call, 1, i);
    }
    forall i, j | 0 <= i <= j < |w| ensures w[i] <= w[j] {
      WaitMonotone(1 + i, 1 + j);
    }
  }

  /** A governor around a call that keeps the nesting order keeps it too. */
  lemma {:induction false} RetryKeepsNested(h: Handles, call: (Handles, nat) -> AttemptRun, n: nat)
    requires 1 <= n <= MaxRetries
    requires Nested(h)
    requires forall h', k :: Nested(h') ==> Nested(call(h', k).handles)
    decreases MaxRetries - n
    ensures Nested(RetryFrom(h, call, n).handles)
  {
    var a := call(h, n);
    if Retryable(a.outcome) && n < MaxRetries {
      RetryKeepsNested(a.handles, call, n + 1);
    }
  }

  /** The session after the public entry point, the document it returns and the calls made. */
  datatype ExtractRun = ExtractRun(handles: Handles, doc: Option<Document>, ops: seq<Op>)

  /** `extract_scrape_content`: a skip and an exhausted governor both become `None`. */
  function ExtractContent(h: Handles, req: Request, script: nat -> AttemptScript): ExtractRun {
    var r := Retry(h, AttemptCall(req, script));
    ExtractRun(r.handles, if r.outcome.Scraped? then Some(r.outcome.doc) else None, r.ops)
  }

  /**
   * The public entry point returns the document exactly when the governor
   * did, and `None` exactly when the governor ended on a skip or spent all
   * its attempts on `ScrapingError`s.
   */
  lemma ExtractResult(h: Handles, req: Request, script: nat -> AttemptScript)
    ensures var r := Retry(h, AttemptCall(req, script));
      && (forall d :: ExtractContent(h, req, script).doc == Some(d) <==> r.outcome == Scraped(d))
      && (ExtractContent(h, req, script).doc.None? <==>
           (r.outcome.Raised? && r.outcome.exc.SkipScrape?)
           || (Retryable(r.outcome) && r.attempts == MaxRetries))
  {
    RetryableOnlyWhenExhausted(h, AttemptCall(req, script), 1);
  }

  /** The public entry point keeps the nesting order of the session. */
  lemma ExtractKeepsNested(h: Handles, req: Request, script: nat -> AttemptScript)
    requires Nested(h)
    ensures Nested(ExtractContent(h, req, script).handles)
  {
    var call := AttemptCall(req, script);
    forall h', k | Nested(h') ensures Nested(call(h', k).handles) {
      AttemptSession(h', req, script(k));
    }
    RetryKeepsNested(h, call, 1);
  }

  /** A page answering with an HTTP error status gives `None` after exactly one attempt. */
  lemma ErrorStatusSkipsAfterOneAttempt(h: Handles, req: Request, script: nat -> AttemptScript, status: int)
    requires Navigated(h, script(1)) && script(1).goto == Return(Some(status)) && status >= 400
    ensures Retry(h, AttemptCall(req, script)).attempts == 1
    ensures Retry(h, AttemptCall(req, script)).outcome == Raised(SkipScrape(status))
    ensures ExtractContent(h, req, script).doc.None?
  {
    SkipIffErrorStatus(h, req, script(1), status);
    StopsOnFinalOutcome(h, AttemptCall(req, script), 1);
  }

  /** A page served with a status below 400 whose selector appears gives its content after one attempt. */
  lemma SuccessAfterOneAttempt(h: Handles, req: Request, script: nat -> AttemptScript, status: int, html: string)
    requires Navigated(h, script(1)) && script(1).goto == Return(Some(status)) && status < 400
    requires script(1).waitForSelector.Return? && script(1).content == Return(html)
    ensures Retry(h, AttemptCall(req, script)).attempts == 1
    ensures ExtractContent(h, req, script).doc == Some(Soup(html))
  {
    ScrapedIffAllStepsSucceed(h, req, script(1), html);
    StopsOnFinalOutcome(h, AttemptCall(req, script), 1);
  }

  /** The world never shows the selector and never answers with an error status. */
  predicate SelectorNeverAppears(s: AttemptScript) {
    s.waitForSelector.Raise? && !(s.goto.Return? && s.goto.value.Some? && s.goto.value.value >= 400)
  }

  lemma SelectorMissingRetryable(h: Handles, req: Request, s: AttemptScript)
    requires SelectorNeverAppears(s)
    ensures Retryable(Attempt(h, req, s).outcome)
  {
    SetupSucceeds(h, s.setup);
  }

  /** A selector that never appears gives `None` once all five attempts failed. */
  lemma SelectorMissingExhausts(h: Handles, req: Request, script: nat -> AttemptScript)
    requires forall n :: 1 <= n <= MaxRetries ==> SelectorNeverAppears(script(n))
    ensures Retry(h, AttemptCall(req, script)).attempts == MaxRetries
    ensures ExtractContent(h, req, script).doc.None?
  {
    var call := AttemptCall(req, script);
    forall k, h' | 1 <= k <= MaxRetries ensures Retryable(call(h', k).outcome) {
      SelectorMissingRetryable(h', req, script(k));
    }
    ExhaustsWhenAlwaysRetryable(h, call, 1);
  }

  /** The request `scrape_urls` makes for one pair: default timeout, policy and behaviour flag, no header overrides. */
  function ItemRequest(pair: (string, string)): Request {
    Request(pair.0, pair.1, RequestTimeout, DefaultWaitUntil, true, None)
  }

  /**
   * One item of `scrape_urls`: the public entry point for the pair, on the
   * current session, in the world `oracle(i, _)` of item `i`.
   */
  function ScrapeItem(oracle: (nat, nat) -> AttemptScript): (Handles, (string, string), nat) -> ExtractRun {
    (h: Handles, pair: (string, string), i: nat) => ExtractContent(h, ItemRequest(pair), ItemScript(oracle, i))
  }

  /** The world of item `i`, attempt by attempt. */
  function ItemScript(oracle: (nat, nat) -> AttemptScript, i: nat): nat -> AttemptScript {
    (n: nat) => oracle(i, n)
  }

  /** The session after the first `k` items of a batch, their results in order and the calls they made. */
  datatype BatchRun = BatchRun(handles: Handles, results: seq<Option<Document>>, ops: seq<Op>)

  /** The loop of `scrape_urls` after its first `k` items, each extracted by `item` on the one shared session. */
  function Batch(h: Handles, pairs: seq<(string, string)>, item: (Handles, (string, string), nat) -> ExtractRun, k: nat): BatchRun
    requires k <= |pairs|
    decreases k
  {
    if k == 0 then BatchRun(h, [], [])
    else
      var prev := Batch(h, pairs, item, k - 1);
      var e := item(prev.handles, pairs[k - 1], k - 1);
      BatchRun(e.handles, prev.results + [e.doc], prev.ops + e.ops)
  }

  /** A batch gives one result per item. */
  lemma {:induction false} BatchLength(h: Handles, pairs: seq<(string, string)>, item: (Handles, (string, string), nat) -> ExtractRun, k: nat)
    requires k <= |pairs|
    ensures |Batch(h, pairs, item, k).results| == k
  {
    if k > 0 {
      BatchLength(h, pairs, item, k - 1);
    }
  }

  /**
   * The results come in item order, and later items never change earlier
   * results: result `i` is what extracting pair `i` gives on the session the
   * earlier items left behind.
   */
  lemma {:induction false} BatchResult(h: Handles, pairs: seq<(string, string)>, item: (Handles, (string, string), nat) -> ExtractRun, k: nat, i: nat)
    requires i < k <= |pairs|
    ensures |Batch(h, pairs, item, k).results| == k
    ensures Batch(h, pairs, item, k).results[i] == item(Batch(h, pairs, item, i).handles, pairs[i], i).doc
  {
    BatchLength(h, pairs, item, k);
    BatchLength(h, pairs, item, k - 1);
    if i < k - 1 {
      BatchResult(h, pairs, item, k - 1, i);
    }
  }
}
