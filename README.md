# Retrying page scraper: single attempt, retry governor and browser session

This project models the core of `functions/scraper.py`: the `WebScraper` class
and the functions around it that fetch one rendered page with a headless
Firefox.

- **Session.** A scraper holds three optional handles: the Playwright driver,
  a browser and a browsing context. `setup_browser` creates the ones that are
  missing. `close` releases them, context first, inside a single `try`.
- **One attempt.** `_extract_scrape_content` sets up the session and opens a
  page. It then sends the merged request headers, navigates with a
  normalised `wait_until` policy and classifies the response:
  - no response is a `ScrapingError`;
  - an HTTP status of 400 or more is a `SkipScrape`;
  - otherwise it waits for the readiness selector and returns the rendered
    content.

  Every other failure becomes a `ScrapingError`. The page is closed in
  `finally` whenever one was opened.
- **Retry governor.** `retry_extract_scrape_content` retries only on
  `ScrapingError`, makes at most five attempts, waits
  `wait_exponential(multiplier=1, min=2, max=5)` seconds between them and
  re-raises the last error. `extract_scrape_content` turns a skip and an
  exhausted governor into `None`.
- **Batch.** `scrape_urls` runs every (url, selector) pair in order on one
  scraper and closes it at the end.

Playwright is not modelled, only what the scraper sees of it. Each foreign
call takes its answer from a *script*, a value that says whether the call
returns (and what) or raises (a timeout or another exception). A method or
function therefore runs for every possible behaviour of the outside world.
The retry governor takes the world of each attempt number, and the batch
takes the world of each item and attempt number. A ghost `trace` in the
class records every call made into the browser. This lets the contracts say
which pages were closed and which arguments navigation used.

Files:

- `browser.dfy`: the constants (modules `Settings`, `Browser`), the script
  types and the trace of calls.
- `headers.dfy`: `get_headers`.
- `session.dfy`: the setup and close steps as functions on the handles.
- `extraction.dfy`: one attempt as a function, with its classification.
- `backoff.dfy`: the waits.
- `governor.dfy`: the retry governor, the public entry point and the batch
  loop, as functions. The governor is stated over any decorated call, just as
  the decorator wraps any coroutine.
- `scraper.dfy`: the class `WebScraper`, whose fields the methods update in
  place, and the module-level coroutines. Each method is proved against the
  function of the same operation.

Three things the names in the code suggest are not what the code does. The
model follows the code.

- `close` is one `try` around all three releases, not a best-effort release
  of each handle: the first failing call leaves that handle and every later
  one in place (`Session.CloseStopsAtFirstFailure`).
- No browser restart happens after a number of pages. `pages_scraped` and
  `restart_browser_every` are initialised and never read, and the model keeps
  them as fields that nothing updates.
- No human-behaviour simulation happens. `simulate_behavior` is accepted and
  never read, so `Request.simulateBehavior` is never read either.

One behaviour of the code is modelled as written and stated as a lemma. When
a launch fails, the driver started just before stays assigned. The next
setup then sees no browser, starts a second driver and overwrites the handle
of the first without stopping it (`Session.SetupRestartsDriverAfterFailedLaunch`).

## Model

| member | source | states |
|---|---|---|
| Headers.DefaultHeaders | functions/scraper.py:49-64 | the default header names are the thirteen fixed names plus `User-Agent`, and `User-Agent` maps to the drawn user agent |
| Headers.Update | functions/scraper.py:66-67 | `dict.update`: the keys of both maps are present, the update wins on shared keys and the base keeps the others |
| Headers.HeaderMerge | functions/scraper.py:46-69 | the headers sent hold every default name and every override name; an override always wins; every other default keeps its value; the user agent is sent unless overridden |
| Headers.NoOverrides | functions/scraper.py:66-69 | missing or empty overrides give exactly the defaults |
| Scraper.WebScraper.GetHeaders | functions/scraper.py:46-69 | the merged map the header specification gives, with every default and override name, the overrides winning and the drawn user agent kept unless overridden |
| Scraper.WebScraper.constructor | functions/scraper.py:37-44 | a new scraper holds no handle and has made no call; the page counter is 0 and the restart period 10 |
| Session.SetupKeepsLiveHandles | functions/scraper.py:73-119 | setup never replaces an existing browser or context, nor the driver of a live browser |
| Session.SetupSucceeds | functions/scraper.py:71-122 | a setup that raises nothing leaves a browser and a context |
| Session.SetupIdempotent | functions/scraper.py:71-122 | after a successful setup another setup makes no call and changes nothing, whatever the world does |
| Session.SetupKeepsNested | functions/scraper.py:71-122 | setup keeps handles in nesting order (context only with a browser, browser only with a driver), whatever fails |
| Session.SetupOpsOnly | functions/scraper.py:71-122 | setup only starts, launches, opens a context and installs routes |
| Session.SetupRestartsDriverAfterFailedLaunch | functions/scraper.py:73-74 | with a driver left by a failed launch and no browser, setup starts a new driver and overwrites the held one |
| Scraper.WebScraper.SetupBrowser | functions/scraper.py:71-122 | updates the three fields, returns the exception and appends the calls exactly as the setup specification says; keeps the nesting order |
| Session.CloseClearsAll | functions/scraper.py:216-232 | when no release fails, close leaves no handle |
| Session.CloseStopsAtFirstFailure | functions/scraper.py:218-235 | a failing release leaves that handle and the later ones untouched; the driver is cleared only if stopping it returned |
| Session.CloseKeepsNested | functions/scraper.py:216-235 | close keeps the nesting order and makes no call on a closed session |
| Scraper.WebScraper.Close | functions/scraper.py:216-235 | updates the handles and appends the release calls as the close specification says, never raising; keeps the nesting order |
| Extraction.NormalizeWaitUntil | functions/scraper.py:150-155 | the policy is always a known one; a known policy is kept and any other becomes `domcontentloaded` |
| Extraction.NormalizeIdempotent | functions/scraper.py:150-155 | normalising twice is normalising once |
| Extraction.ClassifyResponse | functions/scraper.py:159-163 | the attempt goes on exactly for a response with a status below 400; no response is exactly a `ScrapingError`; a status of 400 or more is exactly a `SkipScrape` of that status |
| Extraction.Wrap | functions/scraper.py:179-186 | every foreign exception becomes a `ScrapingError`, reported as a timeout exactly when it was a timeout |
| Extraction.OnPage | functions/scraper.py:143-174 | the steps on an open page make at least the timeout call and at most all five page calls |
| Extraction.SkipIffErrorStatus | functions/scraper.py:157-163 | an attempt raises `SkipScrape(status)` exactly when navigation returned a response with that status of 400 or more |
| Extraction.NoResponseRetryable | functions/scraper.py:159-160 | a navigation without response raises a `ScrapingError` |
| Extraction.ScrapedIffAllStepsSucceed | functions/scraper.py:157-174 | an attempt returns a document exactly when it navigated with a status below 400, the selector appeared and the content was read, and the document holds that content |
| Extraction.RaisedIsClassified | functions/scraper.py:136-186 | a skip is raised only after navigation; any failure before it raises a `ScrapingError` |
| Extraction.PageClosedOnEveryPath | functions/scraper.py:188-194 | an opened page is closed exactly once, as the attempt's last call; no page, no close |
| Extraction.CloseFailureIgnored | functions/scraper.py:188-194 | whether closing the page fails never changes the attempt |
| Extraction.NavigationArguments | functions/scraper.py:146-157 | navigation uses the url, the normalised (known) policy and the page-load timeout; the headers sent are built from the drawn user agent and the caller's overrides |
| Extraction.AttemptSession | functions/scraper.py:136-141 | an attempt changes the session only through setup and keeps its nesting order |
| Scraper.WebScraper.SetExtraHttpHeaders | functions/scraper.py:146-146 | builds the headers with `get_headers`, records the call and changes no handle |
| Scraper.WebScraper.OnOpenPage | functions/scraper.py:143-174 | the outcome and the page calls of the steps on an open page, the session untouched |
| Scraper.WebScraper.ExtractOnce | functions/scraper.py:124-194 | the session, outcome and calls of one attempt as its specification says, the page closed in `finally`; keeps the nesting order |
| Backoff.WaitExponential | functions/scraper.py:239-240 | every wait lies between 2 and 5 seconds |
| Backoff.WaitMonotone | functions/scraper.py:239-240 | later attempts never wait less |
| Backoff.WaitSchedule | functions/scraper.py:239-240 | the waits after attempts 1 to 4 are 2, 2, 4 and 5 seconds |
| Governor.RetryBound | functions/scraper.py:238-247 | between one attempt and the attempts left, at most five, with one wait fewer than attempts |
| Governor.RetryWaitAt | functions/scraper.py:239-241 | the wait after failed attempt `k` is `WaitExponential(k)` |
| Governor.RetryableOnlyWhenExhausted | functions/scraper.py:241-244 | the governor ends on a `ScrapingError` only after all five attempts |
| Governor.LastAttemptOutcome | functions/scraper.py:241-244 | the governor returns or re-raises the outcome of its last attempt, and leaves the session that attempt left |
| Governor.StopsOnFinalOutcome | functions/scraper.py:241-244 | at any attempt number, an attempt that returns or skips, and any outcome of the fifth attempt, ends the governor with that outcome, without a further wait or attempt |
| Governor.ExhaustsWhenAlwaysRetryable | functions/scraper.py:241-244 | when every attempt raises a `ScrapingError`, all five are made and the error re-raised is the fifth attempt's own |
| Governor.RetryWaits | functions/scraper.py:239-241 | at most four waits, each in [2, 5], non-decreasing, and a prefix of 2, 2, 4, 5 |
| Governor.RetryKeepsNested | functions/scraper.py:246-247 | a governor around a call that keeps the nesting order keeps it too |
| Scraper.RetryExtractScrapeContent | functions/scraper.py:238-247 | the attempt loop: the final outcome, attempt count, waits, session and calls of the governor specification |
| Governor.ExtractResult | functions/scraper.py:205-214 | the public entry point returns the governor's document, and `None` exactly on a skip or after five `ScrapingError`s |
| Governor.ExtractKeepsNested | functions/scraper.py:205-208 | the public entry point keeps the nesting order of the session |
| Governor.ErrorStatusSkipsAfterOneAttempt | functions/scraper.py:162-163 | an error status on the first attempt gives `None` after exactly one attempt |
| Governor.SuccessAfterOneAttempt | functions/scraper.py:157-174 | a good status with the selector present gives the content after exactly one attempt |
| Governor.SelectorMissingRetryable | functions/scraper.py:165-183 | a selector that never appears makes the attempt raise a `ScrapingError` |
| Governor.SelectorMissingExhausts | functions/scraper.py:196-214 | a selector that never appears gives `None` after all five attempts |
| Scraper.WebScraper.ExtractScrapeContent | functions/scraper.py:196-214 | the document, session and calls of the public entry point specification |
| Governor.BatchLength | functions/scraper.py:276-284 | one result per item |
| Governor.BatchResult | functions/scraper.py:279-281 | result `i` is what item `i` gives on the session the earlier items left |
| Scraper.ScrapeUrls | functions/scraper.py:276-284 | one result per pair, in order, each the public entry point's document for that pair on the shared session; the calls are the batch's followed by the close's, and the session left is the one that close leaves, in nesting order |
| Scraper.ScrapeUrl | functions/scraper.py:261-273 | the document the public entry point gives from a new, empty session; the calls are the extraction's followed by the close's, and the session left is the one that close leaves, in nesting order |

## Left out

- Browser options, Firefox preferences and context options (`functions/scraper.py:76-117`) are arguments to foreign calls. Only the calls themselves are modelled. The route handlers are recorded by their patterns.
- Parsing with BeautifulSoup (`functions/scraper.py:171`) is taken to keep the rendered HTML as it is (`Document = Soup(html)`).
- `fake_useragent` (`functions/scraper.py:38,54,113`) is a random draw. The user agent sent with the headers is part of each attempt's script. The one given to the context at setup is not modelled.
- Exception messages and logging (loguru, `before_sleep_log`) are left out. `Cause` keeps only the reason a `ScrapingError` reports. Note that the code re-wraps the errors raised inside the `try` (no context, no response) as a new `ScrapingError` whose message embeds the original.
- `page.set_default_timeout` and `page.set_default_navigation_timeout` (`functions/scraper.py:143-144`) are one step of the script: either of them raising is that step raising. It becomes a `ScrapingError`, and the page is still closed.
- Concurrency (`asyncio`, `nest_asyncio`) is modelled sequentially. Each `await` is one step.
- `AsyncWebScraper` (`functions/scraper.py:250-258`) is modelled only by its effect: `ScrapeUrl` and `ScrapeUrls` close the scraper after their work, as `__aexit__` does.
- The pacing sleeps of `scrape_url` and `scrape_urls` (`functions/scraper.py:264-272,283`) are left out. They draw a random floating-point delay and only log and sleep. The retry governor's waits are modelled as the list of waits returned.
- Scraper.WebScraper.SetExtraHttpHeaders: the call is recorded in the trace by the user agent and overrides from which `get_headers` builds the map, not by the map itself. The map is what `HeadersFor` gives for those arguments.
- Headers.DefaultHeaders: the names are listed one by one, but their count of fourteen distinct names is not proved.
- `functions/etl.py`, the `shops/` modules, `get_categories_farmandpet.py` and `main.py` (database and file I/O, network fetches, float price arithmetic, the command line) are not part of this model.
