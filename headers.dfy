// The outbound request headers of one extraction attempt: a fixed set of
// realistic browser headers, merged with the caller's overrides.

module Headers {
  import opened Browser

  /** The names of the fourteen default headers. */
  function DefaultHeaderNames(): set<string> {
    FixedHeaders().Keys + {"User-Agent"}
  }

  /** The default headers; the user agent is a random draw, so it is a parameter. */
  function DefaultHeaders(userAgent: string): (d: map<string, string>)
    ensures d.Keys == DefaultHeaderNames()
    ensures d["User-Agent"] == userAgent
  {
    FixedHeaders() + map["User-Agent" := userAgent]
  }

  // The names and values of the fixed default headers, one constant each.
  const AcceptName: string := "Accept"
  const AcceptEncodingName: string := "Accept-Encoding"
  const AcceptLanguageName: string := "Accept-Language"
  const CacheControlName: string := "Cache-Control"
  const PriorityName: string := "Priority"
  const UpgradeInsecureRequestsName: string := "Upgrade-Insecure-Requests"
  const SecChUaName: string := "Sec-Ch-Ua"
  const SecChUaMobileName: string := "Sec-Ch-Ua-Mobile"
  const SecChUaPlatformName: string := "Sec-Ch-Ua-Platform"
  const SecFetchDestName: string := "Sec-Fetch-Dest"
  const SecFetchModeName: string := "Sec-Fetch-Mode"
  const SecFetchSiteName: string := "Sec-Fetch-Site"
  const SecFetchUserName: string := "Sec-Fetch-User"
  const AcceptValue: string := "text/html,application/xhtml+xml,application/xml;q=0.9,image/avif,image/webp,image/apng,*/*;q=0.8,application/signed-exchange;v=b3;q=0.7"
  const AcceptEncodingValue: string := "gzip, deflate, br, zstd"
  const AcceptLanguageValue: string := "en-US,en;q=0.9"
  const CacheControlValue: string := "max-age=0"
  const PriorityValue: string := "u=0, i"
  const UpgradeInsecureRequestsValue: string := "1"
  const SecChUaValue: string := "\"Not.A/Brand\";v=\"24\", \"Opera GX\";v=\"118\", \"Chromium\";v=\"134\""
  const SecChUaMobileValue: string := "?0"
  const SecChUaPlatformValue: string := "\"Windows\""
  const SecFetchDestValue: string := "document"
  const SecFetchModeValue: string := "navigate"
  const SecFetchSiteValue: string := "same-origin"
  const SecFetchUserValue: string := "?1"

  /** The thirteen default headers that do not depend on the user agent. */
  function FixedHeaders(): map<string, string> {
    map[
      AcceptName := AcceptValue,
      AcceptEncodingName := AcceptEncodingValue,
      AcceptLanguageName := AcceptLanguageValue,
      CacheControlName := CacheControlValue,
      PriorityName := PriorityValue,
      UpgradeInsecureRequestsName := UpgradeInsecureRequestsValue,
      SecChUaName := SecChUaValue,
      SecChUaMobileName := SecChUaMobileValue,
      SecChUaPlatformName := SecChUaPlatformValue,
      SecFetchDestName := SecFetchDestValue,
      SecFetchModeName := SecFetchModeValue,
      SecFetchSiteName := SecFetchSiteValue,
      SecFetchUserName := SecFetchUserValue
    ]
  }

  /** The caller's overrides; a missing argument overrides nothing. */
  function Overrides(headers: Option<map<string, string>>): map<string, string> {
    if headers.Some? then headers.value else map[]
  }

  /**
   * Python's `dict.update` when the update is non-empty: every key of either
   * map is present and the update wins on the keys they share.
   */
  function Update(base: map<string, string>, update: map<string, string>): (r: map<string, string>)
    ensures r.Keys == base.Keys + update.Keys
    ensures forall k :: k in update ==> r[k] == update[k]
    ensures forall k :: k in base && k !in update ==> r[k] == base[k]
  {
    base + update
  }

  /** The headers sent for one attempt: the defaults, updated with the caller's overrides. */
  function HeadersFor(userAgent: string, headers: Option<map<string, string>>): map<string, string> {
    var defaults := DefaultHeaders(userAgent);
    // Python's `if headers:` is false for None and for an empty dict
    if headers.Some? && headers.value != map[] then Update(defaults, headers.value)
    else defaults
  }

  /**
   * Every default name and every override name is present, an override
   * always wins, and every other default keeps its value.
   */
  lemma HeaderMerge(userAgent: string, headers: Option<map<string, string>>)
    ensures HeadersFor(userAgent, headers).Keys == DefaultHeaderNames() + Overrides(headers).Keys
    ensures forall k :: k in Overrides(headers) ==> HeadersFor(userAgent, headers)[k] == Overrides(headers)[k]
    ensures forall k :: k in DefaultHeaderNames() && k !in Overrides(headers) ==>
      HeadersFor(userAgent, headers)[k] == DefaultHeaders(userAgent)[k]
    ensures "User-Agent" !in Overrides(headers) ==> HeadersFor(userAgent, headers)["User-Agent"] == userAgent
  {
  }

  /** No overrides, whether missing or empty, give exactly the defaults. */
  lemma NoOverrides(userAgent: string, headers: Option<map<string, string>>)
    requires Overrides(headers) == map[]
    ensures HeadersFor(userAgent, headers) == DefaultHeaders(userAgent)
  {
  }
}
