/**
 * `getProxyUrls`: returns the caller's own list of proxy URLs when it is not
 * empty; otherwise, unless Apify Proxy is off, builds one proxy URL and
 * pushes it onto that same list, in place.
 */
module ProxyUrls {
  import opened Wrappers
  import opened JsValues

  /** A JavaScript array of proxy URL strings, grown in place by `push`. */
  class UrlArray {
    var items: seq<string>

    constructor (items: seq<string>)
      ensures this.items == items
    {
      this.items := items;
    }

    /** `array.push(url)`. */
    method Push(url: string)
      modifies this
      ensures items == old(items) + [url]
    {
      items := items + [url];
    }
  }

  /** The `proxyConfiguration` object; a `proxyUrls` that is absent (undefined) is `None`. */
  datatype ProxyConfiguration =
    ProxyConfiguration(useApifyProxy: Value, proxyUrls: Option<UrlArray>, apifyProxyGroups: Value)

  /** The options passed to `Apify.getApifyProxyUrl`. */
  datatype ProxyRequest = ProxyRequest(password: Value, groups: Value, session: Option<string>, country: string)

  /**
   * What the resolver reads from outside this module: the proxy password
   * from the process environment, `Date.now().toString()` from the clock,
   * and the default proxy country constant.
   */
  datatype Environment = Environment(proxyPassword: Value, now: string, defaultCountry: string)

  /** The request built for a configuration: a session bound to the current time only when one is needed. */
  function RequestFor(config: ProxyConfiguration, needSession: bool, env: Environment): ProxyRequest {
    ProxyRequest(env.proxyPassword, config.apifyProxyGroups, if needSession then Some(env.now) else None, env.defaultCountry)
  }

  /**
   * The URLs `getProxyUrls` returns for a given list (`None` is `undefined`),
   * when `constructed` is the URL the proxy service would build.
   */
  function Resolved(urls: seq<string>, useApifyProxy: Value, constructed: string): (r: Option<seq<string>>)
    ensures |urls| > 0 ==> r == Some(urls)
    ensures |urls| == 0 && !Truthy(useApifyProxy) ==> r == None
    ensures |urls| == 0 && Truthy(useApifyProxy) ==> r == Some([constructed])
    ensures r.Some? ==> |r.value| > 0
  {
    if |urls| != 0 then Some(urls)
    else if !Truthy(useApifyProxy) then None
    else
      assert urls + [constructed] == [constructed];
      Some(urls + [constructed])
  }

  /** Resolving what was already resolved changes nothing, whatever URL the service would build next. */
  lemma ResolvedIsStable(urls: seq<string>, useApifyProxy: Value, constructed: string, next: string)
    requires Resolved(urls, useApifyProxy, constructed).Some?
    ensures Resolved(Resolved(urls, useApifyProxy, constructed).value, useApifyProxy, next)
            == Resolved(urls, useApifyProxy, constructed)
  {
  }

  /** The URLs of the configuration's own list, or the default `[]` when it has none. */
  ghost function GivenUrls(config: ProxyConfiguration): seq<string>
    reads if config.proxyUrls.Some? then {config.proxyUrls.value} else {}
  {
    if config.proxyUrls.Some? then config.proxyUrls.value.items else []
  }

  /** `getProxyUrls(proxyConfiguration, needSess)`, with the proxy service as `getApifyProxyUrl`. */
  method GetProxyUrls(config: ProxyConfiguration, needSess: bool, env: Environment,
                      getApifyProxyUrl: ProxyRequest -> string)
    returns (r: Option<UrlArray>)
    modifies if config.proxyUrls.Some? then {config.proxyUrls.value} else {}
    ensures (if r.Some? then Some(r.value.items) else None)
            == Resolved(old(GivenUrls(config)), config.useApifyProxy,
                        getApifyProxyUrl(RequestFor(config, needSess, env)))
    ensures config.proxyUrls.Some? && r.Some? ==> r.value == config.proxyUrls.value
    ensures config.proxyUrls.Some? && r.None? ==> config.proxyUrls.value.items == old(config.proxyUrls.value.items)
    ensures config.proxyUrls.None? && r.Some? ==> fresh(r.value)
  {
    var urls: UrlArray;
    if config.proxyUrls.Some? {
      urls := config.proxyUrls.value;
    } else {
      urls := new UrlArray([]);
    }
    if |urls.items| == 0 {
      if !Truthy(config.useApifyProxy) {
        return None;
      }
      var proxyUrl := getApifyProxyUrl(RequestFor(config, needSess, env));
      urls.Push(proxyUrl);
    }
    return Some(urls);
  }

  /**
   * Because the URL is pushed onto the caller's array, a second call with the
   * same configuration returns that array again, holding only the URL built by
   * the first call: the session of the first call is reused, not renewed.
   */
  method ResolveTwice(config: ProxyConfiguration, first: Environment, second: Environment,
                      getApifyProxyUrl: ProxyRequest -> string)
    returns (r1: Option<UrlArray>, r2: Option<UrlArray>)
    requires config.proxyUrls.Some? && config.proxyUrls.value.items == [] && Truthy(config.useApifyProxy)
    modifies config.proxyUrls.value
    ensures r1 == r2 == Some(config.proxyUrls.value)
    ensures config.proxyUrls.value.items == [getApifyProxyUrl(RequestFor(config, true, first))]
  {
    r1 := GetProxyUrls(config, true, first, getApifyProxyUrl);
    r2 := GetProxyUrls(config, true, second, getApifyProxyUrl);
  }
}
