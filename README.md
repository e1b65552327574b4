# H&M scraper helpers, in Dafny

A model of the decision logic in `src/utils.js` of a web-crawling actor for
the H&M shop. The model covers four helpers:

- **Input validation** (`validateInput`). A chain of guards over the actor's
  raw input. The input is a JavaScript value: `undefined`, `null`, a boolean,
  a number, a string, an array or an object.
- **Proxy URL resolution** (`getProxyUrls`). It returns the caller's own proxy
  list when that list is not empty. Otherwise, unless Apify Proxy is off, it
  builds one proxy URL and pushes it onto that same list, in place.
- **Seed URL classification** (`checkAndCreateUrlSource`). A loop that gives
  each seed URL a crawl label (HOMEPAGE, PRODUCT, SUBCAT, MAINCAT) by the
  first rule that matches, and drops the URLs no rule matches.
- **Output extension** (the result check and merge of `applyFunction`), plus
  the one-line item cap (`maxItemsCheck`).

Files, one module each:

- `wrappers.dfy`: `Option` and `Result`.
- `js_values.dfy`: JavaScript values, truthiness, `typeof`, property access.
- `js_strings.dfy`: `includes` and character counts.
- `input_validation.dfy`: `validateInput`.
- `proxy_urls.dfy`: `getProxyUrls`, with the caller's array as a class whose
  `items` field is grown in place.
- `url_sources.dfy`: the classifier and its loop.
- `url_source_examples.dfy`: one worked URL per classifier outcome.
- `output_extension.dfy`: `applyFunction`.
- `item_cap.dfy`: `maxItemsCheck`.

Where the code behaves in a way its comments or intent do not suggest, the
model follows the code:

- An empty `startUrls` array passes validation. The presence check at line 26
  only reads `.length` when `startUrls` is falsy, so it never rejects an array.
- A falsy `startUrls` fails in three different ways:
  - `undefined` or `null` throw a TypeError while reading `.length`;
  - `""` throws the "required" error;
  - `0` and `false` pass the presence check and fail the array check.
- The product regex `/[0-9]{8,12}/` is not anchored. It therefore matches any
  run of at least 8 digits (`DigitRunTestIff`).
- The scheme removal deletes the first `http://` or `https://` wherever it
  appears, not only at the start. When no `/` is left, `.match` returns `null`
  and reading its `.length` throws. The whole call then fails, including for
  the site's bare host name (`NoSlashExample`).
- `getProxyUrls` pushes onto the caller's own array. A caller that passes
  a configuration with `proxyUrls: []`, and then passes the same
  configuration again, gets the first call's URL, and its session, on every
  later call (`ResolveTwice`).

## Model

| member | source | states |
|---|---|---|
| `InputValidation.ValidateInput` | src/utils.js:7-35 | Passes exactly on acceptable input: truthy input, an array `startUrls`, and `maxItems`, `extendOutputFunction`, `proxyConfiguration` each of the checked type or falsy. Also gives the exact error of every failing case, in the code's check order. |
| `InputValidation.EmptyStartUrlsPass` | src/utils.js:26-31 | `{ startUrls: [] }` passes. |
| `InputValidation.MaxItemsChecks` | src/utils.js:18-22 | `maxItems: "5"` fails with the "should be number" error; `maxItems: 0` and `maxItems: ""` pass. |
| `InputValidation.ArrayProxyConfigurationPasses` | src/utils.js:18-22 | An array for `proxyConfiguration` passes, because `typeof` of an array is "object". |
| `ProxyUrls.UrlArray.Push` | src/utils.js:51 | `push` appends one URL to the array's contents in place. |
| `ProxyUrls.Resolved` | src/utils.js:38-54 | A non-empty list comes back unchanged. An empty list comes back as `undefined` when `useApifyProxy` is falsy, and otherwise as the single constructed URL. A returned list is never empty. |
| `ProxyUrls.ResolvedIsStable` | src/utils.js:41-54 | Resolving an already resolved list returns it unchanged, whatever URL the proxy service would build next. |
| `ProxyUrls.GetProxyUrls` | src/utils.js:37-55 | The returned URLs are `Resolved` of the list given before the call. A given array is returned as that same object. An absent one yields a fresh array. When `undefined` is returned, a given array is left unchanged. The constructed URL is the one the proxy service builds for `RequestFor`, the request of lines 44-49: the password, the groups, the default country, and a session equal to the current time exactly when one is needed. |
| `ProxyUrls.ResolveTwice` | src/utils.js:41-51 | Two calls on a configuration with `proxyUrls: []` both return the caller's array. It then holds only the URL built, with its session, by the first call. |
| `UrlSources.DigitRunTestIff` | src/utils.js:72 | `/[0-9]{8,12}/.test(url)` holds iff the URL has 8 consecutive ASCII digits somewhere. |
| `UrlSources.SchemeMatchAt` | src/utils.js:82 | A scheme match at a position exists iff `http://` or `https://` starts there. It spans exactly two slashes. |
| `UrlSources.FirstSchemeFrom` | src/utils.js:82 | Finds the leftmost position at or after `from` where the scheme pattern matches, or none if it matches nowhere. |
| `UrlSources.StripScheme` | src/utils.js:82 | `replace` leaves a URL without a scheme unchanged. It removes exactly two slashes from one that has a scheme. |
| `UrlSources.SlashesFrom` | src/utils.js:82 | The positions from a given index on that hold a `/`: every one of them, each exactly once, in increasing order. |
| `UrlSources.SlashesFromCount` | src/utils.js:82 | There are as many positions as slashes. |
| `UrlSources.SlashMatches` | src/utils.js:82 | `match(/\//g)` is `null` iff the string has no `/`. Otherwise it is the list of all the `/` positions, one entry per `/`. |
| `UrlSources.ClassifyRules` | src/utils.js:65-92 | The first matching rule wins. The exact homepage URL, and only it, is HOMEPAGE. Then PRODUCT iff the URL has `productpage` or 8 digits in a row. Then SUBCAT iff it has one of the nine markers. Then, counting the URL's slashes minus the scheme's two: MAINCAT for 1 or 2, dropped for more, TypeError for 0. |
| `UrlSources.FailurePersists` | src/utils.js:65-93 | Once a seed throws, the seeds after it do not change the outcome of the call. |
| `UrlSources.CheckAndCreateUrlSource` | src/utils.js:57-96 | The loop returns exactly `SourcesOf(startUrls, Classify)`: the pushed sources, or the TypeError of the first seed with no `/` left. |
| `UrlSources.SourcesAreLabelledSubsequence` | src/utils.js:57-95 | The sources are an order-preserving subsequence of the seeds, no longer than the input. Each source is its seed's URL unchanged with that seed's one label. No labelled seed is left out. |
| `UrlSources.SourcesSucceedIff` | src/utils.js:65-93 | The call returns iff no seed reaches the slash count with no `/` left. |
| `UrlSources.FailureIsFirstNoSlash` | src/utils.js:65-93 | On failure, the failing URL is that of the first seed with no `/` left. |
| `UrlSourceExamples.ProductExample` | src/utils.js:72-73 | `https://x.com/en_us/productpage.123456.html` is PRODUCT. |
| `UrlSourceExamples.SubcatExample` | src/utils.js:77-78 | `https://x.com/en_us/sale/abc` is SUBCAT. |
| `UrlSourceExamples.MaincatExample` | src/utils.js:82-83 | `https://hm.com/men` is MAINCAT. |
| `UrlSourceExamples.DroppedExample` | src/utils.js:86-91 | `https://hm.com/a/b/e` is dropped. |
| `UrlSourceExamples.NoSlashExample` | src/utils.js:82 | `https://www2.hm.com` reaches the TypeError. |
| `OutputExtension.IsObject` | src/utils.js:123 | `isObject` holds exactly for plain objects, not for `null` or arrays. |
| `OutputExtension.Spread` | src/utils.js:137 | `{ ...item, ...extra }` has the keys of both. Values come from `extra` on shared keys and from `item` elsewhere. |
| `OutputExtension.ApplyFunction` | src/utils.js:122-138 | A throwing user function yields the item unchanged. A returned plain object is merged, with the user's values winning on shared keys. Any other returned value, including arrays, `null` and `undefined`, is a fatal exit with code 1. |
| `OutputExtension.MergeExample` | src/utils.js:137 | `{ price: 10 }` returned for `{ name: "x" }` gives `{ name: "x", price: 10 }`. |
| `ItemCap.MaxItemsCheck` | src/utils.js:98-104 | Halts iff the count reaches a numeric `maxItems`. It never halts for an absent `maxItems`, and always halts for `null`, `false` or `""`, which compare as 0. |

## Left out

- `checkAndEval` (src/utils.js:106-120) is left out. It runs `eval` on user-supplied source text, which has no counterpart here. `applyFunction` takes the outcome of the user's function as a given value.
- `async`/`await` are left out. The awaited result of the user's function is given: it throws, or it returns a value.
- Logging is left out: `console.log`, `log.warning`, `log.info`, `log.error` and `log.exception`. No warning text is produced for dropped URLs.
- `process.exit` is modelled as a result value (`FatalExit`, `Halt`), not as process termination.
- `Apify.getApifyProxyUrl` is a function parameter. The environment's `APIFY_PROXY_PASSWORD`, the clock's `Date.now().toString()` and the default country are fields of an `Environment` parameter. `src/constants.js`, which defines `PROXY_DEFAULT_COUNTRY`, is not part of this model.
- Numbers are integers. NaN, fractional numbers, functions, symbols and BigInt values are not modelled.
- Property access models only an own property of a plain object. Any other value reads as `undefined`. Keys inherited from a prototype are not modelled, and none of the keys the helpers read is one.
- Object key order is not modelled, because objects are maps.
- `GetProxyUrls`: a `proxyConfiguration` that is itself `undefined` is not modelled; destructuring it would throw a TypeError. A `proxyUrls` that is not an array (e.g. `null` or a string) is not modelled either.
- `CheckAndCreateUrlSource`: a seed whose `url` is not a string, which makes `.includes` throw, is not modelled. Neither is a `startUrls` that is an iterable but not an array.
- `MaxItemsCheck`: only the `maxItems` values that input validation lets through are modelled: numbers and the falsy values. Its unused `requestQueue` parameter is dropped.
