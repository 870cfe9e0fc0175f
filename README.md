# proxyPage, a Vite plugin that serves a remote page for local development

This project models the core of `vite-plugin-proxy-page` (`src/index.ts`).
`proxyPage(options)` returns a Vite plugin with two hooks:

- The index-document hook `transformIndexHtml` resolves a remote URL. That is
  `remoteUrlFunction(ctx)` when the function is given, else a non-empty `remoteUrl`,
  else `'/'`. It then consults the module-level `htmlCache`. On a truthy hit it
  returns the cached page. Otherwise it parses the URL's origin, fetches the page and
  rewrites it with the HTML transformer. When `cacheHtml` is on (the default), it
  stores the result under the URL. Finally it returns the result.
- The module hook `transform` takes `localEntryPoint` and strips one leading `.`
  from it. It turns the result into a pattern and prepends `import.meta.hot; ` to
  every module whose id matches.

Files:

- `wrappers.dfy` (module `Wrappers`): `Option` for JavaScript's `undefined`, and
  `Result` for operations that throw.
- `proxy_page.dfy` (module `ProxyPage`): the options and the argument records, and
  the two hooks. `IndexHtml` is the index-document hook as a function of the cache
  contents. It returns the outcome, the new cache and the calls made in order
  (cache reads, URL parse, fetch, rewrite, cache write). The class `HtmlCache` is the
  shared module-level map. The class `ProxyPlugin` is the object `proxyPage` returns.
  Its method `TransformIndexHtml` updates the shared cache step by step, and its
  contract is proved equal to `IndexHtml`.
- `proxy_page_properties.dfy` (module `ProxyPageProperties`): the properties of a
  single call, of two calls in a row, and of a run of calls sharing one cache
  (`Serve`). The run properties are proved by induction.

Some code the plugin calls is not part of this model: the HTML rewriter of
`./transform`, `stringifyFromPattern` together with `RegExp.test`, and
`new URL(url).origin`. These appear as the function values of a `Library`, so nothing
is assumed about their behaviour. The network fetch (`axios.get`) is a function passed
to each call, so it may answer differently on every call.

Three consequences of the code that a reader might not expect:

- The cache check tests truthiness. A cached empty string therefore counts as a miss:
  the page is fetched again and the entry overwritten. An entry holding a non-empty
  page, on the other hand, stays for good, and every later call for its URL is
  served from it (`ServeKeepsTruthyEntries`, `ServeHitsTruthyEntries`).
- A failing call leaves the cache as it was. An earlier empty-string entry for that
  URL therefore stays.
- With neither `remoteUrl` nor `remoteUrlFunction`, no configuration error is raised.
  The URL falls back to `'/'`, and the URL parser rejects that (`NoRemoteUrlAlwaysFails`).

## Model

| member | source | states |
|---|---|---|
| `ProxyPage.CachingEnabled` | src/index.ts:36 | caching is on unless `cacheHtml` is explicitly `false` |
| `ProxyPage.NormalizeEntry` | src/index.ts:50 | the input is the output with one `.` in front when it starts with `.`; otherwise the output is the input |
| `ProxyPage.Transform` | src/index.ts:49-55 | the module hook returns `src` or `"import.meta.hot; " + src`; it returns the prefixed form iff the pattern built from the normalised entry matches `id`; `src` is always an unaltered suffix of the result |
| `ProxyPage.ResolveUrl` | src/index.ts:58 | the URL is `remoteUrlFunction(ctx)` when the function is given, else a non-empty `remoteUrl`, else `'/'`; without the function it is never empty |
| `ProxyPage.RenderArgs` | src/index.ts:69-75 | the rewriter receives the fetched page, the origin as `remoteHost`, and `localEntryPoint`, `remoteEntryPoint`, `rootNode` unchanged |
| `ProxyPage.Cached` | src/index.ts:60 | a cached value is truthy iff the URL is present and its page is not the empty string |
| `ProxyPage.IndexHtml` | src/index.ts:57-80 | a failed call leaves the cache unchanged; a successful one can only record the returned page under the resolved URL; with caching off the cache never changes; with caching on a successful call leaves the returned page cached for the URL; the first call made is the cache read, or the URL parse when caching is off |
| `ProxyPage.HtmlCache.constructor` | src/index.ts:28 | the shared cache starts empty |
| `ProxyPage.HtmlCache.Get` | src/index.ts:60-61 | `get` yields the stored page, or nothing for an absent URL |
| `ProxyPage.HtmlCache.Set` | src/index.ts:77 | `set` adds or overwrites exactly one entry |
| `ProxyPage.ProxyPlugin.constructor` | src/index.ts:30-38 | the plugin keeps the options, the library code and the shared cache it was built with |
| `ProxyPage.ProxyPlugin.TransformIndexHtml` | src/index.ts:57-80 | the step-by-step hook returns the outcome and makes the calls `IndexHtml` gives, and leaves the shared cache as `IndexHtml` gives it; on failure the cache is unchanged |
| `ProxyPageProperties.NormalizeEntryExamples` | src/index.ts:50 | `./src/main.ts` becomes `/src/main.ts`; `../x` becomes `./x`; a path without a leading `.` is unchanged |
| `ProxyPageProperties.NormalizeEntryUndoesDot` | src/index.ts:50 | normalising undoes prefixing a `.` |
| `ProxyPageProperties.CacheHitSkipsFetch` | src/index.ts:60-62 | a truthy cached page is returned as it is; the only calls are the two cache reads (no parse, fetch, rewrite or write) |
| `ProxyPageProperties.MissStoresPage` | src/index.ts:60-79 | on a miss where parse, fetch and rewrite succeed, the rewritten page is returned and stored under the URL, all other entries are unchanged, and the calls are read, parse, fetch, rewrite, write in that order |
| `ProxyPageProperties.EmptyEntryIsRefetched` | src/index.ts:60-77 | a cached empty string is a miss: the URL is parsed and fetched again, and a successful call overwrites the entry |
| `ProxyPageProperties.DisabledCacheIsBypassed` | src/index.ts:60-77 | with `cacheHtml` false the cache is never read or written, and every call whose URL parses is fetched |
| `ProxyPageProperties.FailureLeavesCache` | src/index.ts:64-77 | a failing parse, fetch or rewrite is reported as that step's error; no later step runs; the cache is left exactly as before |
| `ProxyPageProperties.WriteOnlyAfterRewrite` | src/index.ts:64-77 | the cache changes only after the parse, the fetch and the rewrite have all returned, and only by storing the rewritten page under the URL |
| `ProxyPageProperties.RewriterGetsConfiguration` | src/index.ts:64-75 | every rewrite call receives the fetched page, the origin of the resolved URL as `remoteHost`, and the configured `localEntryPoint`, `remoteEntryPoint` and `rootNode` |
| `ProxyPageProperties.RepeatIsServedFromCache` | src/index.ts:60-77 | after a call returns a non-empty page with caching on, the next call for the same URL returns the same page from the cache without touching the network |
| `ProxyPageProperties.EmptyPageIsFetchedAgain` | src/index.ts:60-77 | after a call returns an empty page, the next call for the same URL parses and fetches again |
| `ProxyPageProperties.Serve` | src/index.ts:57-80 | a run of calls yields one outcome per call |
| `ProxyPageProperties.ServeKeepsKeys` | src/index.ts:77 | over any run, cache entries are only added or overwritten, never removed |
| `ProxyPageProperties.ServeWithoutCaching` | src/index.ts:60-77 | with caching off, no run of calls changes the cache |
| `ProxyPageProperties.ServeKeepsTruthyEntries` | src/index.ts:60-77 | over any run, an entry holding a non-empty page is kept with exactly that page |
| `ProxyPageProperties.ServeHitsTruthyEntries` | src/index.ts:60-62 | with caching on, once a non-empty page is cached for a URL, every call of a later run for that URL returns that page |
| `ProxyPageProperties.ServeEntriesWereReturned` | src/index.ts:77-79 | after any run, each cache entry is either untouched from before the run or exactly the page some call of the run returned for that URL |
| `ProxyPageProperties.NoRemoteUrlAlwaysFails` | src/index.ts:58-64 | with no URL function and no non-empty `remoteUrl`, and a URL parser that rejects `'/'`, and no non-empty page already cached for `'/'`, every call of a run fails with an invalid-URL error and the cache is unchanged |

## Left out

- The HTTP fetch (`axios.get`, src/index.ts:65-67) is network I/O. It is a per-call parameter that returns the response text or an error.
- `new URL(url).origin` (src/index.ts:64) is library URL parsing. It is the partial function `Library.urlOrigin`.
- `./transform` (the HTML rewriter), and `stringifyFromPattern` with `RegExp.test` from `./utils`, are not part of this model. They are opaque function values, so their behaviour is not modelled. A pattern that fails to compile is not modelled either.
- `configResolved` calls `createRootIfNotExists(root)` (src/index.ts:45-47). That function is not part of this model, and it does filesystem I/O.
- The plugin metadata (`PLUGIN_NAME`, `name`, `apply`, `enforce`) is hook wiring only.
- Concurrent `transformIndexHtml` calls that interleave at the `await` are not modelled. Each call is one atomic step.
- The `_html` argument of `transformIndexHtml` is ignored by the source, so it is dropped.
- Only `path`, `filename` and `originalUrl` of Vite's `IndexHtmlTransformContext` are modelled. `remoteUrlFunction` is a total, pure function of the context, so a URL function that throws or has side effects is not modelled.
- `htmlCache` is exported, so other code could store non-string values in it. The model keeps only strings in it.
