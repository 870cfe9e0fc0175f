/**
  What `transformIndexHtml` and `transform` of src/index.ts promise: per call
  (cache hits, misses, failures, the bypass when caching is off, the arguments
  the rewriter receives), and over a sequence of calls sharing one `htmlCache`.
 */
module ProxyPageProperties {
  import opened Wrappers
  import opened ProxyPage

  // ---------------------------------------------------------------------------
  // The module hook

  /** Only one leading `.` is dropped: `./src/main.ts` keeps its `/`, `../x` keeps a `.`. */
  lemma NormalizeEntryExamples()
    ensures NormalizeEntry("./src/main.ts") == "/src/main.ts"
    ensures NormalizeEntry("../x") == "./x"
    ensures NormalizeEntry("src/main.ts") == "src/main.ts"
  {
  }

  /** Putting a `.` in front and normalising gives the path back. */
  lemma NormalizeEntryUndoesDot(path: string)
    ensures NormalizeEntry("." + path) == path
  {
  }

  // ---------------------------------------------------------------------------
  // One call of the index-document hook

  /** A truthy cached page is returned as it is; nothing is parsed, fetched,
      rewritten or written. */
  lemma CacheHitSkipsFetch(options: ProxyPageOptions, lib: Library, cache: map<string, string>,
                           ctx: Option<IndexHtmlContext>, fetch: Fetcher)
    requires CachingEnabled(options) && Cached(cache, ResolveUrl(options, ctx))
    ensures var url := ResolveUrl(options, ctx);
            var s := IndexHtml(options, lib, cache, ctx, fetch);
            s.result == Success(cache[url]) && s.cache == cache && s.calls == [CacheGet(url), CacheGet(url)]
  {
  }

  /** A miss whose parse, fetch and rewrite all succeed returns the rewritten page
      and stores exactly that page under the URL, leaving every other entry alone. */
  lemma MissStoresPage(options: ProxyPageOptions, lib: Library, cache: map<string, string>,
                       ctx: Option<IndexHtmlContext>, fetch: Fetcher,
                       origin: string, html: string, page: string)
    requires CachingEnabled(options) && !Cached(cache, ResolveUrl(options, ctx))
    requires lib.urlOrigin(ResolveUrl(options, ctx)) == Some(origin)
    requires fetch(ResolveUrl(options, ctx)) == Success(html)
    requires lib.transformHtml(RenderArgs(options, origin, html)) == Success(page)
    ensures var url := ResolveUrl(options, ctx);
            var s := IndexHtml(options, lib, cache, ctx, fetch);
            && s.result == Success(page)
            && s.cache == cache[url := page]
            && s.calls == [CacheGet(url), ParseUrl(url), Fetch(url),
                           RenderHtml(RenderArgs(options, origin, html)), CacheSet(url, page)]
  {
  }

  /** A cached empty string is falsy, so it counts as a miss: the page is parsed and
      fetched again, and a successful call overwrites the entry. */
  lemma EmptyEntryIsRefetched(options: ProxyPageOptions, lib: Library, cache: map<string, string>,
                              ctx: Option<IndexHtmlContext>, fetch: Fetcher)
    requires CachingEnabled(options)
    requires ResolveUrl(options, ctx) in cache && cache[ResolveUrl(options, ctx)] == ""
    ensures var url := ResolveUrl(options, ctx);
            var s := IndexHtml(options, lib, cache, ctx, fetch);
            && s.calls[..2] == [CacheGet(url), ParseUrl(url)]
            && (lib.urlOrigin(url).Some? ==> Fetch(url) in s.calls)
            && (s.result.Success? ==> s.cache == cache[url := s.result.value])
  {
  }

  /** With `cacheHtml: false` the cache is never read or written, and every call whose
      URL parses goes to the network. */
  lemma DisabledCacheIsBypassed(options: ProxyPageOptions, lib: Library, cache: map<string, string>,
                                ctx: Option<IndexHtmlContext>, fetch: Fetcher)
    requires !CachingEnabled(options)
    ensures var url := ResolveUrl(options, ctx);
            var s := IndexHtml(options, lib, cache, ctx, fetch);
            && s.cache == cache
            && (forall i :: 0 <= i < |s.calls| ==> !s.calls[i].CacheGet? && !s.calls[i].CacheSet?)
            && (lib.urlOrigin(url).Some? ==> s.calls[..2] == [ParseUrl(url), Fetch(url)])
  {
  }

  /** Each failure is reported as the error of the step that threw, later steps are
      not taken, and the cache is left exactly as it was. */
  lemma FailureLeavesCache(options: ProxyPageOptions, lib: Library, cache: map<string, string>,
                           ctx: Option<IndexHtmlContext>, fetch: Fetcher)
    requires !(CachingEnabled(options) && Cached(cache, ResolveUrl(options, ctx)))
    ensures var url := ResolveUrl(options, ctx);
            var s := IndexHtml(options, lib, cache, ctx, fetch);
            var probe := if CachingEnabled(options) then [CacheGet(url)] else [];
            && (lib.urlOrigin(url).None? ==>
                  s.result == Failure(InvalidUrl(url)) && s.cache == cache && s.calls == probe + [ParseUrl(url)])
            && (lib.urlOrigin(url).Some? && fetch(url).Failure? ==>
                  && s.result == Failure(FetchFailed(fetch(url).error)) && s.cache == cache
                  && s.calls == probe + [ParseUrl(url), Fetch(url)])
            && (lib.urlOrigin(url).Some? && fetch(url).Success? &&
                lib.transformHtml(RenderArgs(options, lib.urlOrigin(url).value, fetch(url).value)).Failure? ==>
                  && s.result == Failure(TransformFailed(
                       lib.transformHtml(RenderArgs(options, lib.urlOrigin(url).value, fetch(url).value)).error))
                  && s.cache == cache
                  && s.calls == probe + [ParseUrl(url), Fetch(url),
                                         RenderHtml(RenderArgs(options, lib.urlOrigin(url).value, fetch(url).value))])
  {
  }

  /** The cache only changes after the parse, the fetch and the rewrite have all
      returned, and then only by recording the rewritten page under the URL. */
  lemma WriteOnlyAfterRewrite(options: ProxyPageOptions, lib: Library, cache: map<string, string>,
                              ctx: Option<IndexHtmlContext>, fetch: Fetcher)
    ensures var url := ResolveUrl(options, ctx);
            var s := IndexHtml(options, lib, cache, ctx, fetch);
            s.cache != cache ==>
              && lib.urlOrigin(url).Some? && fetch(url).Success?
              && var page := lib.transformHtml(RenderArgs(options, lib.urlOrigin(url).value, fetch(url).value));
                 page.Success? && s.result == Success(page.value) && s.cache == cache[url := page.value]
  {
  }

  /** The rewriter is handed the fetched page, the origin of the resolved URL as
      `remoteHost`, and `localEntryPoint`, `remoteEntryPoint` and `rootNode` unchanged. */
  lemma RewriterGetsConfiguration(options: ProxyPageOptions, lib: Library, cache: map<string, string>,
                                  ctx: Option<IndexHtmlContext>, fetch: Fetcher, i: nat)
    requires i < |IndexHtml(options, lib, cache, ctx, fetch).calls|
    requires IndexHtml(options, lib, cache, ctx, fetch).calls[i].RenderHtml?
    ensures var url := ResolveUrl(options, ctx);
            var args := IndexHtml(options, lib, cache, ctx, fetch).calls[i].options;
            && lib.urlOrigin(url) == Some(args.remoteHost)
            && fetch(url) == Success(args.html)
            && args.localEntryPoint == options.localEntryPoint
            && args.remoteEntryPoint == options.remoteEntryPoint
            && args.rootNode == options.rootNode
  {
  }

  // ---------------------------------------------------------------------------
  // Two calls in a row

  /** After a call that returned a non-empty page with caching on, the next call
      for the same URL returns that page again without going to the network. */
  lemma RepeatIsServedFromCache(options: ProxyPageOptions, lib: Library, cache: map<string, string>,
                                first: Request, second: Request)
    requires CachingEnabled(options)
    requires ResolveUrl(options, first.ctx) == ResolveUrl(options, second.ctx)
    requires var s := IndexHtml(options, lib, cache, first.ctx, first.fetch);
             s.result.Success? && s.result.value != ""
    ensures var s := IndexHtml(options, lib, cache, first.ctx, first.fetch);
            var t := IndexHtml(options, lib, s.cache, second.ctx, second.fetch);
            var url := ResolveUrl(options, second.ctx);
            t.result == s.result && t.cache == s.cache && t.calls == [CacheGet(url), CacheGet(url)]
  {
  }

  /** A page that came back empty is not served from the cache: the next call for
      the same URL parses and fetches again. */
  lemma EmptyPageIsFetchedAgain(options: ProxyPageOptions, lib: Library, cache: map<string, string>,
                                first: Request, second: Request)
    requires CachingEnabled(options)
    requires ResolveUrl(options, first.ctx) == ResolveUrl(options, second.ctx)
    requires IndexHtml(options, lib, cache, first.ctx, first.fetch).result == Success("")
    ensures var s := IndexHtml(options, lib, cache, first.ctx, first.fetch);
            var t := IndexHtml(options, lib, s.cache, second.ctx, second.fetch);
            var url := ResolveUrl(options, second.ctx);
            t.calls[..2] == [CacheGet(url), ParseUrl(url)]
  {
  }

  // ---------------------------------------------------------------------------
  // A sequence of calls sharing one cache

  /** One call of the hook: its context and the network as it answers during that call. */
  datatype Request = Request(ctx: Option<IndexHtmlContext>, fetch: Fetcher)

  /** The cache after a run of calls and the outcome of each call, in order. */
  datatype Run = Run(cache: map<string, string>, results: seq<Result<string, Error>>)

  /** The calls `requests`, made one after another, starting from the cache contents `cache`. */
  function Serve(options: ProxyPageOptions, lib: Library, cache: map<string, string>,
                 requests: seq<Request>): (run: Run)
    ensures |run.results| == |requests|
    decreases |requests|
  {
    if requests == [] then Run(cache, [])
    else
      var s := IndexHtml(options, lib, cache, requests[0].ctx, requests[0].fetch);
      var rest := Serve(options, lib, s.cache, requests[1..]);
      Run(rest.cache, [s.result] + rest.results)
  }

  /** Entries are only ever added or overwritten, never removed. */
  lemma {:induction false} ServeKeepsKeys(options: ProxyPageOptions, lib: Library,
                                          cache: map<string, string>, requests: seq<Request>)
    ensures cache.Keys <= Serve(options, lib, cache, requests).cache.Keys
    decreases |requests|
  {
    if requests != [] {
      var s := IndexHtml(options, lib, cache, requests[0].ctx, requests[0].fetch);
      ServeKeepsKeys(options, lib, s.cache, requests[1..]);
    }
  }

  /** With caching off, no run of calls changes the cache. */
  lemma {:induction false} ServeWithoutCaching(options: ProxyPageOptions, lib: Library,
                                               cache: map<string, string>, requests: seq<Request>)
    requires !CachingEnabled(options)
    ensures Serve(options, lib, cache, requests).cache == cache
    decreases |requests|
  {
    if requests != [] {
      var s := IndexHtml(options, lib, cache, requests[0].ctx, requests[0].fetch);
      ServeWithoutCaching(options, lib, s.cache, requests[1..]);
    }
  }

  /** An entry holding a non-empty page is never changed again: a write needs a
      miss, and a truthy entry is never a miss. */
  lemma {:induction false} ServeKeepsTruthyEntries(options: ProxyPageOptions, lib: Library,
                                                   cache: map<string, string>, requests: seq<Request>,
                                                   url: string)
    requires Cached(cache, url)
    ensures var run := Serve(options, lib, cache, requests);
            url in run.cache && run.cache[url] == cache[url]
    decreases |requests|
  {
    if requests != [] {
      var s := IndexHtml(options, lib, cache, requests[0].ctx, requests[0].fetch);
      assert url in s.cache && s.cache[url] == cache[url];
      ServeKeepsTruthyEntries(options, lib, s.cache, requests[1..], url);
    }
  }

  /** With caching on, once a non-empty page is cached for a URL, every later call
      for that URL returns that page. */
  lemma {:induction false} ServeHitsTruthyEntries(options: ProxyPageOptions, lib: Library,
                                                  cache: map<string, string>, requests: seq<Request>,
                                                  url: string)
    requires CachingEnabled(options) && Cached(cache, url)
    ensures var run := Serve(options, lib, cache, requests);
            forall i :: 0 <= i < |requests| && ResolveUrl(options, requests[i].ctx) == url ==>
              run.results[i] == Success(cache[url])
    decreases |requests|
  {
    if requests != [] {
      var run := Serve(options, lib, cache, requests);
      var s := IndexHtml(options, lib, cache, requests[0].ctx, requests[0].fetch);
      var rest := Serve(options, lib, s.cache, requests[1..]);
      assert url in s.cache && s.cache[url] == cache[url];
      ServeHitsTruthyEntries(options, lib, s.cache, requests[1..], url);
      assert run.results == [s.result] + rest.results;
      forall i | 0 <= i < |requests| && ResolveUrl(options, requests[i].ctx) == url
        ensures run.results[i] == Success(cache[url])
      {
        if i > 0 {
          assert requests[1..][i - 1] == requests[i];
        }
      }
    }
  }

  /** Call `i` of `requests` resolved to `url` and returned `page`. */
  predicate ReturnedAt(options: ProxyPageOptions, requests: seq<Request>,
                       results: seq<Result<string, Error>>, i: int, url: string, page: string)
  {
    0 <= i < |requests| && i < |results| &&
    ResolveUrl(options, requests[i].ctx) == url && results[i] == Success(page)
  }

  /** Every cache entry after a run is either an untouched entry from before it, or
      exactly the page that some call of the run returned for that URL. */
  lemma {:induction false} ServeEntriesWereReturned(options: ProxyPageOptions, lib: Library,
                                                    cache: map<string, string>, requests: seq<Request>)
    ensures var run := Serve(options, lib, cache, requests);
            forall url :: url in run.cache ==>
              (url in cache && run.cache[url] == cache[url]) ||
              exists i :: ReturnedAt(options, requests, run.results, i, url, run.cache[url])
    decreases |requests|
  {
    if requests != [] {
      var run := Serve(options, lib, cache, requests);
      var s := IndexHtml(options, lib, cache, requests[0].ctx, requests[0].fetch);
      var rest := Serve(options, lib, s.cache, requests[1..]);
      ServeEntriesWereReturned(options, lib, s.cache, requests[1..]);
      assert run.results == [s.result] + rest.results;
      forall url | url in run.cache
        ensures (url in cache && run.cache[url] == cache[url]) ||
                exists i :: ReturnedAt(options, requests, run.results, i, url, run.cache[url])
      {
        if exists j :: ReturnedAt(options, requests[1..], rest.results, j, url, rest.cache[url]) {
          var j :| ReturnedAt(options, requests[1..], rest.results, j, url, rest.cache[url]);
          assert ReturnedAt(options, requests, run.results, j + 1, url, run.cache[url]);
        } else if url in cache && s.cache[url] != cache[url] {
          assert ReturnedAt(options, requests, run.results, 0, url, run.cache[url]);
        } else if url !in cache {
          assert ReturnedAt(options, requests, run.results, 0, url, run.cache[url]);
        }
      }
    }
  }

  /** With neither `remoteUrlFunction` nor a non-empty `remoteUrl`, every call asks
      for `'/'`; a URL parser that rejects `'/'` (it has no base) then makes every
      call of the run fail, and the cache never gets a truthy entry for `'/'`. */
  lemma {:induction false} NoRemoteUrlAlwaysFails(options: ProxyPageOptions, lib: Library,
                                                  cache: map<string, string>, requests: seq<Request>)
    requires options.remoteUrlFunction.None? && options.remoteUrl in {None, Some("")}
    requires lib.urlOrigin(DefaultUrl).None?
    requires !Cached(cache, DefaultUrl)
    ensures var run := Serve(options, lib, cache, requests);
            run.cache == cache &&
            forall i :: 0 <= i < |run.results| ==> run.results[i] == Failure(InvalidUrl(DefaultUrl))
    decreases |requests|
  {
    if requests != [] {
      var s := IndexHtml(options, lib, cache, requests[0].ctx, requests[0].fetch);
      assert s.result == Failure(InvalidUrl(DefaultUrl)) && s.cache == cache;
      NoRemoteUrlAlwaysFails(options, lib, s.cache, requests[1..]);
    }
  }
}
