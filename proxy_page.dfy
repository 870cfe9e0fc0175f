/**
  The Vite plugin `proxyPage` (src/index.ts): a module hook that marks the local
  entry point as a hot-reload root, and an index-document hook that serves a
  remote page, rewritten for local development and memoised per URL in the
  module-level `htmlCache`.

  Code the plugin calls but whose source is not part of this model (the HTML
  rewriter of `./transform`, `stringifyFromPattern` with the regular-expression
  test, and the `URL` parser) is given as the function values of a `Library`;
  the network fetch is a parameter of each call.
 */
module ProxyPage {
  import opened Wrappers

  /** `RootNode`: the element the local entry is prepended to, and the id it carries. */
  datatype RootNode = RootNode(prependTo: Option<string>, id: Option<string>)

  /** `remoteEntryPoint: RegExp | string`: the remote page's own entry script. */
  datatype RemoteEntryPoint = EntryString(text: string) | EntryRegExp(source: string, flags: string)

  /** The part of Vite's `IndexHtmlTransformContext` a URL function can look at. */
  datatype IndexHtmlContext = IndexHtmlContext(path: string, filename: string, originalUrl: Option<string>)

  /** `remoteUrlFunction`, called with the hook's optional context. */
  type UrlFunction = Option<IndexHtmlContext> -> string

  /** `ProxyPageOptions`; a field that is `undefined` in JavaScript is `None` here. */
  datatype ProxyPageOptions = ProxyPageOptions(
    localEntryPoint: string,
    remoteUrl: Option<string>,
    remoteUrlFunction: Option<UrlFunction>,
    remoteEntryPoint: Option<RemoteEntryPoint>,
    rootNode: Option<RootNode>,
    cacheHtml: Option<bool>)

  /** The argument object handed to the HTML rewriter of `./transform`. */
  datatype TransformOptions = TransformOptions(
    html: string,
    localEntryPoint: string,
    remoteEntryPoint: Option<RemoteEntryPoint>,
    remoteHost: string,
    rootNode: Option<RootNode>)

  /** Library code whose behaviour this model does not fix:
      - `entryPattern(entry, id)` is `new RegExp(stringifyFromPattern(entry)).test(id)`;
      - `urlOrigin(url)` is `new URL(url).origin`, `None` where the constructor throws;
      - `transformHtml(options)` is the default export of `./transform`, `Failure`
        where it throws. */
  datatype Library = Library(
    entryPattern: (string, string) -> bool,
    urlOrigin: string -> Option<string>,
    transformHtml: TransformOptions -> Result<string, string>)

  /** `axios.get(url, { responseType: "text" })`: the response text, or the error it rejects with. */
  type Fetcher = string -> Result<string, string>

  /** Why `transformIndexHtml` rejects: the error of the step that threw, passed on unchanged. */
  datatype Error =
    | InvalidUrl(url: string)
    | FetchFailed(reason: string)
    | TransformFailed(reason: string)

  /** The calls one `transformIndexHtml` makes, in the order it makes them. */
  datatype Call =
    | CacheGet(url: string)
    | ParseUrl(url: string)
    | Fetch(url: string)
    | RenderHtml(options: TransformOptions)
    | CacheSet(url: string, html: string)

  /** What one `transformIndexHtml` call does: its outcome, the cache afterwards, its calls. */
  datatype Step = Step(result: Result<string, Error>, cache: map<string, string>, calls: seq<Call>)

  /** The text the module hook puts in front of the entry module. */
  const HotPrefix: string := "import.meta.hot; "

  /** The URL used when neither `remoteUrlFunction` nor a non-empty `remoteUrl` is given. */
  const DefaultUrl: string := "/"

  /** The destructuring default `cacheHtml = true`: only an explicit `false` turns caching off. */
  function CachingEnabled(options: ProxyPageOptions): (enabled: bool)
    ensures enabled <==> options.cacheHtml != Some(false)
  {
    match options.cacheHtml
    case None => true
    case Some(b) => b
  }

  /** `localEntryPoint.replace(/^\./, "")`: drops one leading `.`, if there is one. */
  function NormalizeEntry(entry: string): (normal: string)
    ensures |entry| > 0 && entry[0] == '.' ==> entry == "." + normal
    ensures !(|entry| > 0 && entry[0] == '.') ==> normal == entry
  {
    if |entry| > 0 && entry[0] == '.' then entry[1..] else entry
  }

  /** The module hook `transform(src, id)`: the entry module gets `HotPrefix`,
      every other module is returned as it came. */
  function Transform(options: ProxyPageOptions, lib: Library, src: string, id: string): (out: string)
    ensures out == src || out == HotPrefix + src
    ensures out != src <==> lib.entryPattern(NormalizeEntry(options.localEntryPoint), id)
    ensures |src| <= |out| && out[|out| - |src|..] == src
  {
    var entry := NormalizeEntry(options.localEntryPoint);
    var isLocalEntryPoint := lib.entryPattern(entry, id);
    if isLocalEntryPoint then HotPrefix + src else src
  }

  /** `remoteUrlFunction ? remoteUrlFunction(ctx) : remoteUrl || '/'`: an empty
      `remoteUrl` is falsy and so falls back to `'/'` as well. */
  function ResolveUrl(options: ProxyPageOptions, ctx: Option<IndexHtmlContext>): (url: string)
    ensures options.remoteUrlFunction.Some? ==> url == options.remoteUrlFunction.value(ctx)
    ensures options.remoteUrlFunction.None? && options.remoteUrl.Some? && options.remoteUrl.value != ""
            ==> url == options.remoteUrl.value
    ensures options.remoteUrlFunction.None? && options.remoteUrl.Some? ==> url != ""
    ensures options.remoteUrlFunction.None? && options.remoteUrl in {None, Some("")} ==> url == DefaultUrl
  {
    match options.remoteUrlFunction
    case Some(f) => f(ctx)
    case None =>
      match options.remoteUrl
      case Some(u) => if u != "" then u else DefaultUrl
      case None => DefaultUrl
  }

  /** The argument object `transformIndexHtml` builds for the rewriter: the fetched
      page, the origin of the resolved URL, and three options passed through as given. */
  function RenderArgs(options: ProxyPageOptions, origin: string, html: string): (args: TransformOptions)
    ensures args.html == html && args.remoteHost == origin
    ensures args.localEntryPoint == options.localEntryPoint
    ensures args.remoteEntryPoint == options.remoteEntryPoint && args.rootNode == options.rootNode
  {
    TransformOptions(html, options.localEntryPoint, options.remoteEntryPoint, origin, options.rootNode)
  }

  /** JavaScript truthiness of `htmlCache.get(url)`: present and not the empty string. */
  predicate Cached(cache: map<string, string>, url: string): (truthy: bool)
    ensures truthy ==> url in cache && |cache[url]| > 0
    ensures url in cache && |cache[url]| > 0 ==> truthy
  {
    url in cache && cache[url] != ""
  }

  /** One `transformIndexHtml(_html, ctx)` call against the cache contents `cache`:
      the cache check, then the URL parse, the fetch, the rewrite and the write. */
  function IndexHtml(options: ProxyPageOptions, lib: Library, cache: map<string, string>,
                     ctx: Option<IndexHtmlContext>, fetch: Fetcher): (s: Step)
    // the only change the cache can see is the returned page recorded under the resolved URL
    ensures s.result.Failure? ==> s.cache == cache
    ensures s.result.Success? ==>
              s.cache == cache || s.cache == cache[ResolveUrl(options, ctx) := s.result.value]
    ensures !CachingEnabled(options) ==> s.cache == cache
    // with caching on, a page that was returned is what the cache now holds for the URL
    ensures CachingEnabled(options) && s.result.Success? ==>
              ResolveUrl(options, ctx) in s.cache && s.cache[ResolveUrl(options, ctx)] == s.result.value
    // every call starts with the cache check or, with caching off, with the URL parse
    ensures |s.calls| > 0
    ensures s.calls[0] == if CachingEnabled(options) then CacheGet(ResolveUrl(options, ctx))
                          else ParseUrl(ResolveUrl(options, ctx))
  {
    var url := ResolveUrl(options, ctx);
    var caching := CachingEnabled(options);
    if caching && Cached(cache, url) then
      Step(Success(cache[url]), cache, [CacheGet(url), CacheGet(url)])
    else
      var probe := if caching then [CacheGet(url)] else [];
      match lib.urlOrigin(url)
      case None =>
        Step(Failure(InvalidUrl(url)), cache, probe + [ParseUrl(url)])
      case Some(origin) =>
        match fetch(url)
        case Failure(e) =>
          Step(Failure(FetchFailed(e)), cache, probe + [ParseUrl(url), Fetch(url)])
        case Success(html) =>
          var args := RenderArgs(options, origin, html);
          var done := probe + [ParseUrl(url), Fetch(url), RenderHtml(args)];
          match lib.transformHtml(args)
          case Failure(e) =>
            Step(Failure(TransformFailed(e)), cache, done)
          case Success(page) =>
            if caching then Step(Success(page), cache[url := page], done + [CacheSet(url, page)])
            else Step(Success(page), cache, done)
  }

  /** The module-level `htmlCache` map, shared by every plugin the module creates. */
  class HtmlCache {
    var entries: map<string, string>

    constructor ()
      ensures entries == map[]
    {
      entries := map[];
    }

    /** `htmlCache.get(url)`: `undefined` for a URL never stored. */
    method Get(url: string) returns (v: Option<string>)
      ensures v.Some? <==> url in entries
      ensures v.Some? ==> v.value == entries[url]
    {
      v := if url in entries then Some(entries[url]) else None;
    }

    /** `htmlCache.set(url, html)`: adds or overwrites one entry. */
    method Set(url: string, html: string)
      modifies this
      ensures entries == old(entries)[url := html]
    {
      entries := entries[url := html];
    }
  }

  /** The object `proxyPage(options)` returns: its hooks close over the options
      and over the shared `htmlCache`. */
  class ProxyPlugin {
    const options: ProxyPageOptions
    const lib: Library
    const htmlCache: HtmlCache

    /** `proxyPage(options)`. */
    constructor (options: ProxyPageOptions, lib: Library, htmlCache: HtmlCache)
      ensures this.options == options && this.lib == lib && this.htmlCache == htmlCache
    {
      this.options := options;
      this.lib := lib;
      this.htmlCache := htmlCache;
    }

    /** The hook `transformIndexHtml(_html, ctx)`, run to completion as one step. */
    method TransformIndexHtml(ctx: Option<IndexHtmlContext>, fetch: Fetcher)
      returns (result: Result<string, Error>, calls: seq<Call>)
      modifies htmlCache
      ensures var s := IndexHtml(options, lib, old(htmlCache.entries), ctx, fetch);
              result == s.result && htmlCache.entries == s.cache && calls == s.calls
      ensures result.Failure? ==> htmlCache.entries == old(htmlCache.entries)
    {
      var url := ResolveUrl(options, ctx);
      var caching := CachingEnabled(options);
      calls := [];
      if caching {
        var cached := htmlCache.Get(url);
        calls := calls + [CacheGet(url)];
        if cached.Some? && cached.value != "" {
          var again := htmlCache.Get(url);
          calls := calls + [CacheGet(url)];
          result := Success(again.value);
          return;
        }
      }

      var origin := lib.urlOrigin(url);
      calls := calls + [ParseUrl(url)];
      if origin.None? {
        result := Failure(InvalidUrl(url));
        return;
      }

      var response := fetch(url);
      calls := calls + [Fetch(url)];
      if response.Failure? {
        result := Failure(FetchFailed(response.error));
        return;
      }

      var args := RenderArgs(options, origin.value, response.value);
      var transformed := lib.transformHtml(args);
      calls := calls + [RenderHtml(args)];
      if transformed.Failure? {
        result := Failure(TransformFailed(transformed.error));
        return;
      }

      if caching {
        htmlCache.Set(url, transformed.value);
        calls := calls + [CacheSet(url, transformed.value)];
      }
      result := Success(transformed.value);
    }
  }
}
