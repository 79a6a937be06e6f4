/**
 * The straight-line decisions of the service worker: how a URL becomes a manifest key,
 * which strategy a fetch gets, what each strategy answers and stores, and which
 * command a message carries.
 */
module Routing {
  import opened Js
  import opened JsString
  import opened Http

  /** The cache-busting query marker stripped before the manifest lookup. */
  const VersionMarker: string := "?v="

  /** The property `o[key]` of a string-valued object: `undefined` when the key is absent. */
  function Property(o: map<string, string>, key: string): JsValue
  {
    if key in o then Str(o[key]) else Undefined
  }

  /** `RESOURCES[key]` is truthy: the key is listed with a non-empty checksum. */
  predicate Listed(sums: map<string, string>, key: string)
    ensures Listed(sums, key) <==> Truthy(Property(sums, key))
  {
    key in sums && sums[key] != ""
  }

  /** The URL a relative request path resolves to, for a worker served from the origin's root. */
  function Resolve(origin: string, path: string): (url: string)
    ensures |url| > |origin| && url[..|origin| + 1] == origin + "/"
  {
    if |path| > 0 && path[0] == '/' then origin + path else origin + "/" + path
  }

  /**
   * The key the activate handler and downloadOffline compute for a cached request:
   * the URL without its first |origin| + 1 characters, with "" read as "/".
   * Whether the URL really starts with the origin is not checked.
   */
  function StoredKey(origin: string, url: string): (key: string)
    ensures key != ""
    ensures |url| <= |origin| + 1 ==> key == "/"
    ensures |url| > |origin| + 1 ==> key == url[|origin| + 1..]
  {
    var k := Substring(url, |origin| + 1);
    if k == "" then "/" else k
  }

  /** The URL without its first |origin| + 1 characters and without anything from the first "?v=" on. */
  function Stripped(origin: string, url: string): (path: string)
    ensures var tail := Substring(url, |origin| + 1);
      !Contains(tail, VersionMarker) ==> path == tail
    ensures var tail := Substring(url, |origin| + 1);
      Contains(tail, VersionMarker) ==>
        && StartsWith(tail, path)
        && OccursAt(tail, VersionMarker, |path|)
        && forall i: nat :: i < |path| ==> !OccursAt(tail, VersionMarker, i)
    ensures !Contains(path, VersionMarker)
  {
    var k := Substring(url, |origin| + 1);
    if IndexOf(k, VersionMarker) != -1 then SplitHead(k, VersionMarker) else k
  }

  /**
   * The manifest key of a fetched URL. The origin itself, a client-side route
   * (`origin + "/#..."`) and an empty path all become the root key "/".
   */
  function FetchKey(origin: string, url: string): (key: string)
    ensures key != ""
    ensures url == origin || StartsWith(url, origin + "/#") ==> key == "/"
    ensures key != "/" ==> key == Stripped(origin, url)
    ensures Stripped(origin, url) == "" ==> key == "/"
    ensures !(url == origin || StartsWith(url, origin + "/#") || Stripped(origin, url) == "") ==>
      key == Stripped(origin, url)
    ensures !Contains(key, VersionMarker)
  {
    var k := Stripped(origin, url);
    if url == origin || StartsWith(url, origin + "/#") || k == "" then "/" else k
  }

  /** A manifest key as the build tool writes it: the root "/" or a relative path. */
  predicate RelativeKey(k: string)
  {
    k == "/" || (k != "" && k[0] != '/')
  }

  /** Resolving a manifest key and reading the cached URL back gives the key again. */
  lemma StoredKeyOfResolve(origin: string, k: string)
    requires RelativeKey(k)
    ensures StoredKey(origin, Resolve(origin, k)) == k
  {
  }

  /**
   * A same-origin request for a manifest key, with or without a "?v=" version query,
   * has that key as its fetch key (fragment routes aside).
   */
  lemma FetchKeyOfResolve(origin: string, k: string, version: Option<string>)
    requires RelativeKey(k) && k[0] != '#' && !Contains(k, VersionMarker)
    ensures var url := Resolve(origin, k);
      FetchKey(origin, if version.Some? then url + VersionMarker + version.value else url) == k
  {
    var url := Resolve(origin, k);
    var full := if version.Some? then url + VersionMarker + version.value else url;
    var path := if k == "/" then "" else k;
    assert url == origin + "/" + path;
    if version.Some? {
      assert full == (origin + "/") + (path + VersionMarker + version.value);
      StrippedVersioned(origin, full, path, version.value);
    } else {
      assert full == (origin + "/") + path;
    }
    assert Stripped(origin, full) == path;
    assert full != origin;
    if path != "" {
      assert !StartsWith(full, origin + "/#") by {
        assert full[|origin| + 1] == path[0];
      }
    }
  }

  /** Stripping a URL whose path is `path + "?v=" + v`, with no marker in `path`, leaves `path`. */
  lemma StrippedVersioned(origin: string, url: string, path: string, v: string)
    requires url == (origin + "/") + (path + VersionMarker + v)
    requires !Contains(path, VersionMarker)
    ensures Stripped(origin, url) == path
  {
    var tail := path + VersionMarker + v;
    assert Substring(url, |origin| + 1) == tail;
    NoMarkerBeforeEnd(path, v);
    assert Contains(tail, VersionMarker) by {
      assert OccursAt(tail, VersionMarker, |path|);
    }
    // the first marker Stripped cuts at is the one NoMarkerBeforeEnd locates
    var r := Stripped(origin, url);
    assert OccursAt(tail, VersionMarker, |r|);
    assert !(|r| < |path|);
    assert !(|r| > |path|) by {
      assert OccursAt(tail, VersionMarker, |path|);
    }
    assert r == path by {
      assert tail[..|path|] == path;
    }
  }

  /** In `path + "?v=" + v` with no marker in `path`, the first marker is the one after `path`. */
  lemma NoMarkerBeforeEnd(path: string, v: string)
    requires !Contains(path, VersionMarker)
    ensures var s := path + VersionMarker + v;
      OccursAt(s, VersionMarker, |path|) &&
      forall i: nat :: i < |path| ==> !OccursAt(s, VersionMarker, i)
  {
    var s := path + VersionMarker + v;
    assert s[|path|..|path| + 3] == VersionMarker;
    forall i: nat | i < |path| ensures !OccursAt(s, VersionMarker, i) {
      if i + 3 <= |path| {
        assert path[i..i + 3] == s[i..i + 3];
        assert !OccursAt(path, VersionMarker, i);
      } else {
        // a match would straddle the end of `path`, putting the marker's '?' at a later position
        var j := |path| - i;
        assert s[i..i + 3][j] == '?';
        assert VersionMarker[j] != '?';
      }
    }
  }

  /**
   * Neither key computation checks that the URL starts with the origin: a URL of
   * another origin of the same length has the same keys as the same-origin URL.
   */
  lemma OriginNotChecked(origin: string, other: string, path: string)
    requires |other| == |origin| && other != origin
    ensures StoredKey(origin, other + "/" + path) == StoredKey(origin, origin + "/" + path)
    ensures path == "" || path[0] != '#' ==>
      FetchKey(origin, other + "/" + path) == FetchKey(origin, origin + "/" + path)
  {
  }

  /** The strategy a fetch event gets. */
  datatype Route = NotIntercepted | OnlineFirst | CacheFirst

  /**
   * Only GET requests whose key is listed in the manifest are intercepted;
   * the root key is served online-first and every other listed key cache-first.
   */
  function RouteOf(sums: map<string, string>, origin: string, req: Request): (r: Route)
    ensures req.verb != "GET" ==> r == NotIntercepted
    ensures r == NotIntercepted <==> req.verb != "GET" || !Listed(sums, FetchKey(origin, req.url))
    ensures r == OnlineFirst <==> req.verb == "GET" && Listed(sums, "/") && FetchKey(origin, req.url) == "/"
    ensures r == CacheFirst ==> FetchKey(origin, req.url) != "/"
  {
    if req.verb != "GET" then NotIntercepted
    else
      var key := FetchKey(origin, req.url);
      if !Listed(sums, key) then NotIntercepted
      else if key == "/" then OnlineFirst
      else CacheFirst
  }

  /**
   * What a strategy answers, the response it stores under the request's URL (if any)
   * and the URLs it requests from the network.
   */
  datatype Step = Step(reply: Reply, store: Option<Response>, fetches: seq<string>)

  /**
   * Cache-first with lazy population. `cached` is the content cache's entry for the
   * request URL `url`; `net` says what the network would give for a URL.
   */
  function CacheFirstStep(cached: Option<Response>, url: string, net: string -> NetOutcome): (s: Step)
    // a hit is returned and the network is not consulted
    ensures cached.Some? ==> s == Step(Respond(cached.value), None, [])
    // a miss always goes to the network, once
    ensures cached.None? ==> s.fetches == [url]
    // the network's response is returned whatever its status; only an ok one is stored
    ensures cached.None? && net(url).Fetched? ==> s.reply == Respond(net(url).response)
    ensures cached.None? && net(url).Fetched? ==>
      s.store == if net(url).response.ok then Some(net(url).response) else None
    // a network error reaches the caller unchanged
    ensures cached.None? && net(url).NetError? ==> s.reply == Reject(net(url).error) && s.store == None
  {
    match cached
    case Some(hit) => Step(Respond(hit), None, [])
    case None =>
      match net(url)
      case Fetched(response) => Step(Respond(response), if response.ok then Some(response) else None, [url])
      case NetError(error) => Step(Reject(error), None, [url])
  }

  /**
   * Online-first: the network is always asked first; its response is stored whatever
   * its status and returned; on a network error the cached entry is returned, or else
   * the same error is raised. No response is ever made up.
   */
  function OnlineFirstStep(cached: Option<Response>, url: string, net: string -> NetOutcome): (s: Step)
    ensures s.fetches == [url]
    ensures net(url).Fetched? ==> s.reply == Respond(net(url).response) && s.store == Some(net(url).response)
    ensures net(url).NetError? && cached.Some? ==> s.reply == Respond(cached.value) && s.store == None
    ensures net(url).NetError? && cached.None? ==> s.reply == Reject(net(url).error) && s.store == None
  {
    match net(url)
    case Fetched(response) => Step(Respond(response), Some(response), [url])
    case NetError(error) =>
      match cached
      case Some(hit) => Step(Respond(hit), None, [url])
      case None => Step(Reject(error), None, [url])
  }

  /** The two commands a message can carry; any other payload is ignored. */
  datatype Command = SkipWaiting | DownloadOffline | Ignore

  /** Strict equality with the two command strings. */
  function CommandOf(data: JsValue): (c: Command)
    ensures c == SkipWaiting <==> data == Str("skipWaiting")
    ensures c == DownloadOffline <==> data == Str("downloadOffline")
    ensures c == Ignore <==> data != Str("skipWaiting") && data != Str("downloadOffline")
  {
    if data == Str("skipWaiting") then SkipWaiting
    else if data == Str("downloadOffline") then DownloadOffline
    else Ignore
  }
}
