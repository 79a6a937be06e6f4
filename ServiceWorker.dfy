/**
 * The generated offline-cache service worker of the Flutter web build: the install,
 * activate, fetch and message handlers over three named caches.
 */
module ServiceWorker {

  import opened Js
  import opened Http
  import opened Routing
  import opened CacheStorage
  import opened Offline

  /** The cache holding the one manifest record. */
  const MANIFEST: string := "flutter-app-manifest"
  /** The staging cache filled by install. */
  const TEMP: string := "flutter-temp-cache"
  /** The content cache served to the application. */
  const CACHE_NAME: string := "flutter-app-cache"

  /** The application shell downloaded before the worker can start. */
  const CORE: seq<string> :=
    ["main.dart.js", "index.html", "flutter_bootstrap.js", "assets/AssetManifest.bin.json", "assets/FontManifest.json"]

  /** The request path of the manifest record inside MANIFEST. */
  const ManifestPath: string := "manifest"

  /**
   * The RESOURCES table: its keys in `Object.keys` order and the checksum of each.
   */
  datatype Table = Table(keys: seq<string>, sums: map<string, string>) {
    predicate WellFormed()
    {
      && (forall i, j :: 0 <= i < j < |keys| ==> keys[i] != keys[j])
      && sums.Keys == set k | k in keys
    }
  }

  /** The response saved as the manifest record: the checksum table, as a 200 response. */
  function ManifestRecord(sums: map<string, string>): Response
  {
    Response(true, ManifestJson(sums))
  }

  /**
   * A cached URL is kept by an upgrade when its key is listed in the new table with the
   * checksum the previous table recorded for it.
   */
  predicate Retained(origin: string, sums: map<string, string>, previous: map<string, string>, url: string)
    // exactly when the delete test `!RESOURCES[key] || RESOURCES[key] != oldManifest[key]` fails
    ensures var key := StoredKey(origin, url);
      Retained(origin, sums, previous, url) <==>
        !(!Truthy(Property(sums, key)) || Property(sums, key) != Property(previous, key))
  {
    var key := StoredKey(origin, url);
    Listed(sums, key) && key in previous && sums[key] == previous[key]
  }

  /** The content entries an upgrade keeps, untouched. */
  function Survivors(content: Store, origin: string, sums: map<string, string>, previous: map<string, string>): (r: Store)
    ensures r.Keys <= content.Keys
    ensures forall u :: u in content ==> (u in r <==> Retained(origin, sums, previous, u))
    ensures forall u :: u in r ==> r[u] == content[u]
  {
    map u | u in content && Retained(origin, sums, previous, u) :: content[u]
  }

  /** Lifecycle calls into the host, recorded but otherwise without effect here. */
  datatype Event = SkippedWaiting | ClaimedClients

  /** How an activation ended. */
  datatype Activation = Rebuilt | Upgraded | Reset

  /** The service worker: its origin, its embedded table and the origin's caches. */
  class Worker {
    const origin: string
    const resources: Table
    var caches: Storage
    ghost var events: seq<Event>

    /** The embedded table is a JavaScript object: distinct keys, one checksum each. */
    ghost predicate Valid()
    {
      resources.WellFormed()
    }

    constructor (origin: string, resources: Table, caches: Storage)
      requires resources.WellFormed()
      ensures Valid()
      ensures this.origin == origin && this.resources == resources
      ensures this.caches == caches && events == []
    {
      this.origin := origin;
      this.resources := resources;
      this.caches := caches;
      events := [];
    }

    /** `caches.open(name)`: creates the cache when it does not exist. */
    method Open(name: string)
      modifies this`caches
      ensures caches == old(caches)[name := Opened(old(caches), name)]
    {
      if name !in caches {
        caches := caches[name := map[]];
      }
    }

    /** The URL of the manifest record. */
    function ManifestUrl(): (url: string)
      reads this
      ensures StoredKey(origin, url) == ManifestPath
    {
      StoredKeyOfResolve(origin, ManifestPath);
      Resolve(origin, ManifestPath)
    }

    /** The saved manifest record, if one exists. */
    function SavedRecord(storage: Storage): (r: Option<Response>)
      reads this
      ensures r.Some? <==> MANIFEST in storage && ManifestUrl() in storage[MANIFEST]
    {
      Lookup(Opened(storage, MANIFEST), ManifestUrl())
    }

    /**
     * Install: skip waiting, then fetch every CORE file (bypassing the HTTP cache) into
     * TEMP with one `addAll`; if any of them fails, nothing is put and install fails.
     */
    method Install(net: string -> NetOutcome) returns (installed: bool, requested: seq<string>)
      modifies this
      ensures requested == Urls(origin, CORE)
      ensures installed <==> AllOk(requested, net)
      ensures caches == old(caches)[TEMP := AddAll(Opened(old(caches), TEMP), requested, net)]
      ensures events == old(events) + [SkippedWaiting]
    {
      events := events + [SkippedWaiting];
      Open(TEMP);
      requested := Urls(origin, CORE);
      installed := AllOk(requested, net);
      caches := caches[TEMP := AddAll(caches[TEMP], requested, net)];
    }

    /** `contentCache.put(request, response)` for every entry of `entries`, one at a time. */
    method PutAll(name: string, entries: Store)
      requires name in caches
      modifies this`caches
      ensures caches == old(caches)[name := old(caches)[name] + entries]
    {
      var pending := entries.Keys;
      while pending != {}
        invariant pending <= entries.Keys
        invariant name in caches
        invariant caches == old(caches)[name := caches[name]]
        invariant caches[name] == old(caches)[name] + map u | u in entries && u !in pending :: entries[u]
        decreases pending
      {
        var request :| request in pending;
        caches := caches[name := caches[name][request := entries[request]]];
        pending := pending - {request};
      }
      assert (map u | u in entries && u !in pending :: entries[u]) == entries;
    }

    /** The eviction loop of an upgrade: delete every cached request that is not retained. */
    method Evict(previous: map<string, string>)
      requires CACHE_NAME in caches
      modifies this`caches
      ensures caches == old(caches)[CACHE_NAME := Survivors(old(caches)[CACHE_NAME], origin, resources.sums, previous)]
    {
      var content := caches[CACHE_NAME];
      var pending := content.Keys;
      while pending != {}
        invariant pending <= content.Keys
        invariant CACHE_NAME in caches
        invariant caches == old(caches)[CACHE_NAME := caches[CACHE_NAME]]
        invariant caches[CACHE_NAME] ==
          map u | u in content && (u in pending || Retained(origin, resources.sums, previous, u)) :: content[u]
        decreases pending
      {
        var request :| request in pending;
        var key := StoredKey(origin, request);
        if !Listed(resources.sums, key) || key !in previous || resources.sums[key] != previous[key] {
          caches := caches[CACHE_NAME := caches[CACHE_NAME] - {request}];
        }
        pending := pending - {request};
      }
      assert caches[CACHE_NAME] == Survivors(content, origin, resources.sums, previous);
    }

    /** No prior manifest: delete the content cache, reopen it empty and copy TEMP into it. */
    method Rebuild(temp: Store)
      requires CACHE_NAME in caches
      modifies this`caches
      ensures caches == old(caches)[CACHE_NAME := temp]
    {
      caches := caches - {CACHE_NAME};
      Open(CACHE_NAME);
      assert caches == old(caches)[CACHE_NAME := map[]];
      PutAll(CACHE_NAME, temp);
      assert map[] + temp == temp;
    }

    /** A prior manifest: evict what changed, then put every TEMP entry over what is left. */
    method Upgrade(previous: map<string, string>, temp: Store)
      requires CACHE_NAME in caches
      modifies this`caches
      ensures caches == old(caches)[CACHE_NAME := Survivors(old(caches)[CACHE_NAME], origin, resources.sums, previous) + temp]
    {
      Evict(previous);
      PutAll(CACHE_NAME, temp);
    }

    /**
     * Activate: reconcile the content cache with the saved manifest record.
     * With no record the content cache is rebuilt from TEMP alone; with one, the
     * entries whose key was dropped or whose checksum changed are evicted and TEMP is
     * laid over the rest. Either way TEMP is deleted and the table is saved as the
     * record. A `fault` of the host (any cache operation throwing), or a record that
     * is not a saved table, lands in the catch block, which deletes all three caches.
     */
    method Activate(fault: bool) returns (result: Activation)
      modifies this
      ensures var saved := SavedRecord(old(caches));
        result == Reset <==> fault || (saved.Some? && !saved.value.body.ManifestJson?)
      ensures result == Rebuilt <==> !fault && SavedRecord(old(caches)).None?
      ensures result == Reset ==>
        caches == old(caches) - {CACHE_NAME, TEMP, MANIFEST} && events == old(events)
      ensures result == Rebuilt ==>
        && caches == (old(caches) - {TEMP})[CACHE_NAME := Opened(old(caches), TEMP)]
                       [MANIFEST := Opened(old(caches), MANIFEST)[ManifestUrl() := ManifestRecord(resources.sums)]]
        && events == old(events) + [ClaimedClients]
      ensures result == Upgraded ==>
        && caches == (old(caches) - {TEMP})
                       [CACHE_NAME := Survivors(Opened(old(caches), CACHE_NAME), origin, resources.sums,
                                                SavedRecord(old(caches)).value.body.table)
                                      + Opened(old(caches), TEMP)]
                       [MANIFEST := Opened(old(caches), MANIFEST)[ManifestUrl() := ManifestRecord(resources.sums)]]
        && events == old(events) + [ClaimedClients]
    {
      ghost var before := caches;
      Open(CACHE_NAME);
      Open(TEMP);
      Open(MANIFEST);
      var temp := caches[TEMP];
      var manifestCache := caches[MANIFEST];
      var saved := Lookup(manifestCache, ManifestUrl());
      assert saved == SavedRecord(before);
      if fault || (saved.Some? && !saved.value.body.ManifestJson?) {
        caches := caches - {CACHE_NAME, TEMP, MANIFEST};
        OpenedThenDeleted(before, caches);
        return Reset;
      }
      ghost var staged := caches;
      assert staged == before[CACHE_NAME := Opened(before, CACHE_NAME)][TEMP := temp][MANIFEST := manifestCache];
      if saved.None? {
        Rebuild(temp);
        result := Rebuilt;
      } else {
        Upgrade(saved.value.body.table, temp);
        result := Upgraded;
      }
      var content := caches[CACHE_NAME];
      assert caches == staged[CACHE_NAME := content];
      caches := caches - {TEMP};
      caches := caches[MANIFEST := caches[MANIFEST][ManifestUrl() := ManifestRecord(resources.sums)]];
      OpenedThenSettled(before, caches, content, temp, manifestCache, ManifestUrl(),
                        ManifestRecord(resources.sums));
      events := events + [ClaimedClients];
    }

    /**
     * The fetch handler. A request that is not a GET, or whose key is not listed, is
     * left to the browser. Otherwise the content cache is opened and the request gets
     * the online-first strategy (root key) or the cache-first one; either way the cache
     * is read and written under the request's own URL, query string included.
     */
    method Fetch(request: Request, net: string -> NetOutcome) returns (reply: Reply, requested: seq<string>)
      modifies this`caches
      ensures var route := RouteOf(resources.sums, origin, request);
        route == NotIntercepted ==> reply == PassThrough && requested == [] && caches == old(caches)
      ensures var route := RouteOf(resources.sums, origin, request);
        var content := Opened(old(caches), CACHE_NAME);
        var step := CacheFirstStep(Lookup(content, request.url), request.url, net);
        route == CacheFirst ==>
          reply == step.reply && requested == step.fetches &&
          caches == old(caches)[CACHE_NAME := PutIfAny(content, request.url, step.store)]
      ensures var route := RouteOf(resources.sums, origin, request);
        var content := Opened(old(caches), CACHE_NAME);
        var step := OnlineFirstStep(Lookup(content, request.url), request.url, net);
        route == OnlineFirst ==>
          reply == step.reply && requested == step.fetches &&
          caches == old(caches)[CACHE_NAME := PutIfAny(content, request.url, step.store)]
    {
      var route := RouteOf(resources.sums, origin, request);
      if route == NotIntercepted {
        return PassThrough, [];
      }
      Open(CACHE_NAME);
      var cached := Lookup(caches[CACHE_NAME], request.url);
      var step := if route == OnlineFirst then OnlineFirstStep(cached, request.url, net)
                  else CacheFirstStep(cached, request.url, net);
      caches := caches[CACHE_NAME := PutIfAny(caches[CACHE_NAME], request.url, step.store)];
      reply, requested := step.reply, step.fetches;
    }

    /**
     * downloadOffline: request, with one `addAll` into the content cache, every table
     * key that no cached URL stands for, in table order.
     */
    method DownloadOffline(net: string -> NetOutcome) returns (requested: seq<string>, stored: bool)
      requires Valid()
      modifies this`caches
      ensures var content := Opened(old(caches), CACHE_NAME);
        requested == Urls(origin, Missing(resources.keys, CachedKeys(origin, content.Keys)))
      ensures forall i :: 0 <= i < |requested| ==>
        exists k :: k in resources.sums && requested[i] == Resolve(origin, k)
      ensures stored <==> AllOk(requested, net)
      ensures caches == old(caches)[CACHE_NAME := AddAll(Opened(old(caches), CACHE_NAME), requested, net)]
    {
      Open(CACHE_NAME);
      var resources := MissingKeys(origin, caches[CACHE_NAME].Keys, this.resources.keys);
      requested := Urls(origin, resources);
      forall i | 0 <= i < |requested| ensures exists k :: k in this.resources.sums && requested[i] == Resolve(origin, k) {
        MissingMembers(this.resources.keys, CachedKeys(origin, caches[CACHE_NAME].Keys), resources[i]);
      }
      stored := AllOk(requested, net);
      caches := caches[CACHE_NAME := AddAll(caches[CACHE_NAME], requested, net)];
    }

    /**
     * The message handler: 'skipWaiting' only skips waiting, 'downloadOffline' starts
     * the offline download, and any other payload is ignored.
     */
    method Message(data: JsValue, net: string -> NetOutcome) returns (requested: seq<string>)
      requires Valid()
      modifies this
      ensures CommandOf(data).SkipWaiting? ==>
        caches == old(caches) && requested == [] && events == old(events) + [SkippedWaiting]
      ensures CommandOf(data).Ignore? ==>
        caches == old(caches) && requested == [] && events == old(events)
      ensures CommandOf(data).DownloadOffline? ==>
        var content := Opened(old(caches), CACHE_NAME);
        && requested == Urls(origin, Missing(resources.keys, CachedKeys(origin, content.Keys)))
        && caches == old(caches)[CACHE_NAME := AddAll(content, requested, net)]
        && events == old(events)
    {
      match CommandOf(data)
      case SkipWaiting =>
        events := events + [SkippedWaiting];
        requested := [];
      case DownloadOffline =>
        var stored;
        requested, stored := DownloadOffline(net);
      case Ignore =>
        requested := [];
    }
  }

  /** Opening the three caches and then deleting them leaves the storage without them. */
  lemma OpenedThenDeleted(before: Storage, after: Storage)
    requires after == before[CACHE_NAME := Opened(before, CACHE_NAME)][TEMP := Opened(before, TEMP)]
                            [MANIFEST := Opened(before, MANIFEST)] - {CACHE_NAME, TEMP, MANIFEST}
    ensures after == before - {CACHE_NAME, TEMP, MANIFEST}
  {
  }

  /** Replacing the three caches and then deleting TEMP is the same as deleting TEMP first. */
  lemma OpenedThenSettled(before: Storage, after: Storage, content: Store, temp: Store, manifest: Store,
                          url: string, record: Response)
    requires after == (before[CACHE_NAME := Opened(before, CACHE_NAME)][TEMP := temp][MANIFEST := manifest]
                        [CACHE_NAME := content] - {TEMP})[MANIFEST := manifest[url := record]]
    ensures after == (before - {TEMP})[CACHE_NAME := content][MANIFEST := manifest[url := record]]
  {
  }
}

/** Properties that relate several handlers of the service worker. */
module ServiceWorkerProperties {
  import opened JsString
  import opened Http
  import opened Routing
  import opened CacheStorage
  import opened Offline
  import opened ServiceWorker

  /**
   * After a `downloadOffline` whose batch succeeded, a second one requests nothing:
   * every table key is then stood for by a cached URL.
   */
  lemma DownloadOfflineSettles(origin: string, table: Table, content: Store, net: string -> NetOutcome)
    requires forall k :: k in table.keys ==> RelativeKey(k)
    requires AllOk(Urls(origin, Missing(table.keys, CachedKeys(origin, content.Keys))), net)
    ensures var requested := Urls(origin, Missing(table.keys, CachedKeys(origin, content.Keys)));
      Missing(table.keys, CachedKeys(origin, AddAll(content, requested, net).Keys)) == []
  {
    var cached := CachedKeys(origin, content.Keys);
    var missing := Missing(table.keys, cached);
    var requested := Urls(origin, missing);
    var after := AddAll(content, requested, net);
    forall k | k in table.keys ensures k in CachedKeys(origin, after.Keys) {
      MissingMembers(table.keys, cached, k);
      if k in cached {
        var u :| u in content.Keys && StoredKey(origin, u) == k;
        assert u in after.Keys;
      } else {
        var i :| 0 <= i < |missing| && missing[i] == k;
        assert requested[i] == Resolve(origin, k);
        assert Resolve(origin, k) in after.Keys;
        StoredKeyOfResolve(origin, k);
      }
    }
    NoneMissing(table.keys, CachedKeys(origin, after.Keys));
  }

  /**
   * The "?v=" query only matters for the table lookup: a versioned request for a listed
   * key is intercepted cache-first, but it misses the entry cached under the plain URL
   * and goes to the network.
   */
  lemma VersionedRequestMisses(origin: string, sums: map<string, string>, k: string, v: string,
                               content: Store, net: string -> NetOutcome)
    requires RelativeKey(k) && k != "/" && k[0] != '#' && !Contains(k, VersionMarker) && Listed(sums, k)
    requires Resolve(origin, k) + VersionMarker + v !in content
    ensures var url := Resolve(origin, k) + VersionMarker + v;
      && RouteOf(sums, origin, Request("GET", url)) == CacheFirst
      && CacheFirstStep(Lookup(content, url), url, net).fetches == [url]
  {
    FetchKeyOfResolve(origin, k, Some(v));
  }

  /** Every entry of a successful batch over listed relative paths stands for a listed key. */
  lemma BatchEntriesListed(origin: string, paths: seq<string>, sums: map<string, string>, net: string -> NetOutcome)
    requires forall k :: k in paths ==> RelativeKey(k) && Listed(sums, k)
    requires AllOk(Urls(origin, paths), net)
    ensures forall u :: u in Batch(Urls(origin, paths), net) ==> Listed(sums, StoredKey(origin, u))
  {
    var urls := Urls(origin, paths);
    forall u | u in Batch(urls, net) ensures Listed(sums, StoredKey(origin, u)) {
      assert u in urls;
      var i :| 0 <= i < |urls| && urls[i] == u;
      assert paths[i] in paths;
    }
  }

  /** The shell files are relative paths. */
  lemma CoreRelative()
    ensures forall k :: k in CORE ==> RelativeKey(k)
  {
  }

  /** Every shell file install puts into TEMP stands for a listed key, when CORE is listed. */
  lemma ShellEntriesListed(origin: string, sums: map<string, string>, net: string -> NetOutcome)
    requires forall k :: k in CORE ==> Listed(sums, k)
    requires AllOk(Urls(origin, CORE), net)
    ensures forall u :: u in Batch(Urls(origin, CORE), net) ==> Listed(sums, StoredKey(origin, u))
  {
    CoreRelative();
    BatchEntriesListed(origin, CORE, sums, net);
  }

  /**
   * Activating again with the table that is already saved evicts nothing that the
   * previous upgrade left, as long as the staged entries stand for listed keys.
   */
  lemma UpgradeIsStable(content: Store, temp: Store, origin: string, sums: map<string, string>,
                        previous: map<string, string>)
    requires forall u :: u in temp ==> Listed(sums, StoredKey(origin, u))
    ensures var once := Survivors(content, origin, sums, previous) + temp;
      Survivors(once, origin, sums, sums) + temp == once
  {
  }

  /**
   * An entry cached under a URL with a "?v=" query never survives an upgrade when no
   * table key contains "?v=": activation does not strip the query.
   */
  lemma VersionedEntriesEvicted(origin: string, sums: map<string, string>, previous: map<string, string>,
                                content: Store, url: string)
    requires forall k :: k in sums ==> !Contains(k, VersionMarker)
    requires url in content && Contains(Substring(url, |origin| + 1), VersionMarker)
    ensures url !in Survivors(content, origin, sums, previous)
  {
  }

  /**
   * The upgrade example: `a.js` keeps its checksum and is kept from the content cache,
   * `b.js` changed and is evicted, then put again from TEMP.
   */
  lemma UpgradeExample(origin: string, a: Response, b: Response, b2: Response)
    ensures var sums := map["a.js" := "hash1", "b.js" := "hash2"];
      var previous := map["a.js" := "hash1", "b.js" := "hashOLD"];
      var ua, ub := Resolve(origin, "a.js"), Resolve(origin, "b.js");
      var content := map[ua := a, ub := b];
      var survivors := Survivors(content, origin, sums, previous);
      survivors == map[ua := a] && survivors + map[ub := b2] == map[ua := a, ub := b2]
  {
  }
}
