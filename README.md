# Offline resource cache of a Flutter web build, and the user-document transform

This project models, in Dafny, the two pieces of the repository that make decisions:

1. **The generated service worker** (`flutter_service_worker.js`). It keeps a browser
   cache of the web build's files consistent with the build's checksum table
   `RESOURCES`. It uses three named caches: the content cache `flutter-app-cache`,
   the staging cache `flutter-temp-cache` filled at install, and `flutter-app-manifest`,
   which holds one record, the table saved at the last activation.
   - **install** fetches the `CORE` shell files into staging with one `addAll`.
   - **activate** reconciles the content cache with the saved table. With no saved
     table, it rebuilds the content cache from staging. Otherwise it evicts every entry
     whose key left the table or whose checksum changed, then lays staging over the rest.
     Either way it deletes staging and saves the table. On any exception it deletes all
     three caches.
   - **fetch** turns the URL into a table key and picks a strategy: not intercepted,
     cache-first with lazy population, or online-first for the root `/`.
   - **downloadOffline** requests every table key that no cached URL stands for.
   - **message** dispatches the two command strings.
2. **The user hook** (`firebase-to-supabase/firestore/hooks/user.js`): the projection of a
   Firestore user document onto the seven columns of the `users` row, with three
   JavaScript `||` defaults.

Layout, one module per concern:

- `Js.dfy` (`Js`): JavaScript values, truthiness, `||`, property access.
- `JsString.dfy` (`JsString`): `substring`, `indexOf`, `startsWith` and `split(sep)[0]`, with JavaScript semantics on strings of code points (the same as JavaScript's on ASCII).
- `UserHook.dfy` (`UserHook`): the transform.
- `Http.dfy` (`Http`): requests, responses, network outcomes, handler replies.
- `Routing.dfy` (`Routing`): the pure decisions. These are key normalisation, routing,
  the two fetch strategies and message dispatch.
- `CacheStorage.dfy` (`CacheStorage`): caches as `map<string, map<string, Response>>`,
  plus `open`, `match`, `put` and `addAll`.
- `Offline.dfy` (`Offline`): the key computation of `downloadOffline`, as a loop
  method proved against a filter function.
- `ServiceWorker.dfy` (`ServiceWorker`, `ServiceWorkerProperties`): the `Worker` class.
  Its `caches` field holds the caches; its methods are the handlers. The second module
  holds the lemmas that relate several handlers.

The network is a function parameter `net: string -> NetOutcome`: what a fetch of a URL
gives, either a response (ok or not) or an error. Each handler returns the URLs it
requested, so "the network is not consulted" reads `requested == []`. `skipWaiting()`
and `clients.claim()` are recorded in a ghost event log and have no other effect.
Relative request paths resolve against the origin's root (`Routing.Resolve`), because
the worker is served from there.

Three points where the code does something other than what a reader might expect. The model follows the code in each:

- One might expect cache entries to be keyed by the normalised resource key, so that
  `?v=` queries do not create distinct entries. In the code, the fetch handlers
  `match` and `put` with the original request. An entry is therefore keyed by the full
  URL, query included; the `?v=` stripping only affects the `RESOURCES` lookup
  (`ServiceWorkerProperties.VersionedRequestMisses`). At the next upgrade, activation
  evicts such an entry (`ServiceWorkerProperties.VersionedEntriesEvicted`).
- The unqualified `origin` in `downloadOffline` looks like an undefined variable. In
  a worker, the global `origin` is the worker scope's own origin, which is the same value
  as `self.location.origin`. The model therefore uses the worker's origin in both places.
- Neither key computation checks that the URL starts with the origin; they just drop
  `|origin| + 1` characters (`Routing.OriginNotChecked`).

The Cache API, `Request` and `Response` are given as plain definitions, which the
handlers' contracts are stated against: `CacheStorage.Opened` (`caches.open`),
`CacheStorage.Lookup` (`cache.match`), `CacheStorage.PutIfAny` (an optional
`cache.put`), `CacheStorage.Batch` (the entries of a successful `addAll`),
`ServiceWorker.ManifestRecord` (the saved record), `Js.Get` (property access on a
document) and `Routing.Property` (property access on a table). Documents hold arbitrary
JavaScript values, while the checksum tables hold only strings, so the tables keep the
narrower type `map<string, string>`. `Routing.Property` is the same access, with each
checksum seen as a JavaScript string.

## Model

| member | source | states |
|---|---|---|
| `Js.Truthy` | firebase-to-supabase/firestore/hooks/user.js:4-10 | a value is truthy iff it is none of `undefined`, `null`, `false`, `0`, `NaN` and `""` |
| `Js.Or` | firebase-to-supabase/firestore/hooks/user.js:4-10 | `a \|\| b` is `a` when truthy, else `b`; the result is truthy iff either operand is |
| `JsString.Substring` | flutter_service_worker.js:154 | `substring(start)` drops the first `start` characters, and gives "" past the end |
| `JsString.IndexFrom` | flutter_service_worker.js:195 | the search from an index gives the first occurrence at or after it, or -1 when there is none |
| `JsString.IndexOf` | flutter_service_worker.js:195 | `indexOf` is -1 exactly when the marker does not occur; otherwise it is the first occurrence |
| `JsString.SplitHead` | flutter_service_worker.js:196 | `split(t)[0]` is the whole string when `t` is absent; otherwise it is the prefix that ends where `t` first occurs, with no occurrence starting inside it |
| `UserHook.Transform` | firebase-to-supabase/firestore/hooks/user.js:1-14 | exactly the seven columns. `id` is `userId` if truthy, else `id`. `deleted` is the flag if truthy, else `false`. `reason_for_deletion` is the reason if truthy, else `null`. Four fields are copied |
| `UserHook.DependsOnlyOnReadFields` | firebase-to-supabase/firestore/hooks/user.js:1-14 | the row depends only on the eight fields read from `doc`: not on other fields, the collection name, the counters or the writer |
| `Routing.Resolve` | flutter_service_worker.js:122 | a relative request path resolves to a URL that starts with `origin + "/"` |
| `Routing.StoredKey` | flutter_service_worker.js:153-157 | the key of a cached URL is the URL minus its first `\|origin\|+1` characters, with "" read as "/" |
| `Routing.Listed` | flutter_service_worker.js:203 | a key is listed iff the property `RESOURCES[key]` is truthy: present with a non-empty checksum |
| `Routing.Stripped` | flutter_service_worker.js:193-197 | the part after `origin + "/"` is kept whole when it has no `?v=`; otherwise it is cut at the first `?v=`, and no earlier `?v=` starts inside the kept prefix |
| `Routing.FetchKey` | flutter_service_worker.js:192-200 | the origin, a `/#` route and an empty stripped path give "/"; every other URL gives exactly its stripped path; no key contains `?v=` |
| `Routing.RouteOf` | flutter_service_worker.js:188-209 | not intercepted iff the request is not a GET or its key is not truthily listed; online-first iff the key is "/"; otherwise cache-first |
| `Routing.CacheFirstStep` | flutter_service_worker.js:210-223 | a hit is returned without a network request. A miss fetches once and returns the network response; only an ok response is stored. A network error propagates unchanged |
| `Routing.OnlineFirstStep` | flutter_service_worker.js:259-277 | the network is always asked first. Its response is stored, without an ok check, and returned. On an error the cached entry is returned, else the same error is raised |
| `Routing.CommandOf` | flutter_service_worker.js:225-236 | `'skipWaiting'` and `'downloadOffline'`, by strict equality, select their commands; every other payload is ignored |
| `Routing.StoredKeyOfResolve` | flutter_service_worker.js:153-157 | reading back the key of a URL resolved from a table key gives that key again |
| `Routing.FetchKeyOfResolve` | flutter_service_worker.js:192-200 | a same-origin request for a table key, with or without `?v=...`, has that key as its fetch key |
| `Routing.StrippedVersioned` | flutter_service_worker.js:193-197 | stripping `origin + "/" + path + "?v=" + v`, with no marker in `path`, leaves exactly `path` |
| `Routing.NoMarkerBeforeEnd` | flutter_service_worker.js:195-196 | in `path + "?v=" + v`, with no marker in `path`, the first marker is the one after `path` |
| `Routing.OriginNotChecked` | flutter_service_worker.js:154 | a URL of another origin of the same length gets the same keys as the same-origin URL |
| `CacheStorage.Urls` | flutter_service_worker.js:122 | one request URL per relative path, in order, and the key read back from each URL is its path again |
| `CacheStorage.AddAll` | flutter_service_worker.js:255 | `addAll` puts the whole batch when every response is ok and nothing otherwise; it never removes entries |
| `Offline.CachedKeys` | flutter_service_worker.js:243-249 | the keys marked in `currentContent` are exactly the stored keys of the cached URLs |
| `Offline.Missing` | flutter_service_worker.js:250-254 | the reference filter of the push loop, never longer than the table; exactly which keys it keeps, and in what order, is stated by `Offline.MissingMembers` and `Offline.MissingInOrder` |
| `Offline.MissingStep` | flutter_service_worker.js:251-253 | one more table key is appended exactly when it is not cached |
| `Offline.MissingMembers` | flutter_service_worker.js:250-254 | a key is requested iff it is a table key not marked as cached; no cached key is requested again |
| `Offline.MissingInOrder` | flutter_service_worker.js:250-254 | requested keys keep the table's `Object.keys` order |
| `Offline.NoneMissing` | flutter_service_worker.js:250-254 | nothing is requested exactly when every table key is cached |
| `Offline.MissingKeys` | flutter_service_worker.js:240-254 | the two loops build `currentContent` and push, in order, exactly the table keys it does not mark |
| `ServiceWorker.Retained` | flutter_service_worker.js:161 | an entry is kept exactly when the delete test `!RESOURCES[key] \|\| RESOURCES[key] != oldManifest[key]` fails, with absent keys read as `undefined` |
| `ServiceWorker.Survivors` | flutter_service_worker.js:153-164 | eviction never adds entries. An entry survives iff its key is listed with the checksum the saved table recorded; survivors keep their response |
| `ServiceWorker.Worker.constructor` | flutter_service_worker.js:2-114 | a worker for an origin, a well-formed table and the origin's caches, with an empty event log |
| `ServiceWorker.Worker.Open` | flutter_service_worker.js:132-134 | `caches.open` creates the named cache when missing and changes nothing else |
| `ServiceWorker.Worker.ManifestUrl` | flutter_service_worker.js:135 | the manifest record's URL, whose stored key is `manifest` |
| `ServiceWorker.Worker.SavedRecord` | flutter_service_worker.js:134-135 | a record exists iff the manifest cache exists and holds the record's URL |
| `ServiceWorker.Worker.Install` | flutter_service_worker.js:117-125 | install skips waiting and requests exactly the `CORE` URLs. It succeeds iff all are ok; then only staging gains them. On failure staging gains nothing |
| `ServiceWorker.Worker.PutAll` | flutter_service_worker.js:140-143 | putting every staging entry lays staging over the target cache; no other cache changes |
| `ServiceWorker.Worker.Evict` | flutter_service_worker.js:153-164 | the eviction loop leaves exactly the survivors in the content cache; no other cache changes |
| `ServiceWorker.Worker.Rebuild` | flutter_service_worker.js:137-143 | with no saved table, the content cache holds exactly the staging entries, whatever it held before |
| `ServiceWorker.Worker.Upgrade` | flutter_service_worker.js:165-170 | with a saved table, the content cache is the survivors overlaid with every staging entry |
| `ServiceWorker.Worker.Activate` | flutter_service_worker.js:129-185 | Rebuilt iff no record; Upgraded iff a readable record. Both delete staging, save the table and claim clients. Reset iff a fault or an unreadable record, deleting all three caches and nothing else |
| `ServiceWorker.Worker.Fetch` | flutter_service_worker.js:188-224 | non-intercepted requests change nothing and request nothing. Otherwise the route's strategy decides the reply and the requests, and is applied to the content cache under the full request URL |
| `ServiceWorker.Worker.DownloadOffline` | flutter_service_worker.js:239-256 | requests, in table order, the URL of every listed key that no cached URL stands for; one `addAll` into the content cache |
| `ServiceWorker.Worker.Message` | flutter_service_worker.js:225-236 | `'skipWaiting'` only logs a skip. `'downloadOffline'` only runs the download. Other payloads change nothing |
| `ServiceWorkerProperties.DownloadOfflineSettles` | flutter_service_worker.js:239-256 | after a successful download, a second one requests nothing |
| `ServiceWorkerProperties.VersionedRequestMisses` | flutter_service_worker.js:195-197 | a `?v=` request for a listed key is routed cache-first but misses the plain-URL entry, so it goes to the network |
| `ServiceWorkerProperties.BatchEntriesListed` | flutter_service_worker.js:121-122 | every entry a successful batch of listed relative paths puts stands for a listed key |
| `ServiceWorkerProperties.CoreRelative` | flutter_service_worker.js:110-114 | every `CORE` entry is a relative path |
| `ServiceWorkerProperties.ShellEntriesListed` | flutter_service_worker.js:110-125 | when `CORE` is listed, every staged shell entry stands for a listed key |
| `ServiceWorkerProperties.UpgradeIsStable` | flutter_service_worker.js:151-173 | re-activating against the table just saved evicts nothing more |
| `ServiceWorkerProperties.VersionedEntriesEvicted` | flutter_service_worker.js:153-164 | an entry cached under a `?v=` URL never survives an upgrade, because activation does not strip the query |
| `ServiceWorkerProperties.UpgradeExample` | flutter_service_worker.js:151-170 | unchanged `a.js` is kept; changed `b.js` is evicted and put again from staging |

## Left out

- Browser plumbing is not modelled: the Promise chains, `event.waitUntil`, `respondWith`
  and `console.error`. Each handler runs to completion as one method call.
- `self.skipWaiting()` and `self.clients.claim()` are ghost events with no effect.
- Concurrency is not modelled: fetch handlers that interleave with each other or with
  activation. The `cache.put` calls that are not awaited take effect at once.
- Where a host exception happens inside activation is not modelled. It is one `fault`
  flag. The catch block deletes all three caches that the try block touches, so the
  final state does not depend on where the exception happened.
- JSON serialisation of the manifest record is not modelled. The record holds the
  table itself, and the model treats every record body other than a saved table as
  unreadable, taking the reset path. In the code, a body that parses as a non-null JSON
  value other than a table (such as `[]`) reads every `oldManifest[key]` as `undefined`,
  so the upgrade evicts every entry and completes without a reset. A `null` body throws
  at the first listed key's `oldManifest[key]` and resets, as the model does.
- Strings are sequences of code points, not UTF-16 code units, so lengths and indices
  differ from JavaScript's outside the Basic Multilingual Plane. They agree on the ASCII
  URLs and origins the handlers see.
- Checksums are opaque strings compared for equality. MD5 is not modelled.
- JavaScript prototype properties are not modelled. A key such as `constructor` would
  read an inherited, truthy property from `RESOURCES` or `currentContent`.
- `Object.keys` puts integer-like keys first. That ordering is not modelled; the table
  has no such keys.
- URL parsing is not modelled: percent-encoding, and workers served below the origin's
  root. Relative paths resolve as `origin + "/" + path`.
- CacheStorage.Lookup: entries are keyed by the exact URL string. `cache.match`,
  `cache.put` and `cache.delete` compare URLs with the fragment excluded, so the model
  does not capture that a request for `origin + "/#/home"` finds, and replaces, the
  entry cached under `origin + "/"`. `CacheStorage.PutIfAny` and the eviction in
  `ServiceWorker.Worker.Evict` share this simplification.
- `Cache.addAll` rejects a batch with duplicate requests; that check is not modelled.
  `Cache.match` options (`ignoreSearch`, `Vary`) are not used by the source.
- `response.clone()` is the same value as the response.
- After a failed install the host discards the worker. Only `installed == false` is modelled.
- `firebase-to-supabase/firestore/hooks/clients.js` is not part of this model. It is a
  four-field rename with no decisions.
- `shared/build.gradle.kts` is not part of this model. It is build configuration.
- `shared/src/commonMain/kotlin/com/reentry/shared/Mood.kt` is not part of this model.
  Its data classes have no behaviour, and its formatter returns the same literal text
  for every log.
