/**
 * The browser's CacheStorage as the service worker uses it: named stores, each
 * mapping a request URL to a response, and the batch `addAll` of the Cache API.
 */
module CacheStorage {
  import opened Http
  import opened Routing

  /** One named cache: request URL to response. */
  type Store = map<string, Response>

  /** All caches of the origin, by name. */
  type Storage = map<string, Store>

  /** The store `caches.open(name)` yields: the existing one, or a new empty one. */
  function Opened(caches: Storage, name: string): Store
  {
    if name in caches then caches[name] else map[]
  }

  /** `cache.match(url)`. */
  function Lookup(store: Store, url: string): Option<Response>
  {
    if url in store then Some(store[url]) else None
  }

  /** The store after an optional `cache.put(url, response)`. */
  function PutIfAny(store: Store, url: string, response: Option<Response>): Store
  {
    if response.Some? then store[url := response.value] else store
  }

  /**
   * The URLs that relative request paths resolve to, in order: one request per path,
   * whose key, read back from its URL, is that path again.
   */
  function Urls(origin: string, paths: seq<string>): (urls: seq<string>)
    ensures |urls| == |paths|
    ensures forall i :: 0 <= i < |paths| ==> urls[i] == Resolve(origin, paths[i])
    ensures forall i :: 0 <= i < |paths| && RelativeKey(paths[i]) ==> StoredKey(origin, urls[i]) == paths[i]
  {
    seq(|paths|, i requires 0 <= i < |paths| => Resolve(origin, paths[i]))
  }

  /** Every request of an `addAll` batch gives a response with an ok status. */
  predicate AllOk(urls: seq<string>, net: string -> NetOutcome)
  {
    forall i :: 0 <= i < |urls| ==> net(urls[i]).Fetched? && net(urls[i]).response.ok
  }

  /** The entries an `addAll` batch puts when it succeeds. */
  function Batch(urls: seq<string>, net: string -> NetOutcome): Store
    requires AllOk(urls, net)
  {
    map u | u in urls :: net(u).response
  }

  /**
   * `cache.addAll(urls)`: when every response is ok all of them are put,
   * otherwise the promise rejects and the store is left as it was.
   */
  function AddAll(store: Store, urls: seq<string>, net: string -> NetOutcome): (s: Store)
    ensures AllOk(urls, net) ==> s == store + Batch(urls, net)
    ensures !AllOk(urls, net) ==> s == store
    ensures store.Keys <= s.Keys
  {
    if AllOk(urls, net) then store + Batch(urls, net) else store
  }
}
