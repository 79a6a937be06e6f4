/** The key computation of `downloadOffline`: which manifest keys are not cached yet. */
module Offline {
  import opened Routing

  /** The keys the cached request URLs stand for, as `downloadOffline` computes them. */
  function CachedKeys(origin: string, urls: set<string>): (keys: set<string>)
    ensures forall u :: u in urls ==> StoredKey(origin, u) in keys
    ensures forall k :: k in keys ==> exists u :: u in urls && StoredKey(origin, u) == k
  {
    set u | u in urls :: StoredKey(origin, u)
  }

  /** The manifest keys, in order, that are not among `cached`. */
  function Missing(keys: seq<string>, cached: set<string>): (r: seq<string>)
    ensures |r| <= |keys|
    decreases |keys|
  {
    if keys == [] then []
    else
      var last := keys[|keys| - 1];
      Missing(keys[..|keys| - 1], cached) + (if last in cached then [] else [last])
  }

  /** A key is requested iff it is a manifest key that is not cached; nothing cached is requested again. */
  lemma {:induction false} MissingMembers(keys: seq<string>, cached: set<string>, k: string)
    ensures k in Missing(keys, cached) <==> k in keys && k !in cached
    decreases |keys|
  {
    if keys != [] {
      var init := keys[..|keys| - 1];
      MissingMembers(init, cached, k);
      assert keys == init + [keys[|keys| - 1]];
    }
  }

  /** The requested keys keep the manifest's order: each is taken from a later position than the one before. */
  lemma {:induction false} MissingInOrder(keys: seq<string>, cached: set<string>, i: nat, j: nat)
    requires forall p, q :: 0 <= p < q < |keys| ==> keys[p] != keys[q]
    requires i < j < |Missing(keys, cached)|
    ensures exists p, q :: 0 <= p < q < |keys| && keys[p] == Missing(keys, cached)[i] && keys[q] == Missing(keys, cached)[j]
    decreases |keys|
  {
    var init := keys[..|keys| - 1];
    var last := keys[|keys| - 1];
    var m := Missing(init, cached);
    if j < |m| {
      MissingInOrder(init, cached, i, j);
      var p, q :| 0 <= p < q < |init| && init[p] == m[i] && init[q] == m[j];
      assert keys[p] == init[p] && keys[q] == init[q];
    } else {
      MissingMembers(init, cached, m[i]);
      var p :| 0 <= p < |init| && init[p] == m[i];
      assert keys[p] == init[p] && keys[|keys| - 1] == Missing(keys, cached)[j];
    }
  }

  /** Nothing is missing exactly when every manifest key is cached. */
  lemma NoneMissing(keys: seq<string>, cached: set<string>)
    ensures Missing(keys, cached) == [] <==> forall k :: k in keys ==> k in cached
  {
  }

  /** Marking one more cached URL adds exactly its key. */
  lemma CachedKeysAdd(origin: string, done: set<string>, u: string)
    ensures CachedKeys(origin, done + {u}) == CachedKeys(origin, done) + {StoredKey(origin, u)}
  {
  }

  /** Extending the scanned prefix by one key appends that key exactly when it is not cached. */
  lemma MissingStep(keys: seq<string>, cached: set<string>, i: nat)
    requires i < |keys|
    ensures Missing(keys[..i + 1], cached) == Missing(keys[..i], cached) + (if keys[i] in cached then [] else [keys[i]])
  {
    assert keys[..i + 1][..i] == keys[..i];
  }

  /**
   * The two loops of `downloadOffline`: build the `currentContent` dictionary from the
   * cached URLs, then collect, in manifest order, every key it does not mark.
   */
  method MissingKeys(origin: string, urls: set<string>, keys: seq<string>) returns (resources: seq<string>)
    ensures resources == Missing(keys, CachedKeys(origin, urls))
  {
    var currentContent: map<string, bool> := map[];
    var pending, done := urls, {};
    while pending != {}
      invariant pending + done == urls
      invariant currentContent.Keys == CachedKeys(origin, done)
      invariant forall k :: k in currentContent ==> currentContent[k]
      decreases pending
    {
      var u :| u in pending;
      CachedKeysAdd(origin, done, u);
      currentContent := currentContent[StoredKey(origin, u) := true];
      pending, done := pending - {u}, done + {u};
    }
    ghost var cached := CachedKeys(origin, urls);
    assert currentContent.Keys == cached;
    resources := [];
    var i := 0;
    while i < |keys|
      invariant 0 <= i <= |keys|
      invariant resources == Missing(keys[..i], cached)
    {
      var resourceKey := keys[i];
      MissingStep(keys, cached, i);
      if !(resourceKey in currentContent && currentContent[resourceKey]) {
        resources := resources + [resourceKey];
      }
      i := i + 1;
    }
    assert keys[..|keys|] == keys;
  }
}
