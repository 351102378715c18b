/** The cache of src/Cache.ts as a value: the key -> entry store it keeps in
    node-cache, and its tag index.  Each public operation of the cache is a
    function from the state before to the state after; the class in
    CacheEngine is proved to follow these functions, and the lemmas here
    state what the operations promise. */
module CacheState {
  import opened TagIndex

  datatype Option<T> = None | Some(value: T)

  /** What the cache stores in node-cache under a key: `{ value, tags }`. */
  datatype Entry<V> = Entry(value: V, tags: seq<string>)

  /** An item of `mset`; the time-to-live is not modelled. */
  datatype Item<K, V> = Item(key: K, val: V, tags: seq<string>)

  datatype State<K, V> = State(store: map<K, Entry<V>>, tagMap: TagMap<K>)

  /** Every live entry is recorded in the index under each of its tags. */
  predicate Indexed<K, V>(s: State<K, V>) {
    forall k, t :: k in s.store && t in s.store[k].tags ==> k in KeysOf(s.tagMap, t)
  }

  /** The invariant every operation keeps. */
  predicate Consistent<K, V>(s: State<K, V>) {
    NoEmptyTags(s.tagMap) && Indexed(s)
  }

  function Empty<K, V>(): State<K, V> {
    State(map[], map[])
  }

  /** `get`: the value stored under `key`, if any. */
  function Lookup<K, V>(s: State<K, V>, key: K): Option<V> {
    if key in s.store then Some(s.store[key].value) else None
  }

  /** `set`, `accepted` being what node-cache's own set answered: the entry
      is (re)written and the key attached to the given tags, the tags of an
      earlier entry under the same key being left in the index. */
  function Put<K, V>(s: State<K, V>, key: K, value: V, tags: seq<string>, accepted: bool): State<K, V> {
    if accepted then State(s.store[key := Entry(value, tags)], Attach(s.tagMap, key, tags))
    else s
  }

  /** `mset`: one `set` per item, in order. */
  function PutAll<K, V>(s: State<K, V>, items: seq<Item<K, V>>, accepted: seq<bool>): State<K, V>
    requires |items| == |accepted|
  {
    if items == [] then s
    else
      var n := |items| - 1;
      Put(PutAll(s, items[..n], accepted[..n]), items[n].key, items[n].val, items[n].tags, accepted[n])
  }

  /** `del` of the keys `ks`: gone from the store and from every tag's set. */
  function Remove<K, V>(s: State<K, V>, ks: set<K>): State<K, V> {
    State(s.store - ks, Detach(s.tagMap, ks))
  }

  /** What `del` answers: how many of the listed keys the store held. */
  function RemovedCount<K, V>(s: State<K, V>, ks: set<K>): nat {
    |ks * s.store.Keys|
  }

  /** `take`: a live key is deleted; an absent key changes nothing. */
  function Take<K, V>(s: State<K, V>, key: K): State<K, V> {
    if key in s.store then Remove(s, {key}) else s
  }

  /** An entry leaving the store without going through `del`, as an
      expiry the class is not told of would; the index is untouched. */
  function Expire<K, V>(s: State<K, V>, key: K): State<K, V> {
    State(s.store - {key}, s.tagMap)
  }

  function InvalidateTag<K, V>(s: State<K, V>, tag: string): State<K, V> {
    if tag in s.tagMap then Remove(s, s.tagMap[tag]) else s
  }

  function InvalidateIntersection<K, V>(s: State<K, V>, tags: seq<string>): State<K, V> {
    var ks := IntersectionTargets(s.tagMap, tags);
    if ks != {} then Remove(s, ks) else s
  }

  function InvalidateUnion<K, V>(s: State<K, V>, tags: seq<string>): State<K, V> {
    var ks := UnionTargets(s.tagMap, tags);
    if ks != {} then Remove(s, ks) else s
  }

  // ---------------------------------------------------------------------
  // set, get, mset

  /** After an accepted `set`, `get` returns the value just stored. */
  lemma LookupAfterPut<K, V>(s: State<K, V>, key: K, value: V, tags: seq<string>, other: K)
    ensures Lookup(Put(s, key, value, tags, true), key) == Some(value)
    ensures other != key ==> Lookup(Put(s, key, value, tags, true), other) == Lookup(s, other)
    ensures Put(s, key, value, tags, false) == s
  {
  }

  /** An accepted `set` indexes the key under every given tag and never
      removes a membership the index already had: each tag's set gains the
      key exactly when the tag is one of those given. */
  lemma PutIndexes<K, V>(s: State<K, V>, key: K, value: V, tags: seq<string>, t: string)
    ensures t in tags ==> key in KeysOf(Put(s, key, value, tags, true).tagMap, t)
    ensures KeysOf(s.tagMap, t) <= KeysOf(Put(s, key, value, tags, true).tagMap, t)
    ensures KeysOf(Put(s, key, value, tags, true).tagMap, t) ==
              KeysOf(s.tagMap, t) + (if t in tags then {key} else {})
  {
    var r := Put(s, key, value, tags, true);
    if t in s.tagMap || t in tags {
      assert t in r.tagMap;
    }
  }

  lemma PutKeepsConsistent<K, V>(s: State<K, V>, key: K, value: V, tags: seq<string>, accepted: bool)
    requires Consistent(s)
    ensures Consistent(Put(s, key, value, tags, accepted))
  {
    if accepted {
      var r := Put(s, key, value, tags, accepted);
      forall k, t | k in r.store && t in r.store[k].tags
        ensures k in KeysOf(r.tagMap, t)
      {
        if k != key {
          assert k in KeysOf(s.tagMap, t);
          PutIndexes(s, key, value, tags, t);
        }
      }
    }
  }

  lemma {:induction false} PutAllKeepsConsistent<K, V>(s: State<K, V>, items: seq<Item<K, V>>, accepted: seq<bool>)
    requires |items| == |accepted|
    requires Consistent(s)
    ensures Consistent(PutAll(s, items, accepted))
  {
    if items != [] {
      var n := |items| - 1;
      PutAllKeepsConsistent(s, items[..n], accepted[..n]);
      PutKeepsConsistent(PutAll(s, items[..n], accepted[..n]), items[n].key, items[n].val, items[n].tags, accepted[n]);
    }
  }

  /** After `mset`, `get` of an item's key gives the value of the last
      accepted item with that key. */
  lemma {:induction false} LookupAfterPutAll<K, V>(s: State<K, V>, items: seq<Item<K, V>>, accepted: seq<bool>, i: nat)
    requires |items| == |accepted|
    requires i < |items| && accepted[i]
    requires forall j :: i < j < |items| && accepted[j] ==> items[j].key != items[i].key
    ensures Lookup(PutAll(s, items, accepted), items[i].key) == Some(items[i].val)
  {
    var n := |items| - 1;
    if i < n {
      LookupAfterPutAll(s, items[..n], accepted[..n], i);
    }
  }

  /** `mset` only adds to the index: no membership is lost. */
  lemma {:induction false} PutAllGrowsIndex<K, V>(s: State<K, V>, items: seq<Item<K, V>>, accepted: seq<bool>, t: string)
    requires |items| == |accepted|
    ensures KeysOf(s.tagMap, t) <= KeysOf(PutAll(s, items, accepted).tagMap, t)
  {
    if items != [] {
      var n := |items| - 1;
      var prev := PutAll(s, items[..n], accepted[..n]);
      PutAllGrowsIndex(s, items[..n], accepted[..n], t);
      PutIndexes(prev, items[n].key, items[n].val, items[n].tags, t);
    }
  }

  /** After `mset`, every accepted item's key is indexed under each of its
      tags, even when a later item re-set the key under other tags. */
  lemma {:induction false} PutAllIndexes<K, V>(s: State<K, V>, items: seq<Item<K, V>>, accepted: seq<bool>, i: nat, t: string)
    requires |items| == |accepted|
    requires i < |items| && accepted[i] && t in items[i].tags
    ensures items[i].key in KeysOf(PutAll(s, items, accepted).tagMap, t)
  {
    var n := |items| - 1;
    var prev := PutAll(s, items[..n], accepted[..n]);
    if i < n {
      PutAllIndexes(s, items[..n], accepted[..n], i, t);
      PutIndexes(prev, items[n].key, items[n].val, items[n].tags, t);
    } else {
      PutIndexes(prev, items[n].key, items[n].val, items[n].tags, t);
    }
  }

  // ---------------------------------------------------------------------
  // del, mdel, take

  /** `del` removes the listed keys from the store and from every tag's
      set, and keeps every other key's entry and memberships. */
  lemma RemoveSpec<K, V>(s: State<K, V>, ks: set<K>, k: K, t: string)
    ensures k in ks ==> k !in Remove(s, ks).store && k !in KeysOf(Remove(s, ks).tagMap, t)
    ensures k !in ks ==> (k in Remove(s, ks).store <==> k in s.store)
    ensures k !in ks && k in s.store ==> Remove(s, ks).store[k] == s.store[k]
    ensures k !in ks ==> (k in KeysOf(Remove(s, ks).tagMap, t) <==> k in KeysOf(s.tagMap, t))
  {
    var r := Remove(s, ks);
    if k !in ks && k in KeysOf(r.tagMap, t) {
      assert t in s.tagMap;
    }
  }

  /** The count `del` answers is how much the store shrank. */
  lemma RemovedCountSpec<K, V>(s: State<K, V>, ks: set<K>)
    ensures RemovedCount(s, ks) == |s.store.Keys| - |Remove(s, ks).store.Keys|
  {
    var r := Remove(s, ks);
    assert s.store.Keys == r.store.Keys + (ks * s.store.Keys);
  }

  lemma RemoveKeepsConsistent<K, V>(s: State<K, V>, ks: set<K>)
    requires Consistent(s)
    ensures Consistent(Remove(s, ks))
  {
    var r := Remove(s, ks);
    forall k, t | k in r.store && t in r.store[k].tags
      ensures k in KeysOf(r.tagMap, t)
    {
      RemoveSpec(s, ks, k, t);
    }
  }

  /** `take` of a live key: its value is returned (by the class), it leaves
      the store and every tag set, and a tag left empty is pruned; `take` of
      an absent key changes nothing. */
  lemma TakeSpec<K, V>(s: State<K, V>, key: K, t: string)
    requires Consistent(s)
    ensures key !in Take(s, key).store
    ensures key in s.store ==> key !in KeysOf(Take(s, key).tagMap, t)
    ensures key in s.store ==> forall k :: k != key ==> Lookup(Take(s, key), k) == Lookup(s, k)
    ensures key !in s.store ==> Take(s, key) == s
    ensures Consistent(Take(s, key))
  {
    if key in s.store {
      RemoveSpec(s, {key}, key, t);
      RemoveKeepsConsistent(s, {key});
    }
  }

  // ---------------------------------------------------------------------
  // invalidation

  /** `invalidateTag(tag)` deletes exactly the keys under `tag`, which
      leave every tag's set, after which `tag` is gone from the index; an
      unknown tag is a no-op. */
  lemma InvalidateTagSpec<K, V>(s: State<K, V>, tag: string, k: K, t: string)
    requires Consistent(s)
    ensures tag !in InvalidateTag(s, tag).tagMap
    ensures tag !in s.tagMap ==> InvalidateTag(s, tag) == s
    ensures Lookup(InvalidateTag(s, tag), k) == if k in KeysOf(s.tagMap, tag) then None else Lookup(s, k)
    ensures k in KeysOf(s.tagMap, tag) ==> k !in KeysOf(InvalidateTag(s, tag).tagMap, t)
    ensures k !in KeysOf(s.tagMap, tag) ==>
              (k in KeysOf(InvalidateTag(s, tag).tagMap, t) <==> k in KeysOf(s.tagMap, t))
  {
    if tag in s.tagMap {
      assert Emptied(s.tagMap[tag], s.tagMap[tag]);
      RemoveSpec(s, s.tagMap[tag], k, t);
    }
  }

  /** `invalidateTagsIntersection(tags)` deletes exactly the keys held by
      every named tag the index holds; tags the index lacks are skipped, and
      when it holds none of them nothing is deleted.  Deleted keys leave
      every tag's set; other keys keep their entries and memberships. */
  lemma InvalidateIntersectionSpec<K, V>(s: State<K, V>, tags: seq<string>, k: K, t: string)
    ensures k in IntersectionTargets(s.tagMap, tags) <==>
              (exists u :: u in tags && u in s.tagMap) &&
              (forall u :: u in tags && u in s.tagMap ==> k in s.tagMap[u])
    ensures Lookup(InvalidateIntersection(s, tags), k) ==
              if k in IntersectionTargets(s.tagMap, tags) then None else Lookup(s, k)
    ensures k in IntersectionTargets(s.tagMap, tags) ==>
              k !in KeysOf(InvalidateIntersection(s, tags).tagMap, t)
    ensures k !in IntersectionTargets(s.tagMap, tags) ==>
              (k in KeysOf(InvalidateIntersection(s, tags).tagMap, t) <==> k in KeysOf(s.tagMap, t))
    ensures (forall u :: u in tags ==> u !in s.tagMap) ==> InvalidateIntersection(s, tags) == s
  {
    var ks := IntersectionTargets(s.tagMap, tags);
    IntersectionTargetsSpec(s.tagMap, tags, k);
    if ks != {} {
      RemoveSpec(s, ks, k, t);
    }
  }

  /** `invalidateTagsUnion(tags)` deletes exactly the keys held by some
      named tag, which leave every tag's set; other keys keep their entries
      and memberships. */
  lemma InvalidateUnionSpec<K, V>(s: State<K, V>, tags: seq<string>, k: K, t: string)
    ensures k in UnionTargets(s.tagMap, tags) <==> exists u :: u in tags && u in s.tagMap && k in s.tagMap[u]
    ensures Lookup(InvalidateUnion(s, tags), k) ==
              if k in UnionTargets(s.tagMap, tags) then None else Lookup(s, k)
    ensures k in UnionTargets(s.tagMap, tags) ==> k !in KeysOf(InvalidateUnion(s, tags).tagMap, t)
    ensures k !in UnionTargets(s.tagMap, tags) ==>
              (k in KeysOf(InvalidateUnion(s, tags).tagMap, t) <==> k in KeysOf(s.tagMap, t))
  {
    var ks := UnionTargets(s.tagMap, tags);
    if exists u :: u in tags && u in s.tagMap && k in s.tagMap[u] {
      var u :| u in tags && u in s.tagMap && k in s.tagMap[u];
      assert k in KeysOf(s.tagMap, u);
    }
    if ks != {} {
      RemoveSpec(s, ks, k, t);
    }
  }

  // ---------------------------------------------------------------------
  // expiry, flushAll

  /** Dropping an entry from the store alone only shrinks the store, so
      every live entry stays indexed. */
  lemma ExpireKeepsConsistent<K, V>(s: State<K, V>, key: K)
    requires Consistent(s)
    ensures Consistent(Expire(s, key))
    ensures Lookup(Expire(s, key), key) == None
  {
    var r := Expire(s, key);
    forall k, t | k in r.store && t in r.store[k].tags
      ensures k in KeysOf(r.tagMap, t)
    {
      assert s.store[k] == r.store[k];
    }
  }

  /** After `flushAll` nothing is stored or indexed. */
  lemma FlushSpec<K, V>(key: K, tag: string)
    ensures Consistent(Empty<K, V>())
    ensures Lookup(Empty<K, V>(), key) == None
    ensures KeysOf(Empty<K, V>().tagMap, tag) == {}
  {
  }

  // ---------------------------------------------------------------------
  // what the index does not track

  /** Re-setting a key under new tags leaves it under its old ones, so
      invalidating an old tag still deletes it. */
  lemma StaleTagAfterReset<K, V>(s: State<K, V>, key: K, v1: V, v2: V, a: string, b: string)
    requires a != b
    ensures var r := Put(Put(s, key, v1, [a], true), key, v2, [b], true);
              a !in r.store[key].tags && key in KeysOf(r.tagMap, a) &&
              Lookup(InvalidateTag(r, a), key) == None
  {
    var r1 := Put(s, key, v1, [a], true);
    var r := Put(r1, key, v2, [b], true);
    assert key in KeysOf(r1.tagMap, a) by { assert a in [a]; }
    PutIndexes(r1, key, v2, [b], a);
  }

  /** An entry that leaves the store other than through `del` stays
      listed in the index. */
  lemma StaleKeyAfterExpire<K, V>(s: State<K, V>, key: K, t: string)
    requires key in s.store && t in s.store[key].tags && Consistent(s)
    ensures Lookup(Expire(s, key), key) == None && key in KeysOf(Expire(s, key).tagMap, t)
  {
  }
}
