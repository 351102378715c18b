/** The class `Cache` of src/Cache.ts.  Its two fields are the entries it
    keeps in node-cache (`store`, written through node-cache's own set, del
    and flushAll) and the tag index `tagMap`, which its methods update in
    place.  Every public method that changes the cache is proved to move
    the abstract state `Abstract()` as the matching function of CacheState
    says, and to keep the invariant `Valid()`. */
module CacheEngine {
  import opened TagIndex
  import opened CacheState

  /** `Array.from(s)`: the members of a set, each once, in some order. */
  method ToSequence<K>(s: set<K>) returns (q: seq<K>)
    ensures Listed(q) == s
    ensures forall i, j :: 0 <= i < j < |q| ==> q[i] != q[j]
  {
    q := [];
    var rest := s;
    while rest != {}
      invariant rest <= s
      invariant Listed(q) == s - rest
      invariant forall i, j :: 0 <= i < j < |q| ==> q[i] != q[j]
      decreases rest
    {
      var x :| x in rest;
      assert Listed(q + [x]) == Listed(q) + {x};
      q := q + [x];
      rest := rest - {x};
    }
  }

  /** The inner loop of `invalidateTagsIntersection`: walking a copy of
      `keys`, every key that `keySet` lacks is deleted from it. */
  method Narrowed<K>(keys: set<K>, keySet: set<K>) returns (narrowed: set<K>)
    ensures forall k :: k in narrowed <==> k in keys && k in keySet
  {
    narrowed := keys;
    var snapshot := ToSequence(keys);
    for j := 0 to |snapshot|
      invariant forall k :: k in narrowed <==> k in keys && (k in keySet || k !in snapshot[..j])
    {
      if snapshot[j] !in keySet {
        narrowed := narrowed - {snapshot[j]};
      }
      assert snapshot[..j + 1] == snapshot[..j] + [snapshot[j]];
    }
    assert snapshot[..|snapshot|] == snapshot;
  }

  class Cache<K(==), V> {
    /** The `{ value, tags }` entries node-cache holds, by key. */
    var store: map<K, Entry<V>>
    /** The tag index, `tagMap`. */
    var tagMap: TagMap<K>

    function Abstract(): State<K, V>
      reads this
    {
      State(store, tagMap)
    }

    ghost predicate Valid()
      reads this
    {
      Consistent(Abstract())
    }

    constructor ()
      ensures Valid() && Abstract() == Empty()
    {
      store := map[];
      tagMap := map[];
    }

    /** `set(key, value, ttl, tags)`; `accepted` is what node-cache's set
        answered.  The loop adds the key to each tag's set, creating the
        set first when the tag is new. */
    method Set(key: K, value: V, tags: seq<string>, accepted: bool) returns (success: bool)
      requires Valid()
      modifies this
      ensures Valid()
      ensures success == accepted
      ensures Abstract() == Put(old(Abstract()), key, value, tags, accepted)
    {
      success := accepted;
      if success {
        store := store[key := Entry(value, tags)];
        ghost var tm0 := tagMap;
        AttachNothing(tm0, key);
        var i := 0;
        while i < |tags|
          invariant 0 <= i <= |tags|
          invariant store == old(store)[key := Entry(value, tags)]
          invariant tagMap == Attach(tm0, key, tags[..i])
        {
          var tag := tags[i];
          var keys: set<K>;
          if tag in tagMap {
            keys := tagMap[tag];
          } else {
            keys := {};
            tagMap := tagMap[tag := keys];
          }
          tagMap := tagMap[tag := keys + {key}];
          AttachStep(tm0, key, tags, i);
          i := i + 1;
        }
        assert tags[..i] == tags;
      }
      assert Abstract() == Put(old(Abstract()), key, value, tags, accepted);
      PutKeepsConsistent(old(Abstract()), key, value, tags, accepted);
    }

    /** `mset(items)`: `set` on each item in order; always answers true. */
    method MSet(items: seq<Item<K, V>>, accepted: seq<bool>) returns (ok: bool)
      requires Valid()
      requires |items| == |accepted|
      modifies this
      ensures Valid()
      ensures ok
      ensures Abstract() == PutAll(old(Abstract()), items, accepted)
    {
      ghost var s0 := Abstract();
      for i := 0 to |items|
        invariant Valid()
        invariant Abstract() == PutAll(s0, items[..i], accepted[..i])
      {
        var _ := Set(items[i].key, items[i].val, items[i].tags, accepted[i]);
        assert items[..i + 1][..i] == items[..i] && accepted[..i + 1][..i] == accepted[..i];
      }
      assert items[..|items|] == items && accepted[..|accepted|] == accepted;
      ok := true;
    }

    /** `get(key)`: the stored entry's value, or nothing. */
    function Get(key: K): (r: Option<V>)
      reads this
      ensures r == Lookup(Abstract(), key)
    {
      var item := if key in store then Some(store[key]) else None;
      if item.Some? then Some(item.value.value) else None
    }

    /** `mget(keys)`: the listed keys that hold a value, each with its value. */
    method MGet(keys: seq<K>) returns (result: map<K, V>)
      ensures forall k :: k in result <==> k in keys && Get(k).Some?
      ensures forall k :: k in result ==> Get(k) == Some(result[k])
    {
      result := map[];
      for i := 0 to |keys|
        invariant forall k :: k in result <==> k in keys[..i] && Get(k).Some?
        invariant forall k :: k in result ==> Get(k) == Some(result[k])
      {
        var value := Get(keys[i]);
        if value.Some? {
          result := result[keys[i] := value.value];
        }
        assert keys[..i + 1] == keys[..i] + [keys[i]];
      }
      assert keys[..|keys|] == keys;
    }

    /** `del(keys)`: node-cache drops the listed keys, then each listed key
        is deleted from every tag's set, and a tag whose set this empties is
        removed.  Answers node-cache's count of deleted entries. */
    method Del(keys: seq<K>) returns (deletedCount: nat)
      requires Valid()
      modifies this
      ensures Valid()
      ensures deletedCount == RemovedCount(old(Abstract()), Listed(keys))
      ensures Abstract() == Remove(old(Abstract()), Listed(keys))
    {
      deletedCount := |Listed(keys) * store.Keys|;
      store := store - Listed(keys);
      ghost var tm0 := tagMap;
      DetachNothing(tm0);
      assert Listed(keys[..0]) == {};
      var i := 0;
      while i < |keys|
        invariant 0 <= i <= |keys|
        invariant store == old(store) - Listed(keys)
        invariant tagMap == Detach(tm0, Listed(keys[..i]))
      {
        var key := keys[i];
        DetachKey(key);
        DetachStep(tm0, keys, i);
        i := i + 1;
      }
      assert keys[..i] == keys;
      assert Abstract() == Remove(old(Abstract()), Listed(keys));
      RemoveKeepsConsistent(old(Abstract()), Listed(keys));
    }

    /** One round of `del`'s outer loop: `key` is deleted from the set of
        every tag, visiting the index's entries, and a tag whose set this
        empties is removed. */
    method DetachKey(key: K)
      modifies this
      ensures store == old(store)
      ensures tagMap == Detach(old(tagMap), {key})
    {
      var pending := tagMap.Keys;
      while pending != {}
        invariant store == old(store)
        invariant pending <= old(tagMap).Keys
        invariant forall t :: t in tagMap <==> t in old(tagMap) && (t in pending || !Emptied(old(tagMap)[t], {key}))
        invariant forall t :: t in tagMap ==> tagMap[t] == if t in pending then old(tagMap)[t] else old(tagMap)[t] - {key}
        decreases pending
      {
        var tag :| tag in pending;
        var keySet := tagMap[tag];
        if key in keySet {
          keySet := keySet - {key};
          if |keySet| == 0 {
            tagMap := tagMap - {tag};
          } else {
            tagMap := tagMap[tag := keySet];
          }
        }
        pending := pending - {tag};
      }
    }

    /** `mdel(keys)`: `del` of the listed keys. */
    method MDel(keys: seq<K>) returns (deletedCount: nat)
      requires Valid()
      modifies this
      ensures Valid()
      ensures deletedCount == RemovedCount(old(Abstract()), Listed(keys))
      ensures Abstract() == Remove(old(Abstract()), Listed(keys))
    {
      deletedCount := Del(keys);
    }

    /** `take(key)`: the stored value, the key being deleted; nothing, and
        no change, for an absent key. */
    method Take(key: K) returns (r: Option<V>)
      requires Valid()
      modifies this
      ensures Valid()
      ensures r == Lookup(old(Abstract()), key)
      ensures Abstract() == CacheState.Take(old(Abstract()), key)
    {
      if key in store {
        var item := store[key];
        assert Listed([key]) == {key};
        var _ := Del([key]);
        r := Some(item.value);
      } else {
        r := None;
      }
    }

    /** `invalidateTag(tag)`: `del` of a copy of the tag's key set. */
    method InvalidateTag(tag: string)
      requires Valid()
      modifies this
      ensures Valid()
      ensures Abstract() == CacheState.InvalidateTag(old(Abstract()), tag)
    {
      if tag !in tagMap {
        return;
      }
      var keysToDelete := ToSequence(tagMap[tag]);
      var _ := Del(keysToDelete);
    }

    /** The loop of `invalidateTagsIntersection` over the named tags the
        index holds: the first one's key set is copied and then narrowed, tag
        by tag, stopping once it is empty.  Stopping early changes nothing,
        as no later tag can bring a key back. */
    method IntersectKeys(present: seq<string>) returns (keysIntersection: Option<set<K>>)
      requires present != []
      ensures keysIntersection == Some(Common(tagMap, present))
    {
      keysIntersection := None;
      var i := 0;
      while i < |present|
        invariant 0 <= i <= |present|
        invariant keysIntersection.None? <==> i == 0
        invariant i > 0 ==> keysIntersection.value == Common(tagMap, present[..i])
      {
        var keySet := KeysOf(tagMap, present[i]);
        if keysIntersection.None? {
          keysIntersection := Some(keySet);
          CommonFirst(tagMap, present);
        } else {
          var narrowed := Narrowed(keysIntersection.value, keySet);
          keysIntersection := Some(narrowed);
          CommonStep(tagMap, present, i);
        }
        i := i + 1;
        if |keysIntersection.value| == 0 {
          break;
        }
      }
      assert keysIntersection.Some? && keysIntersection.value == Common(tagMap, present[..i]);
      CommonPrefix(tagMap, present, i);
      if i < |present| {
        assert keysIntersection.value == {};
        assert Common(tagMap, present) == {};
      } else {
        assert present[..i] == present;
      }
    }

    /** `invalidateTagsIntersection(tags)`: the named tags the index holds
        are kept, their common keys computed, and a non-empty result is
        deleted; when the index holds none of the tags nothing happens. */
    method InvalidateTagsIntersection(tags: seq<string>)
      requires Valid()
      modifies this
      ensures Valid()
      ensures Abstract() == InvalidateIntersection(old(Abstract()), tags)
    {
      var tagsToInvalidate := Present(tagMap, tags);
      if |tagsToInvalidate| == 0 {
        return;
      }
      var keysIntersection := IntersectKeys(tagsToInvalidate);
      if keysIntersection.Some? && |keysIntersection.value| > 0 {
        var keysToDelete := ToSequence(keysIntersection.value);
        var _ := Del(keysToDelete);
      }
    }

    /** `invalidateTagsUnion(tags)`: the keys of every named tag the index
        holds are gathered into one set, which is deleted when non-empty. */
    method InvalidateTagsUnion(tags: seq<string>)
      requires Valid()
      modifies this
      ensures Valid()
      ensures Abstract() == InvalidateUnion(old(Abstract()), tags)
    {
      var uniqueKeys: set<K> := {};
      for i := 0 to |tags|
        invariant unchanged(this)
        invariant uniqueKeys == UnionTargets(tagMap, tags[..i])
      {
        var tag := tags[i];
        if tag in tagMap {
          var keySet := tagMap[tag];
          var pending := keySet;
          while pending != {}
            invariant unchanged(this)
            invariant pending <= keySet
            invariant uniqueKeys == UnionTargets(tagMap, tags[..i]) + (keySet - pending)
            decreases pending
          {
            var key :| key in pending;
            uniqueKeys := uniqueKeys + {key};
            pending := pending - {key};
          }
        }
        UnionTargetsStep(tagMap, tags, i);
      }
      assert tags[..|tags|] == tags;
      if |uniqueKeys| > 0 {
        var keysToDelete := ToSequence(uniqueKeys);
        var _ := Del(keysToDelete);
      }
    }

    /** `flushAll()`: node-cache is flushed and the index cleared. */
    method FlushAll()
      modifies this
      ensures Valid()
      ensures Abstract() == Empty()
    {
      store := map[];
      tagMap := map[];
    }

    /** `getTagMap()`: the index, in which no tag has an empty set and every
        live entry is listed under each of its tags. */
    function GetTagMap(): (r: TagMap<K>)
      reads this
      requires Valid()
      ensures NoEmptyTags(r)
      ensures forall k, t :: k in store && t in store[k].tags ==> k in KeysOf(r, t)
    {
      tagMap
    }

    /** An entry leaving node-cache's store without going through `del`;
        the index is untouched. */
    method Expire(key: K)
      requires Valid()
      modifies this
      ensures Valid()
      ensures Abstract() == CacheState.Expire(old(Abstract()), key)
    {
      ExpireKeepsConsistent(Abstract(), key);
      store := store - {key};
    }
  }
}
