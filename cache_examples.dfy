/** Clients of the Cache class that replay every test of
    src/tests/Cache.test.ts exercising the modelled operations; each states,
    as its postcondition, what the test observes.  node-cache accepts every entry in these scenarios, and
    the time-to-live arguments of the tests are dropped. */
module CacheExamples {
  import opened TagIndex
  import opened CacheState
  import opened CacheEngine

  /** The three keys the tests tag in the same pattern: `k1` under `t1`,
      `k2` under `t2` and `k3` under both. */
  datatype Trio = Trio(k1: string, v1: string, k2: string, v2: string, k3: string, v3: string,
                       t1: string, t2: string)
  {
    predicate Distinct() {
      k1 != k2 && k1 != k3 && k2 != k3 && t1 != t2
    }

    function First(): State<string, string> {
      Put(Empty(), k1, v1, [t1], true)
    }

    function Second(): State<string, string> {
      Put(First(), k2, v2, [t2], true)
    }

    function Third(): State<string, string> {
      Put(Second(), k3, v3, [t1, t2], true)
    }
  }

  /** The index and store after each of the three `set` calls. */
  lemma FirstIndex(n: Trio)
    requires n.Distinct()
    ensures n.First().store.Keys == {n.k1}
    ensures KeysOf(n.First().tagMap, n.t1) == {n.k1} && KeysOf(n.First().tagMap, n.t2) == {}
  {
    PutIndexes(Empty<string, string>(), n.k1, n.v1, [n.t1], n.t1);
    PutIndexes(Empty<string, string>(), n.k1, n.v1, [n.t1], n.t2);
  }

  lemma SecondIndex(n: Trio)
    requires n.Distinct()
    ensures n.Second().store.Keys == {n.k1, n.k2}
    ensures KeysOf(n.Second().tagMap, n.t1) == {n.k1} && KeysOf(n.Second().tagMap, n.t2) == {n.k2}
  {
    FirstIndex(n);
    PutIndexes(n.First(), n.k2, n.v2, [n.t2], n.t1);
    PutIndexes(n.First(), n.k2, n.v2, [n.t2], n.t2);
  }

  lemma ThirdIndex(n: Trio)
    requires n.Distinct()
    ensures n.Third().store.Keys == {n.k1, n.k2, n.k3}
    ensures KeysOf(n.Third().tagMap, n.t1) == {n.k1, n.k3}
    ensures KeysOf(n.Third().tagMap, n.t2) == {n.k2, n.k3}
  {
    SecondIndex(n);
    PutIndexes(n.Second(), n.k3, n.v3, [n.t1, n.t2], n.t1);
    PutIndexes(n.Second(), n.k3, n.v3, [n.t1, n.t2], n.t2);
  }

  /** A cache holding the three keys of `n`, set in order. */
  method ThreeKeys(n: Trio) returns (cache: Cache<string, string>)
    requires n.Distinct()
    ensures fresh(cache) && cache.Valid()
    ensures cache.store.Keys == {n.k1, n.k2, n.k3}
    ensures cache.store[n.k1].value == n.v1 && cache.store[n.k2].value == n.v2
    ensures cache.store[n.k3].value == n.v3
    ensures KeysOf(cache.tagMap, n.t1) == {n.k1, n.k3}
    ensures KeysOf(cache.tagMap, n.t2) == {n.k2, n.k3}
  {
    cache := new Cache<string, string>();
    var _ := cache.Set(n.k1, n.v1, [n.t1], true);
    var _ := cache.Set(n.k2, n.v2, [n.t2], true);
    var _ := cache.Set(n.k3, n.v3, [n.t1, n.t2], true);
    assert cache.Abstract() == n.Third();
    ThirdIndex(n);
  }

  /** key1 under tag1, key2 under tag2 and key3 under both. */
  const Tags12 := Trio("key1", "value1", "key2", "value2", "key3", "value3", "tag1", "tag2")

  /** key4 under tagA, key5 under tagB and key6 under both. */
  const TagsAB := Trio("key4", "value4", "key5", "value5", "key6", "value6", "tagA", "tagB")

  /** key7 under tagZ, key8 under tagY and key9 under both. */
  const TagsZY := Trio("key7", "value7", "key8", "value8", "key9", "value9", "tagZ", "tagY")

  /** One accepted `set`, read through the store. */
  method SetEntry(cache: Cache<string, string>, key: string, value: string, tags: seq<string>)
    requires cache.Valid()
    modifies cache
    ensures cache.Valid()
    ensures cache.store == old(cache.store)[key := Entry(value, tags)]
  {
    var _ := cache.Set(key, value, tags, true);
  }

  /** The entries after the ten `set` calls of the set-and-get test. */
  const TenEntries := map["key0" := Entry("value0", []), "key1" := Entry("value1", ["tag1"]),
                          "key2" := Entry("value2", ["tag2"]), "key3" := Entry("value3", ["tag1", "tag2"]),
                          "key4" := Entry("value4", ["tagA"]), "key5" := Entry("value5", ["tagB"]),
                          "key6" := Entry("value6", ["tagA", "tagB"]), "key7" := Entry("value7", ["tagZ"]),
                          "key8" := Entry("value8", ["tagY"]), "key9" := Entry("value9", ["tagZ", "tagY"])]

  /** Ten keys set in turn, key0 untagged and the others in three tag
      patterns. */
  method TenKeys() returns (cache: Cache<string, string>)
    ensures fresh(cache) && cache.Valid()
    ensures cache.store == TenEntries
  {
    cache := new Cache<string, string>();
    SetEntry(cache, "key0", "value0", []);
    SetEntry(cache, "key1", "value1", ["tag1"]);
    SetEntry(cache, "key2", "value2", ["tag2"]);
    SetEntry(cache, "key3", "value3", ["tag1", "tag2"]);
    SetEntry(cache, "key4", "value4", ["tagA"]);
    SetEntry(cache, "key5", "value5", ["tagB"]);
    SetEntry(cache, "key6", "value6", ["tagA", "tagB"]);
    SetEntry(cache, "key7", "value7", ["tagZ"]);
    SetEntry(cache, "key8", "value8", ["tagY"]);
    SetEntry(cache, "key9", "value9", ["tagZ", "tagY"]);
  }

  /** After the ten `set` calls, each of key0 to key6 reads back its value. */
  method SetGetScenario() returns (found: seq<Option<string>>)
    ensures found == [Some("value0"), Some("value1"), Some("value2"), Some("value3"),
                      Some("value4"), Some("value5"), Some("value6")]
  {
    var cache := TenKeys();
    found := [cache.Get("key0"), cache.Get("key1"), cache.Get("key2"), cache.Get("key3"),
              cache.Get("key4"), cache.Get("key5"), cache.Get("key6")];
  }

  /** An untagged key set and then deleted reads as absent. */
  method DeleteScenario() returns (after: Option<string>)
    ensures after == None
  {
    var cache := new Cache<string, string>();
    SetEntry(cache, "key0", "value0", []);
    assert Listed(["key0"]) == {"key0"};
    var _ := cache.Del(["key0"]);
    after := cache.Get("key0");
  }

  /** `take` returns the value, and the key leaves the store and its tag,
      which is pruned as it held nothing else. */
  method TakeScenario() returns (tagged: set<string>, taken: Option<string>, after: Option<string>, tagLeft: bool)
    ensures tagged == {"key0"}
    ensures taken == Some("value0") && after == None
    ensures !tagLeft
  {
    var cache := new Cache<string, string>();
    var _ := cache.Set("key0", "value0", ["test"], true);
    var index := cache.GetTagMap();
    tagged := KeysOf(index, "test");
    assert "key0" in tagged;
    taken := cache.Take("key0");
    after := cache.Get("key0");
    index := cache.GetTagMap();
    tagLeft := "test" in index;
  }

  /** Invalidating tag1 removes the two keys holding it and keeps the other. */
  method InvalidateTagScenario() returns (v1: Option<string>, v2: Option<string>, v3: Option<string>)
    ensures v1 == None && v2 == Some("value2") && v3 == None
  {
    var cache := ThreeKeys(Tags12);
    ghost var s := cache.Abstract();
    cache.InvalidateTag("tag1");
    InvalidateTagSpec(s, "tag1", "key1", "");
    InvalidateTagSpec(s, "tag1", "key2", "");
    InvalidateTagSpec(s, "tag1", "key3", "");
    v1, v2, v3 := cache.Get("key1"), cache.Get("key2"), cache.Get("key3");
  }

  /** Keys tagged {tagA}, {tagB} and {tagA, tagB}: the intersection of the
      two tags removes only the key holding both. */
  method IntersectionScenario() returns (v4: Option<string>, v5: Option<string>, v6: Option<string>)
    ensures v4 == Some("value4") && v5 == Some("value5") && v6 == None
  {
    var cache := ThreeKeys(TagsAB);
    ghost var s := cache.Abstract();
    var tags := ["tagA", "tagB"];
    cache.InvalidateTagsIntersection(tags);
    assert tags[0] == "tagA" && tags[1] == "tagB";
    assert "key4" !in IntersectionTargets(s.tagMap, tags) by {
      IntersectionTargetsSpec(s.tagMap, tags, "key4");
      assert "tagB" in tags;
    }
    assert "key5" !in IntersectionTargets(s.tagMap, tags) by {
      IntersectionTargetsSpec(s.tagMap, tags, "key5");
      assert "tagA" in tags;
    }
    assert "key6" in IntersectionTargets(s.tagMap, tags) by {
      IntersectionTargetsSpec(s.tagMap, tags, "key6");
      assert "tagA" in tags;
    }
    InvalidateIntersectionSpec(s, tags, "key4", "");
    InvalidateIntersectionSpec(s, tags, "key5", "");
    InvalidateIntersectionSpec(s, tags, "key6", "");
    v4, v5, v6 := cache.Get("key4"), cache.Get("key5"), cache.Get("key6");
  }

  /** Keys tagged {tagZ}, {tagY} and {tagZ, tagY}: the union removes all three. */
  method UnionScenario() returns (v7: Option<string>, v8: Option<string>, v9: Option<string>)
    ensures v7 == None && v8 == None && v9 == None
  {
    var cache := ThreeKeys(TagsZY);
    ghost var s := cache.Abstract();
    var tags := ["tagZ", "tagY"];
    cache.InvalidateTagsUnion(tags);
    assert "tagZ" in tags && "tagY" in tags;
    InvalidateUnionSpec(s, tags, "key7", "");
    InvalidateUnionSpec(s, tags, "key8", "");
    InvalidateUnionSpec(s, tags, "key9", "");
    v7, v8, v9 := cache.Get("key7"), cache.Get("key8"), cache.Get("key9");
  }

  /** After `flushAll` no key is stored and no tag indexed. */
  method FlushScenario() returns (v1: Option<string>, v2: Option<string>, stored: nat, tags: nat)
    ensures v1 == None && v2 == None && stored == 0 && tags == 0
  {
    var cache := new Cache<string, string>();
    var _ := cache.Set("key1", "value1", ["tag1"], true);
    var _ := cache.Set("key2", "value2", ["tag2"], true);
    cache.FlushAll();
    v1, v2 := cache.Get("key1"), cache.Get("key2");
    stored, tags := |cache.store|, |cache.GetTagMap()|;
  }

  /** `mset` stores every item; `get` then returns each value. */
  method MSetScenario() returns (ok: bool, v1: Option<string>, v2: Option<string>, v3: Option<string>)
    ensures ok
    ensures v1 == Some("value1") && v2 == Some("value2") && v3 == Some("value3")
  {
    var cache := new Cache<string, string>();
    var items := [Item("key1", "value1", ["tag1"]), Item("key2", "value2", ["tag2"]),
                  Item("key3", "value3", ["tag1", "tag2"])];
    ok := cache.MSet(items, [true, true, true]);
    LookupAfterPutAll(Empty(), items, [true, true, true], 0);
    LookupAfterPutAll(Empty(), items, [true, true, true], 1);
    LookupAfterPutAll(Empty(), items, [true, true, true], 2);
    v1, v2, v3 := cache.Get("key1"), cache.Get("key2"), cache.Get("key3");
  }

  /** `mget` answers every stored key. */
  method MGetScenario() returns (found: map<string, string>)
    ensures found == map["key1" := "value1", "key2" := "value2", "key3" := "value3"]
  {
    var cache := ThreeKeys(Tags12);
    var keys := ["key1", "key2", "key3"];
    found := cache.MGet(keys);
    assert "key1" in keys && "key2" in keys && "key3" in keys;
    assert found.Keys == {"key1", "key2", "key3"};
  }

  /** The intersection of tag1 and tag2 removes key3 alone, the only key
      holding both. */
  method IntersectOneAndTwo() returns (cache: Cache<string, string>)
    ensures fresh(cache) && cache.Valid()
    ensures cache.Get("key1") == Some("value1") && cache.Get("key2") == Some("value2")
    ensures cache.Get("key3") == None
  {
    cache := ThreeKeys(Tags12);
    ghost var s := cache.Abstract();
    var tags := ["tag1", "tag2"];
    cache.InvalidateTagsIntersection(tags);
    assert tags[0] == "tag1" && tags[1] == "tag2";
    assert "key1" !in IntersectionTargets(s.tagMap, tags) by {
      IntersectionTargetsSpec(s.tagMap, tags, "key1");
      assert "tag2" in tags;
    }
    assert "key2" !in IntersectionTargets(s.tagMap, tags) by {
      IntersectionTargetsSpec(s.tagMap, tags, "key2");
      assert "tag1" in tags;
    }
    assert "key3" in IntersectionTargets(s.tagMap, tags) by {
      IntersectionTargetsSpec(s.tagMap, tags, "key3");
      assert "tag1" in tags;
    }
    InvalidateIntersectionSpec(s, tags, "key1", "");
    InvalidateIntersectionSpec(s, tags, "key2", "");
    InvalidateIntersectionSpec(s, tags, "key3", "");
  }

  /** After that intersection `mget` no longer answers key3. */
  method MGetAfterIntersectionScenario() returns (found: map<string, string>)
    ensures found == map["key1" := "value1", "key2" := "value2"]
  {
    var cache := IntersectOneAndTwo();
    var keys := ["key1", "key2", "key3"];
    found := cache.MGet(keys);
    assert "key1" in keys && "key2" in keys;
    assert found.Keys == {"key1", "key2"};
  }

  /** `mdel` of key1 and key2 removes them and keeps key3. */
  method MDelScenario() returns (removed: nat, v1: Option<string>, v2: Option<string>, v3: Option<string>)
    ensures removed == 2
    ensures v1 == None && v2 == None && v3 == Some("value3")
  {
    var cache := ThreeKeys(Tags12);
    ghost var s := cache.Abstract();
    var keys := ["key1", "key2"];
    assert Listed(keys) == {"key1", "key2"};
    assert Listed(keys) * s.store.Keys == {"key1", "key2"};
    removed := cache.MDel(keys);
    v1, v2, v3 := cache.Get("key1"), cache.Get("key2"), cache.Get("key3");
  }

  /** The index lists each key under the tag it was set with. */
  method TagMapScenario() returns (tag1: set<string>, tag2: set<string>)
    ensures tag1 == {"key1"} && tag2 == {"key2"}
  {
    var cache := new Cache<string, string>();
    var _ := cache.Set("key1", "value1", ["tag1"], true);
    ghost var s1 := cache.Abstract();
    assert s1.tagMap["tag1"] == {"key1"} && "tag2" !in s1.tagMap;
    var _ := cache.Set("key2", "value2", ["tag2"], true);
    var index := cache.GetTagMap();
    tag1, tag2 := KeysOf(index, "tag1"), KeysOf(index, "tag2");
    assert "key2" in tag2 && "key1" in tag1;
  }

  // ---------------------------------------------------------------------
  // number keys

  /** The key sets of the four tags the number-key scenario uses. */
  predicate NumberIndex(tm: TagMap<int>, tag1: set<int>, tag2: set<int>, tagA: set<int>, tagB: set<int>) {
    KeysOf(tm, "tag1") == tag1 && KeysOf(tm, "tag2") == tag2 &&
    KeysOf(tm, "tagA") == tagA && KeysOf(tm, "tagB") == tagB
  }

  /** One accepted `set` adds the key to the sets of the four tags it names. */
  lemma PutNumber(s: State<int, string>, key: int, value: string, tags: seq<string>,
                  tag1: set<int>, tag2: set<int>, tagA: set<int>, tagB: set<int>)
    requires NumberIndex(s.tagMap, tag1, tag2, tagA, tagB)
    ensures NumberIndex(Put(s, key, value, tags, true).tagMap,
                        tag1 + (if "tag1" in tags then {key} else {}),
                        tag2 + (if "tag2" in tags then {key} else {}),
                        tagA + (if "tagA" in tags then {key} else {}),
                        tagB + (if "tagB" in tags then {key} else {}))
  {
    PutIndexes(s, key, value, tags, "tag1");
    PutIndexes(s, key, value, tags, "tag2");
    PutIndexes(s, key, value, tags, "tagA");
    PutIndexes(s, key, value, tags, "tagB");
  }

  /** One accepted `set` of a number key, read through the four tags. */
  method SetNumber(cache: Cache<int, string>, key: int, value: string, tags: seq<string>,
                   tag1: set<int>, tag2: set<int>, tagA: set<int>, tagB: set<int>)
    requires cache.Valid()
    requires NumberIndex(cache.tagMap, tag1, tag2, tagA, tagB)
    modifies cache
    ensures cache.Valid()
    ensures cache.store == old(cache.store)[key := Entry(value, tags)]
    ensures NumberIndex(cache.tagMap,
                        tag1 + (if "tag1" in tags then {key} else {}),
                        tag2 + (if "tag2" in tags then {key} else {}),
                        tagA + (if "tagA" in tags then {key} else {}),
                        tagB + (if "tagB" in tags then {key} else {}))
  {
    ghost var s := cache.Abstract();
    var _ := cache.Set(key, value, tags, true);
    PutNumber(s, key, value, tags, tag1, tag2, tagA, tagB);
  }

  /** Test lines 225-227: keys 1 to 3. */
  method FirstNumbers() returns (cache: Cache<int, string>)
    ensures fresh(cache) && cache.Valid()
    ensures cache.store == map[1 := Entry("value1", []), 2 := Entry("value2", ["tag1"]),
                               3 := Entry("value3", ["tag2"])]
    ensures NumberIndex(cache.tagMap, {2}, {3}, {}, {})
  {
    cache := new Cache<int, string>();
    SetNumber(cache, 1, "value1", [], {}, {}, {}, {});
    SetNumber(cache, 2, "value2", ["tag1"], {}, {}, {}, {});
    SetNumber(cache, 3, "value3", ["tag2"], {2}, {}, {}, {});
  }

  /** Test lines 225-230: keys 1 to 6, key 1 untagged. */
  method NumberKeys() returns (cache: Cache<int, string>)
    ensures fresh(cache) && cache.Valid()
    ensures cache.store == map[1 := Entry("value1", []), 2 := Entry("value2", ["tag1"]),
                               3 := Entry("value3", ["tag2"]), 4 := Entry("value4", ["tag1", "tag2"]),
                               5 := Entry("value5", ["tagA"]), 6 := Entry("value6", ["tagB"])]
    ensures NumberIndex(cache.tagMap, {2, 4}, {3, 4}, {5}, {6})
  {
    cache := FirstNumbers();
    SetNumber(cache, 4, "value4", ["tag1", "tag2"], {2}, {3}, {}, {});
    SetNumber(cache, 5, "value5", ["tagA"], {2, 4}, {3, 4}, {}, {});
    SetNumber(cache, 6, "value6", ["tagB"], {2, 4}, {3, 4}, {5}, {});
  }

  /** Test line 237: `del(1)`; key 1 is in no tag's set, so the index stays. */
  method NumberDelOne(cache: Cache<int, string>) returns (removed: nat)
    requires cache.Valid() && 1 in cache.store
    requires NumberIndex(cache.tagMap, {2, 4}, {3, 4}, {5}, {6})
    modifies cache
    ensures cache.Valid() && removed == 1
    ensures cache.store == old(cache.store) - {1}
    ensures NumberIndex(cache.tagMap, {2, 4}, {3, 4}, {5}, {6})
  {
    ghost var tm := cache.tagMap;
    assert Listed([1]) == {1};
    assert {1} * cache.store.Keys == {1};
    removed := cache.Del([1]);
    assert cache.tagMap == Detach(tm, {1});
    DetachKeysOf(tm, {1}, "tag1");
    DetachKeysOf(tm, {1}, "tag2");
    DetachKeysOf(tm, {1}, "tagA");
    DetachKeysOf(tm, {1}, "tagB");
    assert {2, 4} - {1} == {2, 4} && {3, 4} - {1} == {3, 4} && {5} - {1} == {5} && {6} - {1} == {6};
  }

  /** Test line 240: `invalidateTag("tag1")` deletes keys 2 and 4; tag1's
      set is emptied and the tag dropped, and key 4 leaves tag2's set. */
  method NumberInvalidateTag1(cache: Cache<int, string>)
    requires cache.Valid()
    requires NumberIndex(cache.tagMap, {2, 4}, {3, 4}, {5}, {6})
    modifies cache
    ensures cache.Valid()
    ensures cache.store == old(cache.store) - {2, 4}
    ensures "tag1" !in cache.tagMap
    ensures NumberIndex(cache.tagMap, {}, {3}, {5}, {6})
  {
    ghost var s := cache.Abstract();
    assert "tag1" in s.tagMap && s.tagMap["tag1"] == {2, 4};
    cache.InvalidateTag("tag1");
    InvalidateTagSpec(s, "tag1", 2, "tag1");
    DetachKeysOf(s.tagMap, {2, 4}, "tag1");
    DetachKeysOf(s.tagMap, {2, 4}, "tag2");
    DetachKeysOf(s.tagMap, {2, 4}, "tagA");
    DetachKeysOf(s.tagMap, {2, 4}, "tagB");
  }

  /** Test line 245: tag1 is absent, so the intersection of tag1 and tag2
      is tag2's set alone, and key 3 is deleted. */
  method NumberIntersection(cache: Cache<int, string>)
    requires cache.Valid() && "tag1" !in cache.tagMap
    requires NumberIndex(cache.tagMap, {}, {3}, {5}, {6})
    modifies cache
    ensures cache.Valid()
    ensures cache.store == old(cache.store) - {3}
    ensures NumberIndex(cache.tagMap, {}, {}, {5}, {6})
  {
    ghost var s := cache.Abstract();
    var tags := ["tag1", "tag2"];
    assert "tag2" in s.tagMap && s.tagMap["tag2"] == {3};
    forall k | true
      ensures k in IntersectionTargets(s.tagMap, tags) <==> k == 3
    {
      IntersectionTargetsSpec(s.tagMap, tags, k);
      assert tags[1] == "tag2";
    }
    assert IntersectionTargets(s.tagMap, tags) == {3};
    cache.InvalidateTagsIntersection(tags);
    DetachKeysOf(s.tagMap, {3}, "tag1");
    DetachKeysOf(s.tagMap, {3}, "tag2");
    DetachKeysOf(s.tagMap, {3}, "tagA");
    DetachKeysOf(s.tagMap, {3}, "tagB");
  }

  /** Test line 251: the union of tagA and tagB deletes keys 5 and 6. */
  method NumberUnion(cache: Cache<int, string>)
    requires cache.Valid()
    requires NumberIndex(cache.tagMap, {}, {}, {5}, {6})
    modifies cache
    ensures cache.Valid()
    ensures cache.store == old(cache.store) - {5, 6}
  {
    ghost var s := cache.Abstract();
    var tags := ["tagA", "tagB"];
    assert tags[0] == "tagA" && tags[1] == "tagB";
    assert UnionTargets(s.tagMap, tags) == {5, 6} by {
      UnionTargetsStep(s.tagMap, tags, 0);
      UnionTargetsStep(s.tagMap, tags, 1);
      assert tags[..0] == [] && tags[..2] == tags;
    }
    cache.InvalidateTagsUnion(tags);
  }

  /** Test lines 225-238: the six keys, their `get`s and `del(1)`. */
  method NumberSetAndDel() returns (cache: Cache<int, string>, set1: seq<Option<string>>,
                                    afterDel: Option<string>)
    ensures fresh(cache) && cache.Valid()
    ensures cache.store.Keys == {2, 3, 4, 5, 6}
    ensures cache.store[3].value == "value3" && cache.store[5].value == "value5" && cache.store[6].value == "value6"
    ensures NumberIndex(cache.tagMap, {2, 4}, {3, 4}, {5}, {6})
    ensures set1 == [Some("value1"), Some("value2"), Some("value3"), Some("value4")]
    ensures afterDel == None
  {
    cache := NumberKeys();
    set1 := [cache.Get(1), cache.Get(2), cache.Get(3), cache.Get(4)];
    var _ := NumberDelOne(cache);
    afterDel := cache.Get(1);
  }

  /** Test lines 225-243: the six keys, `del(1)` and `invalidateTag("tag1")`,
      with the `get`s between them. */
  method NumberFirstSteps() returns (cache: Cache<int, string>, set1: seq<Option<string>>,
                                     afterDel: Option<string>, afterTag: seq<Option<string>>)
    ensures fresh(cache) && cache.Valid()
    ensures cache.store.Keys == {3, 5, 6}
    ensures cache.store[3].value == "value3" && cache.store[5].value == "value5" && cache.store[6].value == "value6"
    ensures "tag1" !in cache.tagMap && NumberIndex(cache.tagMap, {}, {3}, {5}, {6})
    ensures set1 == [Some("value1"), Some("value2"), Some("value3"), Some("value4")]
    ensures afterDel == None
    ensures afterTag == [None, Some("value3"), None]
  {
    cache, set1, afterDel := NumberSetAndDel();
    NumberInvalidateTag1(cache);
    afterTag := [cache.Get(2), cache.Get(3), cache.Get(4)];
  }

  /** Number keys, src/tests/Cache.test.ts:224-254: what each `get` of the
      test observes after each step. */
  method NumberKeysScenario() returns (set1: seq<Option<string>>, afterDel: Option<string>,
                                       afterTag: seq<Option<string>>, afterIntersection: seq<Option<string>>,
                                       afterUnion: seq<Option<string>>)
    ensures set1 == [Some("value1"), Some("value2"), Some("value3"), Some("value4")]
    ensures afterDel == None
    ensures afterTag == [None, Some("value3"), None]
    ensures afterIntersection == [None, Some("value5"), Some("value6")]
    ensures afterUnion == [None, None]
  {
    var cache;
    cache, set1, afterDel, afterTag := NumberFirstSteps();
    NumberIntersection(cache);
    afterIntersection := [cache.Get(3), cache.Get(5), cache.Get(6)];
    NumberUnion(cache);
    afterUnion := [cache.Get(5), cache.Get(6)];
  }
}
