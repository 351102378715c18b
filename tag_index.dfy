/** The secondary index of the cache, `tagMap` in src/Cache.ts: for every tag,
    the set of keys that were stored under it.  This module gives the
    meaning of the three ways the cache changes or queries the index:
    attaching a key to tags (set), detaching keys (del) and the key sets
    selected for invalidation (one tag, intersection, union). */
module TagIndex {

  type TagMap<K> = map<string, set<K>>

  /** The keys recorded under `tag`; a tag the index does not hold has none. */
  function KeysOf<K>(tm: TagMap<K>, tag: string): set<K> {
    if tag in tm then tm[tag] else {}
  }

  /** No tag is kept with an empty key set. */
  predicate NoEmptyTags<K>(tm: TagMap<K>) {
    forall t :: t in tm ==> tm[t] != {}
  }

  /** The index after `key` was added to the set of every tag in `tags`,
      a set being created for a tag the index did not hold yet. */
  function Attach<K>(tm: TagMap<K>, key: K, tags: seq<string>): (r: TagMap<K>)
    ensures forall t :: t in r <==> t in tm || t in tags
    ensures forall t :: t in tags ==> key in r[t]
    ensures forall t :: t in tm ==> tm[t] <= r[t]
    ensures forall t, k :: k in KeysOf(r, t) && k != key ==> k in KeysOf(tm, t)
    ensures NoEmptyTags(tm) ==> NoEmptyTags(r)
  {
    map t | t in tm.Keys + (set x | x in tags) :: KeysOf(tm, t) + (if t in tags then {key} else {})
  }

  /** Attaching to no tag leaves the index as it is. */
  lemma AttachNothing<K>(tm: TagMap<K>, key: K)
    ensures Attach(tm, key, []) == tm
  {
    var r := Attach(tm, key, []);
    forall t | t in tm ensures r[t] == tm[t] {
      assert r[t] == tm[t] + {};
    }
    assert r.Keys == tm.Keys;
  }

  /** Attaching to one more tag updates just that tag's set. */
  lemma AttachSnoc<K>(tm: TagMap<K>, key: K, tags: seq<string>, t: string)
    ensures Attach(tm, key, tags + [t]) ==
              Attach(tm, key, tags)[t := KeysOf(Attach(tm, key, tags), t) + {key}]
  {
    var r := Attach(tm, key, tags);
    var lhs, rhs := Attach(tm, key, tags + [t]), r[t := KeysOf(r, t) + {key}];
    forall u | u in lhs ensures u in rhs && lhs[u] == rhs[u] {
      if u != t {
        assert u in tags + [t] <==> u in tags;
        assert lhs[u] == KeysOf(tm, u) + (if u in tags then {key} else {});
      } else {
        assert KeysOf(r, t) == KeysOf(tm, t) + (if t in tags then {key} else {});
      }
    }
    assert lhs.Keys == rhs.Keys;
  }

  /** `set`'s loop: attaching the first i + 1 tags is attaching the first i
      and then the next one. */
  lemma AttachStep<K>(tm: TagMap<K>, key: K, tags: seq<string>, i: nat)
    requires i < |tags|
    ensures Attach(tm, key, tags[..i + 1]) ==
              Attach(tm, key, tags[..i])[tags[i] := KeysOf(Attach(tm, key, tags[..i]), tags[i]) + {key}]
  {
    assert tags[..i + 1] == tags[..i] + [tags[i]];
    AttachSnoc(tm, key, tags[..i], tags[i]);
  }

  /** Deleting `keys` drops a tag exactly when some deleted key was in its
      set and nothing else was: an empty set is never touched. */
  predicate Emptied<K>(s: set<K>, keys: set<K>) {
    s != {} && s - keys == {}
  }

  /** The index after `keys` were removed from every tag's set, each tag
      whose set this empties being removed. */
  function Detach<K>(tm: TagMap<K>, keys: set<K>): (r: TagMap<K>)
    ensures forall t :: t in r ==> t in tm && r[t] == tm[t] - keys
    ensures forall t :: t in tm && t !in r ==> Emptied(tm[t], keys)
    ensures forall t, k :: k in keys ==> k !in KeysOf(r, t)
    ensures forall t, k :: k in KeysOf(tm, t) && k !in keys ==> k in KeysOf(r, t)
    ensures NoEmptyTags(tm) ==> NoEmptyTags(r)
  {
    map t | t in tm && !Emptied(tm[t], keys) :: tm[t] - keys
  }

  /** Read through `KeysOf`, detaching removes exactly the detached keys
      from every tag, whether or not the tag itself is dropped. */
  lemma DetachKeysOf<K>(tm: TagMap<K>, keys: set<K>, t: string)
    ensures KeysOf(Detach(tm, keys), t) == KeysOf(tm, t) - keys
  {
    if t in tm && t !in Detach(tm, keys) {
      assert Emptied(tm[t], keys);
    }
  }

  /** Detaching no key leaves the index as it is. */
  lemma DetachNothing<K>(tm: TagMap<K>)
    ensures Detach(tm, {}) == tm
  {
    var r := Detach(tm, {});
    forall t | t in tm ensures t in r && r[t] == tm[t] {
      assert tm[t] - {} == tm[t];
    }
    assert r.Keys == tm.Keys;
  }

  /** Detaching one batch of keys after another is detaching both at once,
      so `del` may handle its keys one at a time. */
  lemma DetachCompose<K>(tm: TagMap<K>, a: set<K>, b: set<K>)
    ensures Detach(Detach(tm, a), b) == Detach(tm, a + b)
  {
    var lhs, rhs := Detach(Detach(tm, a), b), Detach(tm, a + b);
    forall t | t in tm
      ensures t in lhs <==> t in rhs
      ensures t in lhs ==> lhs[t] == rhs[t]
    {
      assert tm[t] - a - b == tm[t] - (a + b);
    }
    assert lhs.Keys == rhs.Keys;
  }

  /** The keys a `del` call lists. */
  function Listed<K>(keys: seq<K>): set<K> {
    set k | k in keys
  }

  /** `del` handles its listed keys one after another. */
  lemma DetachStep<K>(tm: TagMap<K>, keys: seq<K>, i: nat)
    requires i < |keys|
    ensures Detach(Detach(tm, Listed(keys[..i])), {keys[i]}) == Detach(tm, Listed(keys[..i + 1]))
  {
    assert keys[..i + 1] == keys[..i] + [keys[i]];
    assert Listed(keys[..i + 1]) == Listed(keys[..i]) + {keys[i]};
    DetachCompose(tm, Listed(keys[..i]), {keys[i]});
  }

  /** The named tags the index holds, in their order: `tags.filter(...)`. */
  function Present<K>(tm: TagMap<K>, tags: seq<string>): (r: seq<string>)
    ensures forall t :: t in r <==> t in tags && t in tm
    ensures |r| <= |tags|
  {
    if tags == [] then []
    else (if tags[0] in tm then [tags[0]] else []) + Present(tm, tags[1..])
  }

  /** The keys held by every tag of a non-empty list. */
  function Common<K>(tm: TagMap<K>, ts: seq<string>): set<K>
    requires ts != []
  {
    set k | k in KeysOf(tm, ts[0]) && forall j :: 0 <= j < |ts| ==> k in KeysOf(tm, ts[j])
  }

  /** The common keys of the first tag alone are that tag's keys. */
  lemma CommonFirst<K>(tm: TagMap<K>, ts: seq<string>)
    requires ts != []
    ensures Common(tm, ts[..1]) == KeysOf(tm, ts[0])
  {
    assert ts[..1] == [ts[0]];
  }

  /** Adding one tag to the list narrows the common keys to that tag's. */
  lemma CommonSnoc<K>(tm: TagMap<K>, ts: seq<string>, t: string)
    requires ts != []
    ensures Common(tm, ts + [t]) == Common(tm, ts) * KeysOf(tm, t)
  {
    var lhs, rhs := Common(tm, ts + [t]), Common(tm, ts) * KeysOf(tm, t);
    forall k | k in rhs ensures k in lhs {
      forall j | 0 <= j < |ts + [t]| ensures k in KeysOf(tm, (ts + [t])[j]) {
        if j < |ts| { assert (ts + [t])[j] == ts[j]; }
      }
    }
    forall k | k in lhs ensures k in rhs {
      forall j | 0 <= j < |ts| ensures k in KeysOf(tm, ts[j]) {
        assert (ts + [t])[j] == ts[j];
      }
      assert (ts + [t])[|ts|] == t;
    }
  }

  /** The intersection loop: the first i + 1 tags share the keys the first
      i share and the next tag holds. */
  lemma CommonStep<K>(tm: TagMap<K>, ts: seq<string>, i: nat)
    requires 0 < i < |ts|
    ensures Common(tm, ts[..i + 1]) == Common(tm, ts[..i]) * KeysOf(tm, ts[i])
  {
    assert ts[..i + 1] == ts[..i] + [ts[i]];
    CommonSnoc(tm, ts[..i], ts[i]);
  }

  /** A longer list has no more common keys than its prefix. */
  lemma CommonPrefix<K>(tm: TagMap<K>, ts: seq<string>, i: nat)
    requires 0 < i <= |ts|
    ensures Common(tm, ts) <= Common(tm, ts[..i])
  {
    forall k | k in Common(tm, ts) ensures k in Common(tm, ts[..i]) {
      forall j | 0 <= j < i ensures k in KeysOf(tm, ts[..i][j]) {
        assert ts[..i][j] == ts[j];
      }
    }
  }

  /** The keys `invalidateTagsIntersection(tags)` deletes: those held by
      every named tag that the index holds; nothing when it holds none. */
  function IntersectionTargets<K>(tm: TagMap<K>, tags: seq<string>): set<K> {
    var present := Present(tm, tags);
    if present == [] then {} else Common(tm, present)
  }

  /** The keys `invalidateTagsUnion(tags)` deletes: those held by some named tag. */
  function UnionTargets<K>(tm: TagMap<K>, tags: seq<string>): set<K> {
    set t, k | t in tags && k in KeysOf(tm, t) :: k
  }

  /** A key is an intersection target exactly when the index holds at
      least one of the named tags and every named tag it holds lists the
      key; named tags the index lacks play no part. */
  lemma {:induction false} IntersectionTargetsSpec<K>(tm: TagMap<K>, tags: seq<string>, k: K)
    ensures k in IntersectionTargets(tm, tags) <==>
              (exists t :: t in tags && t in tm) &&
              (forall t :: t in tags && t in tm ==> k in tm[t])
  {
    var present := Present(tm, tags);
    if present == [] {
      assert forall t :: t in tags ==> t !in tm;
    } else {
      assert present[0] in tags && present[0] in tm;
      if k in Common(tm, present) {
        forall t | t in tags && t in tm ensures k in tm[t] {
          assert t in present;
          var j :| 0 <= j < |present| && present[j] == t;
          assert k in KeysOf(tm, present[j]);
        }
      }
      if forall t :: t in tags && t in tm ==> k in tm[t] {
        forall j | 0 <= j < |present| ensures k in KeysOf(tm, present[j]) {
          assert present[j] in present;
        }
      }
    }
  }

  /** The union loop: the first i + 1 tags hold the keys the first i hold
      and those of the next tag. */
  lemma UnionTargetsStep<K>(tm: TagMap<K>, tags: seq<string>, i: nat)
    requires i < |tags|
    ensures UnionTargets(tm, tags[..i + 1]) == UnionTargets(tm, tags[..i]) + KeysOf(tm, tags[i])
  {
    assert tags[..i + 1] == tags[..i] + [tags[i]];
    UnionTargetsSnoc(tm, tags[..i], tags[i]);
  }

  /** Adding one tag to the list adds that tag's keys to the union. */
  lemma UnionTargetsSnoc<K>(tm: TagMap<K>, tags: seq<string>, t: string)
    ensures UnionTargets(tm, tags + [t]) == UnionTargets(tm, tags) + KeysOf(tm, t)
  {
    var lhs, rhs := UnionTargets(tm, tags + [t]), UnionTargets(tm, tags) + KeysOf(tm, t);
    forall k | k in lhs ensures k in rhs {
      var u :| u in tags + [t] && k in KeysOf(tm, u);
      if u != t { assert u in tags; }
    }
    forall k | k in rhs ensures k in lhs {
      if k in KeysOf(tm, t) {
        assert t in tags + [t];
      } else {
        var u :| u in tags && k in KeysOf(tm, u);
        assert u in tags + [t];
      }
    }
  }
}
