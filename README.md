# Tag-indexed cache engine (node-cache-plus `Cache`)

This project models the class `Cache` of node-cache-plus in Dafny. The class
extends node-cache, a key/value store whose entries expire. It wraps every
value as an entry `{ value, tags }` and keeps a secondary index, `tagMap`,
from each tag to the set of keys stored under it. With that index a caller can
invalidate every key under one tag, every key held by all of several tags
(intersection), or every key held by any of them (union).

The project has four modules:

- `TagIndex` (tag_index.dfy) is the algebra of the index. It defines how
  `set` attaches a key to tags (`Attach`) and how `del` detaches keys and
  prunes emptied tags (`Detach`). It also defines the key sets the
  intersection and union invalidations select (`IntersectionTargets`,
  `UnionTargets`).
- `CacheState` (cache_state.dfy) treats the cache as a value: the store is
  a `map<K, Entry<V>>` and the index a `map<string, set<K>>`. Each public
  operation is a function from the old state to the new one. The lemmas
  state what each operation promises, and that each one keeps the invariant
  `Consistent`: no tag has an empty key set, and every live entry is indexed
  under each of its tags.
- `CacheEngine` (cache_engine.dfy) holds the class `Cache`. Its fields
  `store` and `tagMap` are updated in place, and its loops follow the
  source's loops. Each public method that changes the cache is proved to
  move `Abstract()` as the matching `CacheState` function says, and to keep
  `Valid()`.
- `CacheExamples` (cache_examples.dfy) replays, as client methods, every
  test of src/tests/Cache.test.ts that exercises the modelled operations;
  the other tests are listed under "## Left out". Each scenario's
  postcondition is what its test observes.

Keys are a type `K` with equality and values a type `V`. Whether
node-cache's own `set` accepted an entry is an input (`accepted`).
An entry that leaves node-cache's store without going through `del` is the
explicit step `Expire`. It changes the store only.

Two behaviours of the code are easy to miss, and the model follows the code:

- Re-setting a key does not detach it from its old tags
  (`CacheState.StaleTagAfterReset`).
- `invalidateTagsIntersection` skips named tags the index does not hold.
  It does not treat them as empty sets (`TagIndex.IntersectionTargetsSpec`,
  `CacheExamples.NumberIntersection`).

So the invariant "every indexed key is live and carries the tag" does not
hold as written. The invariant that is proved is the converse one:
every live entry is indexed under each of its tags.

## Model

| member | source | states |
|---|---|---|
| CacheEngine.Cache.constructor | src/Cache.ts:10-13 | A new cache has an empty store and an empty index, and the invariant holds |
| CacheEngine.Cache.Set | src/Cache.ts:23-42 | Returns node-cache's answer; when accepted, the entry `{value, tags}` is written and the key is added to each tag's set, a set being created for a new tag; otherwise nothing changes; the invariant is kept |
| CacheEngine.Cache.MSet | src/Cache.ts:54-67 | `set` of every item in order, and the answer is always true |
| CacheEngine.Cache.Get | src/Cache.ts:74-77 | The value of the stored entry, or nothing when the key holds none |
| CacheEngine.Cache.MGet | src/Cache.ts:84-93 | The result holds exactly the listed keys whose `get` gives a value, each mapped to that value |
| CacheEngine.Cache.Del | src/Cache.ts:100-111 | The listed keys leave the store and every tag's set, and tags this empties are removed; answers how many listed keys the store held; the invariant is kept |
| CacheEngine.Cache.DetachKey | src/Cache.ts:103-109 | One pass over the index entries deletes the key from every tag's set and drops each tag whose set this empties; the store is untouched |
| CacheEngine.Cache.MDel | src/Cache.ts:118-120 | Same effect and answer as `del` on the listed keys |
| CacheEngine.Cache.Take | src/Cache.ts:127-134 | On a live key, returns its value and deletes it as `del` does; on an absent key, returns nothing and changes nothing |
| CacheEngine.Cache.InvalidateTag | src/Cache.ts:151-156 | Deletes every key the tag lists; an unknown tag is a no-op |
| CacheEngine.Narrowed | src/Cache.ts:183-185 | Walking a copy of the current key set and deleting each key the next tag lacks leaves exactly the keys both sets hold |
| CacheEngine.Cache.IntersectKeys | src/Cache.ts:177-188 | The loop over the present tags, with its early `break` once the set is empty, yields exactly the keys common to all present tags |
| CacheEngine.Cache.InvalidateTagsIntersection | src/Cache.ts:173-193 | Deletes exactly the intersection of the key sets of the named tags the index holds; no-op when it holds none of them or the intersection is empty |
| CacheEngine.Cache.InvalidateTagsUnion | src/Cache.ts:210-223 | Deletes exactly the union of the named tags' key sets; no-op when the union is empty |
| CacheEngine.Cache.FlushAll | src/Cache.ts:229-232 | Store and index are both empty afterwards |
| CacheEngine.Cache.GetTagMap | src/Cache.ts:238-241 | The index returned has no empty tag and lists every live entry under each of its tags |
| CacheEngine.Cache.Expire | src/Cache.ts:239 | An entry leaving the store without `del` changes the store only, and the invariant still holds |
| CacheEngine.ToSequence | src/Cache.ts:154 | `Array.from` of a set lists each member exactly once |
| TagIndex.Attach | src/Cache.ts:31-39 | The tags of the index are the old ones plus the new ones; the key is in each named tag's set; no membership is lost; no other key is added; no empty set appears |
| TagIndex.AttachNothing | src/Cache.ts:32-39 | Attaching to no tag leaves the index unchanged (the `set` loop before its first round) |
| TagIndex.AttachStep | src/Cache.ts:32-39 | One round of the `set` loop updates only the next tag's set, adding the key |
| TagIndex.AttachSnoc | src/Cache.ts:32-39 | Attaching to one more tag updates only that tag's set |
| TagIndex.Detach | src/Cache.ts:103-109 | Each kept tag loses exactly the detached keys; a tag is dropped only when this empties its set; detached keys are listed nowhere; other memberships stay; no empty set appears |
| TagIndex.DetachNothing | src/Cache.ts:103-109 | Detaching no key leaves the index unchanged |
| TagIndex.DetachCompose | src/Cache.ts:103-109 | Detaching one batch of keys and then another is the same as detaching both at once, so `del` may handle keys one by one |
| TagIndex.DetachKeysOf | src/Cache.ts:103-109 | Read through a tag, detaching removes exactly the detached keys, whether or not the tag is dropped |
| TagIndex.DetachStep | src/Cache.ts:103-109 | One round of `del`'s outer loop detaches the next listed key |
| TagIndex.Present | src/Cache.ts:174 | The filtered list holds exactly the named tags the index holds, and is no longer than the input |
| TagIndex.CommonFirst | src/Cache.ts:180-181 | The first present tag's key set starts the intersection |
| TagIndex.CommonSnoc | src/Cache.ts:182-185 | One more tag narrows the common keys to those that tag also holds |
| TagIndex.CommonStep | src/Cache.ts:182-185 | One round of the intersection loop narrows the common keys by the next tag |
| TagIndex.CommonPrefix | src/Cache.ts:187 | More tags never bring keys back, so stopping at an empty set loses nothing |
| TagIndex.IntersectionTargetsSpec | src/Cache.ts:173-193 | A key is targeted iff the index holds some named tag and every named tag it holds lists the key |
| TagIndex.UnionTargetsSnoc | src/Cache.ts:212-219 | One more tag adds exactly that tag's keys to the union |
| TagIndex.UnionTargetsStep | src/Cache.ts:212-219 | One round of the union loop adds the next tag's keys |
| CacheState.LookupAfterPut | src/Cache.ts:23-42 | After an accepted `set`, `get` of the key gives the new value and other keys are unaffected; a rejected `set` changes nothing |
| CacheState.PutIndexes | src/Cache.ts:31-39 | An accepted `set` adds the key to exactly the named tags' sets and removes no membership |
| CacheState.PutKeepsConsistent | src/Cache.ts:30-41 | `set` keeps the invariant |
| CacheState.PutAllKeepsConsistent | src/Cache.ts:62-64 | `mset` keeps the invariant |
| CacheState.LookupAfterPutAll | src/Cache.ts:62-64 | After `mset`, `get` of an accepted item's key gives its value unless a later accepted item reuses the key |
| CacheState.PutAllGrowsIndex | src/Cache.ts:62-64 | `mset` removes no membership from the index |
| CacheState.PutAllIndexes | src/Cache.ts:62-64 | After `mset`, each accepted item's key is indexed under each of its tags |
| CacheState.RemoveSpec | src/Cache.ts:100-111 | After `del`, listed keys are in neither the store nor any tag set; unlisted keys keep their entries and memberships |
| CacheState.RemovedCountSpec | src/Cache.ts:102 | The count `del` answers is how much the store shrank |
| CacheState.RemoveKeepsConsistent | src/Cache.ts:100-111 | `del` keeps the invariant |
| CacheState.TakeSpec | src/Cache.ts:127-134 | After `take` the key is not stored; a live key leaves every tag set and other keys read as before; an absent key changes nothing; the invariant is kept |
| CacheState.InvalidateTagSpec | src/Cache.ts:151-156 | The tag is gone afterwards; a key reads as absent iff the tag listed it, else as before; other memberships stay; an unknown tag changes nothing |
| CacheState.InvalidateIntersectionSpec | src/Cache.ts:173-193 | The targets are the keys held by every present named tag, when some named tag is present; targets read as absent, other keys as before and keep their memberships; no present tag means no change |
| CacheState.InvalidateUnionSpec | src/Cache.ts:210-223 | The targets are the keys some named tag holds; targets read as absent, other keys as before and keep their memberships |
| CacheState.ExpireKeepsConsistent | src/Cache.ts:239 | An entry leaving the store without `del` only shrinks the store, so the invariant holds, and the key reads as absent |
| CacheState.FlushSpec | src/Cache.ts:229-232 | After `flushAll` every key reads as absent and every tag's set is empty |
| CacheState.StaleTagAfterReset | src/Cache.ts:30-40 | Re-setting a key under another tag leaves it under the old tag, so invalidating the old tag still deletes it |
| CacheState.StaleKeyAfterExpire | src/Cache.ts:239 | After an entry leaves the store without `del`, its key reads as absent but is still listed under its tags |
| CacheExamples.ThreeKeys | src/tests/Cache.test.ts:124-126 | Setting key1/tag1, key2/tag2 and key3/both gives exactly those entries and tag sets |
| CacheExamples.TenKeys | src/tests/Cache.test.ts:12-21 | The ten `set` calls give exactly those ten entries |
| CacheExamples.SetGetScenario | src/tests/Cache.test.ts:11-30 | After the ten `set` calls, key0 to key6 each read back their value |
| CacheExamples.DeleteScenario | src/tests/Cache.test.ts:48-52 | An untagged key set and then deleted with `del` reads as absent |
| CacheExamples.TakeScenario | src/tests/Cache.test.ts:32-46 | The tag lists the key; `take` returns its value; the key then reads as absent and the tag is gone |
| CacheExamples.InvalidateTagScenario | src/tests/Cache.test.ts:54-62 | Invalidating tag1 deletes key1 and key3 and keeps key2 |
| CacheExamples.IntersectionScenario | src/tests/Cache.test.ts:64-72 | The intersection of tagA and tagB deletes key6 only |
| CacheExamples.UnionScenario | src/tests/Cache.test.ts:74-82 | The union of tagZ and tagY deletes all three keys |
| CacheExamples.FlushScenario | src/tests/Cache.test.ts:95-102 | After `flushAll` both keys read as absent and store and index are empty |
| CacheExamples.MSetScenario | src/tests/Cache.test.ts:110-121 | `mset` answers true and every item's value reads back |
| CacheExamples.MGetScenario | src/tests/Cache.test.ts:123-133 | `mget` answers all three keys with their values |
| CacheExamples.IntersectOneAndTwo | src/tests/Cache.test.ts:135-136 | The intersection of tag1 and tag2 deletes key3 and keeps key1 and key2 |
| CacheExamples.MGetAfterIntersectionScenario | src/tests/Cache.test.ts:135-142 | After that intersection `mget` answers key1 and key2 only |
| CacheExamples.MDelScenario | src/tests/Cache.test.ts:145-154 | `mdel` of key1 and key2 answers 2, deletes both and keeps key3 |
| CacheExamples.TagMapScenario | src/tests/Cache.test.ts:216-222 | The index lists key1 under tag1 and key2 under tag2 |
| CacheExamples.PutNumber | src/tests/Cache.test.ts:225-230 | One accepted `set` adds the key to the sets of exactly the tags it names among tag1, tag2, tagA and tagB |
| CacheExamples.FirstNumbers | src/tests/Cache.test.ts:225-227 | Keys 1 to 3 give exactly those entries, tag1 = {2} and tag2 = {3} |
| CacheExamples.NumberKeys | src/tests/Cache.test.ts:225-230 | Keys 1 to 6 give exactly those entries, tag1 = {2, 4}, tag2 = {3, 4}, tagA = {5} and tagB = {6} |
| CacheExamples.NumberDelOne | src/tests/Cache.test.ts:237 | `del(1)` answers 1, removes key 1 only and leaves the four tag sets as they were |
| CacheExamples.NumberInvalidateTag1 | src/tests/Cache.test.ts:240 | Invalidating tag1 deletes keys 2 and 4, drops tag1, and key 4 leaves tag2 |
| CacheExamples.NumberIntersection | src/tests/Cache.test.ts:245 | With tag1 absent, the intersection of tag1 and tag2 deletes tag2's key 3 only |
| CacheExamples.NumberUnion | src/tests/Cache.test.ts:251 | The union of tagA and tagB deletes keys 5 and 6 only |
| CacheExamples.NumberSetAndDel | src/tests/Cache.test.ts:225-238 | The four `get`s answer values 1 to 4; after `del(1)` key 1 reads as absent |
| CacheExamples.NumberFirstSteps | src/tests/Cache.test.ts:225-243 | After invalidating tag1, keys 2 and 4 read as absent and key 3 as value3 |
| CacheExamples.NumberKeysScenario | src/tests/Cache.test.ts:224-254 | Every `get` of the number-key test answers what the test expects, after each step |

## Left out

- CacheEngine.Cache.Expire: models an entry leaving the store without going through `del`. If node-cache's expiry calls the overridden `del`, the index is scrubbed exactly as `Del` does, and `Expire` is not that path.
- Time-to-live: `ttl`/`stdTTL` arguments, timers, `Date.now()` and node-cache's expiry sweep. The TTL tests (src/tests/Cache.test.ts:84-93, 156-172) are not replayed.
- node-cache's own operations and counters: `ttl`, `getTtl`, `has`, `keys`, `getStats`, `flushStats`, hits and misses. They are pass-throughs to a library that is not part of this model, so their tests (src/tests/Cache.test.ts:104-108, 174-214) are not replayed.
- When node-cache's `set` refuses an entry: this is the `accepted` input, and the model does not say why node-cache refuses.
- Value cloning in node-cache: a stored value is returned as it was stored.
- CacheEngine.Cache.Get: a stored value that is itself `undefined` reads as absent in the source, but as present here, because `Option` separates the two.
- CacheEngine.Cache.MGet: the JavaScript result object coerces keys to strings. The model returns a `map<K, V>` keyed by the keys themselves.
- String and number keys: node-cache coerces them to one another. Keys here are one type `K` with equality.
- CacheEngine.Cache.Del: the single-key form `del(key)` is modelled as `del([key])`, which is how the source normalises it.
- CacheEngine.Cache.GetTagMap: the source returns the live index object, so a caller could mutate it. The model returns the index as a value, so that aliasing is not captured.
- Iteration order of `Map`/`Set` in JavaScript: the loops visit tags and keys in some order. Every result proved here is independent of that order.
- src/helpers.ts (memoisation, hashing, key derivation), src/defaults.ts, src/index.ts and src/types.ts: they carry no cache-engine logic and are not part of this model.
- Concurrency: the source runs on one thread, and the model is sequential.
