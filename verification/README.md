# Hazelcast map producer, modelled in Dafny

This project models the map producer of Apache Camel's Hazelcast component
(`HazelcastMapProducer`). For each exchange, the producer:

1. reads three optional headers: OBJECT_ID, OBJECT_VALUE and QUERY;
2. takes the decoded operation code;
3. performs exactly one operation on the cache it is bound to. The operations
   are put, get, get-all, delete, update (lock, replace, unlock), query,
   replace (unconditional or compare-and-set) and clear;
4. writes any answer to the out message;
5. copies the headers over, but only when the dispatch succeeded.

A code that names no map operation raises `IllegalArgumentException` from the
`default` branch, before any cache call.

Files:

- `objects.dfy` (module `Objects`): the Java objects the producer handles.
  Header values, bodies, keys and values are all one datatype, `Obj`. Null is
  a value of it. `Trim` is `String.trim()` and `IsEmpty` is Camel's
  `ObjectHelper.isEmpty`.
- `map_contract.dfy` (module `MapContract`): the effect of each cache call over
  a `map<Obj, Obj>`, as the `java.util.Map` and `ConcurrentMap` contracts
  define it. `ValueBag` gives the collection that `values()` returns.
- `map_producer.dfy` (module `MapProducer`) holds three things:
  - `Dispatch`, a reference definition of one `process` call;
  - the class `Exchange`, whose out body is set in place;
  - the class `HazelcastMapProducer`. It holds the cache entries as a `map`
    field, a ghost multiset of held locks and a ghost trace of cache calls.
    Its method `Process` and the private handlers are proved to follow
    `Dispatch` and the `MapContract` functions.
- `producer_properties.dfy` (module `ProducerProperties`): lemmas about one or
  several dispatches. It also has scenario methods that use only the contracts
  of `HazelcastMapProducer`.

Behaviour of the code that the model keeps:

- The cast of the QUERY header to `String` happens while the headers are read
  (line 60), before the operation code is looked at. A QUERY header that is
  neither null nor a string therefore makes every operation fail with
  `ClassCastException`, even an unknown one. Apart from that cast and the cast
  of OBJECT_ID to a set for GET_ALL (line 153), the operation code is the only
  thing that can fail.
- Headers are copied only after a successful dispatch (line 107). An exception
  from the `default` branch or a cast skips the copy.
- UPDATE calls `lock`, `replace` and `unlock` as three plain statements
  (lines 129-131). There is no `try`/`finally`, so the source releases the lock
  only when `replace` returns normally. The model's cache calls never fail, so
  it states the release only for that normal path. It says nothing about a
  failing `replace`.
- REPLACE takes the compare-and-set branch whenever OBJECT_VALUE is not empty
  in the sense of `ObjectHelper.isEmpty`. So a blank string or an empty
  collection given as OBJECT_VALUE selects the unconditional replace.

## Model

| member | source | states |
|---|---|---|
| `MapProducer.HazelcastMapProducer.Process` | components/camel-hazelcast/src/main/java/org/apache/camel/component/hazelcast/map/HazelcastMapProducer.java:42-109 | The outcome, the new cache, the cache calls made and the out body are exactly those `Dispatch` gives for the exchange's headers and body; the out body is kept when nothing is written; locks held before are held after; the headers are copied exactly once on success and never on failure |
| `MapProducer.ReadParams` | components/camel-hazelcast/src/main/java/org/apache/camel/component/hazelcast/map/HazelcastMapProducer.java:44-61 | A missing OBJECT_ID, OBJECT_VALUE or QUERY header yields null and is no error; a present header yields its value; reading fails, with a class-cast failure carrying the value, if and only if QUERY is present and is neither null nor a string |
| `MapProducer.Dispatch` | components/camel-hazelcast/src/main/java/org/apache/camel/component/hazelcast/map/HazelcastMapProducer.java:63-104 | A failure happens before any cache call and changes neither the cache nor the out body; a success makes at least one cache call; the out body is written if and only if a GET, GET_ALL or QUERY succeeds; those three leave the cache unchanged; no key other than OBJECT_ID is ever added |
| `MapProducer.Header` | components/camel-hazelcast/src/main/java/org/apache/camel/component/hazelcast/map/HazelcastMapProducer.java:51-57 | An absent header reads as null; a present header reads as its value |
| `MapProducer.KeySet` | components/camel-hazelcast/src/main/java/org/apache/camel/component/hazelcast/map/HazelcastMapProducer.java:153 | The cast of OBJECT_ID to a key set succeeds if and only if it is a set or null; a set gives its elements, null gives no keys, anything else fails with a class-cast failure carrying the value |
| `MapProducer.HasQuery` | components/camel-hazelcast/src/main/java/org/apache/camel/component/hazelcast/map/HazelcastMapProducer.java:116 | A query asks for a predicate scan if and only if it is not null and `trim()` leaves something of it |
| `Objects.Blank` | components/camel-hazelcast/src/main/java/org/apache/camel/component/hazelcast/map/HazelcastMapProducer.java:116 | A string is blank if and only if `String.trim()` of it is the empty string |
| `Objects.IsEmpty` | components/camel-hazelcast/src/main/java/org/apache/camel/component/hazelcast/map/HazelcastMapProducer.java:91 | Null is empty and a number is not; a string is empty if and only if `trim()` empties it; a set, map or collection is empty if and only if it has no elements |
| `MapContract.Get` | components/camel-hazelcast/src/main/java/org/apache/camel/component/hazelcast/map/HazelcastMapProducer.java:145 | The answer is the value the key maps to, or null when the key has no mapping |
| `MapProducer.Exchange.SetOutBody` | components/camel-hazelcast/src/main/java/org/apache/camel/component/hazelcast/map/HazelcastMapProducer.java:145 | The out body becomes the given object and the header copies are unchanged; lines 121 and 153 set the out body the same way |
| `MapProducer.HazelcastMapProducer.constructor` | components/camel-hazelcast/src/main/java/org/apache/camel/component/hazelcast/map/HazelcastMapProducer.java:37-40 | The producer is bound to the given cache contents, with no locks held and no calls made |
| `MapProducer.HazelcastMapProducer.QueryValues` | components/camel-hazelcast/src/main/java/org/apache/camel/component/hazelcast/map/HazelcastMapProducer.java:114-122 | A non-blank query answers the values of the entries the SQL predicate accepts (one `values(predicate)` call); a null or blank query answers all values (one `values()` call); the cache is unchanged |
| `MapProducer.HazelcastMapProducer.UpdateEntry` | components/camel-hazelcast/src/main/java/org/apache/camel/component/hazelcast/map/HazelcastMapProducer.java:127-132 | Calls lock, replace and unlock on OBJECT_ID in that order; the cache becomes the unconditional replace of OBJECT_ID by the in body; the held locks afterwards are those held before |
| `MapProducer.HazelcastMapProducer.Lock` | components/camel-hazelcast/src/main/java/org/apache/camel/component/hazelcast/map/HazelcastMapProducer.java:129 | Adds one hold on the key and leaves the entries unchanged |
| `MapProducer.HazelcastMapProducer.Unlock` | components/camel-hazelcast/src/main/java/org/apache/camel/component/hazelcast/map/HazelcastMapProducer.java:131 | Removes one hold on a held key and leaves the entries unchanged |
| `MapProducer.HazelcastMapProducer.DeleteEntry` | components/camel-hazelcast/src/main/java/org/apache/camel/component/hazelcast/map/HazelcastMapProducer.java:137-139 | The cache becomes the old cache without OBJECT_ID, through one `remove` call |
| `MapProducer.HazelcastMapProducer.GetEntry` | components/camel-hazelcast/src/main/java/org/apache/camel/component/hazelcast/map/HazelcastMapProducer.java:144-146 | The out body becomes the value of OBJECT_ID, or null when it has no mapping; the cache is unchanged |
| `MapProducer.HazelcastMapProducer.GetAllEntries` | components/camel-hazelcast/src/main/java/org/apache/camel/component/hazelcast/map/HazelcastMapProducer.java:152-154 | When OBJECT_ID is a set (or null), the out body becomes the entries of the requested keys; otherwise the cast fails with no cache call and the out body is kept; the cache is unchanged either way |
| `MapProducer.HazelcastMapProducer.PutEntry` | components/camel-hazelcast/src/main/java/org/apache/camel/component/hazelcast/map/HazelcastMapProducer.java:159-162 | The cache becomes the old cache with OBJECT_ID mapped to the in body, through one `put` call |
| `MapProducer.HazelcastMapProducer.ReplaceEntry` | components/camel-hazelcast/src/main/java/org/apache/camel/component/hazelcast/map/HazelcastMapProducer.java:167-170 | The cache becomes the unconditional replace of OBJECT_ID by the in body, through one `replace(k, v)` call |
| `MapProducer.HazelcastMapProducer.ReplaceEntryIf` | components/camel-hazelcast/src/main/java/org/apache/camel/component/hazelcast/map/HazelcastMapProducer.java:175-178 | The cache becomes the compare-and-set of OBJECT_ID from OBJECT_VALUE to the in body, through one `replace(k, old, new)` call |
| `MapProducer.HazelcastMapProducer.ClearEntries` | components/camel-hazelcast/src/main/java/org/apache/camel/component/hazelcast/map/HazelcastMapProducer.java:183-185 | The cache is empty afterwards, after one `clear` call |
| `MapProducer.Exchange.CopyHeaders` | components/camel-hazelcast/src/main/java/org/apache/camel/component/hazelcast/map/HazelcastMapProducer.java:107 | Records one more header copy and leaves the out body unchanged |
| `MapContract.Put` | components/camel-hazelcast/src/main/java/org/apache/camel/component/hazelcast/map/HazelcastMapProducer.java:161 | Afterwards the key maps to the value; the keys are the old keys plus that key; every other entry is unchanged |
| `MapContract.Remove` | components/camel-hazelcast/src/main/java/org/apache/camel/component/hazelcast/map/HazelcastMapProducer.java:138 | The key loses its mapping and every other entry is kept; removing an absent key changes nothing |
| `MapContract.GetAll` | components/camel-hazelcast/src/main/java/org/apache/camel/component/hazelcast/map/HazelcastMapProducer.java:153 | The answer's keys are exactly the requested keys that have a mapping, each with its cached value |
| `MapContract.Replace` | components/camel-hazelcast/src/main/java/org/apache/camel/component/hazelcast/map/HazelcastMapProducer.java:169 | The key set never changes; a present key gets the new value; every other entry is unchanged |
| `MapContract.ReplaceIf` | components/camel-hazelcast/src/main/java/org/apache/camel/component/hazelcast/map/HazelcastMapProducer.java:177 | The key set never changes; a present key gets the new value exactly when it held the expected one, otherwise it keeps its value; every other entry is unchanged |
| `MapContract.Select` | components/camel-hazelcast/src/main/java/org/apache/camel/component/hazelcast/map/HazelcastMapProducer.java:117 | The selected entries are exactly the cached entries the predicate accepts, with their cached values |
| `MapContract.ValueBag` | components/camel-hazelcast/src/main/java/org/apache/camel/component/hazelcast/map/HazelcastMapProducer.java:119 | The collection of values has one element per entry; each value occurs in it exactly as many times as there are keys mapped to it; a value is in it if and only if some key maps to it |
| `MapContract.RemoveIdempotent` | components/camel-hazelcast/src/main/java/org/apache/camel/component/hazelcast/map/HazelcastMapProducer.java:137-139 | Removing a key twice is the same as removing it once |
| `MapContract.ReplaceIfChangesIff` | components/camel-hazelcast/src/main/java/org/apache/camel/component/hazelcast/map/HazelcastMapProducer.java:175-178 | A compare-and-set changes the map if and only if the key holds the expected value and the new value differs from it |
| `MapContract.SelectEverything` | components/camel-hazelcast/src/main/java/org/apache/camel/component/hazelcast/map/HazelcastMapProducer.java:114-120 | A predicate that accepts every entry selects the whole map |
| `ProducerProperties.OnlyOperationCodeFails` | components/camel-hazelcast/src/main/java/org/apache/camel/component/hazelcast/map/HazelcastMapProducer.java:47-104 | With well-typed headers, whether or not OBJECT_ID, OBJECT_VALUE and QUERY are present, a dispatch fails if and only if the operation code is unknown |
| `ProducerProperties.UnknownOperationRejected` | components/camel-hazelcast/src/main/java/org/apache/camel/component/hazelcast/map/HazelcastMapProducer.java:102-103 | An unknown code raises `IllegalArgumentException` naming the code and the OPERATION header; no cache call is made; cache and out body are unchanged |
| `ProducerProperties.PutStoresBody` | components/camel-hazelcast/src/main/java/org/apache/camel/component/hazelcast/map/HazelcastMapProducer.java:66-67 | After PUT, exactly one call `put(OBJECT_ID, body)` is made, OBJECT_ID maps to the in body, every other key and value is as before, and no out body is written |
| `ProducerProperties.GetAnswersEntry` | components/camel-hazelcast/src/main/java/org/apache/camel/component/hazelcast/map/HazelcastMapProducer.java:70-71 | GET makes exactly one call `get(OBJECT_ID)`, writes the value of OBJECT_ID, or null when it is absent, and leaves the cache unchanged |
| `ProducerProperties.GetAllAnswersRequestedEntries` | components/camel-hazelcast/src/main/java/org/apache/camel/component/hazelcast/map/HazelcastMapProducer.java:74-75 | GET_ALL makes exactly one call `getAll(OBJECT_ID)`, writes a map whose keys are the requested keys that have a mapping, with their cached values, and leaves the cache unchanged |
| `ProducerProperties.GetAllRejectsNonSet` | components/camel-hazelcast/src/main/java/org/apache/camel/component/hazelcast/map/HazelcastMapProducer.java:152-154 | GET_ALL whose OBJECT_ID is neither a set nor null fails the cast, with no cache call |
| `ProducerProperties.DeleteIdempotent` | components/camel-hazelcast/src/main/java/org/apache/camel/component/hazelcast/map/HazelcastMapProducer.java:78-79 | DELETE makes exactly one call `remove(OBJECT_ID)` and writes no out body; it removes OBJECT_ID and keeps every other entry; deleting an absent key changes nothing; a second DELETE of the same key leaves the cache as the first did |
| `ProducerProperties.ReplaceNeverInserts` | components/camel-hazelcast/src/main/java/org/apache/camel/component/hazelcast/map/HazelcastMapProducer.java:90-92 | REPLACE with an empty OBJECT_VALUE makes one unconditional `replace` call; it sets OBJECT_ID to the in body only when it is present and never adds a key |
| `ProducerProperties.ConditionalReplaceOnlyOnMatch` | components/camel-hazelcast/src/main/java/org/apache/camel/component/hazelcast/map/HazelcastMapProducer.java:90-96 | REPLACE with a non-empty OBJECT_VALUE makes one compare-and-set call and succeeds; the cache changes if and only if OBJECT_ID maps to OBJECT_VALUE and the in body differs; on a match the cache becomes the old cache with OBJECT_ID mapped to the in body, otherwise it is unchanged, and the key set is kept |
| `ProducerProperties.UpdateActsAsReplace` | components/camel-hazelcast/src/main/java/org/apache/camel/component/hazelcast/map/HazelcastMapProducer.java:82-83 | UPDATE calls lock, replace and unlock on OBJECT_ID in that order; its effect on the cache equals that of an unconditional REPLACE |
| `ProducerProperties.ClearEmpties` | components/camel-hazelcast/src/main/java/org/apache/camel/component/hazelcast/map/HazelcastMapProducer.java:98-99 | CLEAR empties the cache with one `clear` call and writes no out body |
| `ProducerProperties.QueryWithoutPredicateAnswersAllValues` | components/camel-hazelcast/src/main/java/org/apache/camel/component/hazelcast/map/HazelcastMapProducer.java:86-87 | QUERY with a null or blank query makes one `values()` call and writes every cached value, each as many times as keys map to it, with no other values; the cache is unchanged |
| `ProducerProperties.QueryWithPredicateFilters` | components/camel-hazelcast/src/main/java/org/apache/camel/component/hazelcast/map/HazelcastMapProducer.java:114-121 | QUERY with a non-blank query writes the values of exactly the entries the SQL predicate accepts, and leaves the cache unchanged |
| `ProducerProperties.QueryAcceptingAllAnswersAllValues` | components/camel-hazelcast/src/main/java/org/apache/camel/component/hazelcast/map/HazelcastMapProducer.java:114-120 | A query whose predicate accepts every entry answers the same out body as a QUERY without a query: every value of the cache |
| `ProducerProperties.PutThenGet` | components/camel-hazelcast/src/main/java/org/apache/camel/component/hazelcast/map/HazelcastMapProducer.java:66-71 | A GET after a PUT of the same key answers the body that was put |
| `ProducerProperties.PutThenGetScenario` | components/camel-hazelcast/src/main/java/org/apache/camel/component/hazelcast/map/HazelcastMapProducer.java:144-162 | On a producer object, a PUT of "v1" under "k1" and then a GET of "k1" leaves "v1" as the out body |
| `ProducerProperties.GetAllScenario` | components/camel-hazelcast/src/main/java/org/apache/camel/component/hazelcast/map/HazelcastMapProducer.java:152-154 | On a producer holding a, b and c, GET_ALL of {a, c} writes exactly the entries of a and c |
| `ProducerProperties.ConditionalReplaceHitScenario` | components/camel-hazelcast/src/main/java/org/apache/camel/component/hazelcast/map/HazelcastMapProducer.java:175-178 | A compare-and-set from "old" to "new" succeeds and stores "new" when "k" holds "old" |
| `ProducerProperties.ConditionalReplaceMissScenario` | components/camel-hazelcast/src/main/java/org/apache/camel/component/hazelcast/map/HazelcastMapProducer.java:175-178 | A compare-and-set from "wrong" leaves "old" in place, still succeeds and writes no out body |
| `ProducerProperties.UnknownOperationScenario` | components/camel-hazelcast/src/main/java/org/apache/camel/component/hazelcast/map/HazelcastMapProducer.java:102-103 | Code 99999 fails, naming the code and the OPERATION header; the cache and the out body are unchanged |

## Left out

- `lookupOperationNumber` (inherited from `HazelcastDefaultProducer`) and the numeric values of `HazelcastConstants` are not part of this model. `Process` takes the operation already decoded. `Other(code)` stands for any code the switch does not list.
- The header names (`CamelHazelcastObjectId`, `CamelHazelcastObjectValue`, `CamelHazelcastQuery`, `CamelHazelcastOperationType`) are Camel's published constants. `HazelcastConstants` itself is not part of this model.
- `ObjectHelper.isEmpty` is not part of this model. `Objects.IsEmpty` takes null, a string that `trim()` empties, and an empty set, map or collection as empty. This follows the Camel releases that check collections and maps; older releases check only null and strings.
- `HazelcastComponentHelper.copyHeaders` is not part of this model. Only the fact that it ran, and how many times, is recorded. The out message's headers are not modelled.
- The Hazelcast instance and the `getMap` lookup (lines 37-40) are left out. The constructor takes the cache's current entries.
- Evaluation of `SqlPredicate` is Hazelcast's own parser and is left out. It is a function parameter `sqlMatches(query, key, value)`. A malformed query, which Hazelcast rejects with an exception, is not modelled.
- Cluster-wide locking and concurrent callers are left out. Lock state is a ghost multiset of holds, reentrant as `IMap.lock` is.
- Failures of the cache calls themselves (network or cluster errors, and Hazelcast's `NullPointerException` for a null key or value) are left out. The cache admits null like a `java.util.Map` that permits it. So a missing OBJECT_ID is modelled as the key null.
- `MapProducer.HazelcastMapProducer.UpdateEntry`: states only the normal-return path. With no failing cache calls in the model, the source's missing `finally` (a failing `replace` leaves the key locked) is not exhibited.
- `getAll(null)` (GET_ALL with no OBJECT_ID) is modelled as asking for no keys, which answers an empty map. Hazelcast's own handling of a null key set is not part of this model.
- The values returned by `put`, `remove` and `replace` are ignored by the source and are not modelled.
- `values()` answers a collection. It is modelled as `ValuesOf(entries)`: the entries whose values make up that collection. `MapContract.ValueBag` gives its multiset of values. Its iteration order is not modelled.
- components/camel-scr/src/test/java/org/apache/camel/scr/AbstractCamelRunnerTest.java is not part of this model. It is a timing-driven lifecycle test of a different component.
