/** What one or several `process` calls promise, stated over the reference
    definition `Dispatch` (which `HazelcastMapProducer.Process` is proved to
    follow). */
module ProducerProperties {
  import opened Objects
  import MapContract
  import opened MapProducer

  /** With well-typed headers, the operation code is the only thing that can
      make `process` fail: every known code succeeds, even when OBJECT_ID,
      OBJECT_VALUE or QUERY is missing. */
  lemma OnlyOperationCodeFails(op: Operation, headers: map<string, Obj>, body: Obj,
                               cache: MapContract.Entries, sqlMatches: (string, Obj, Obj) -> bool)
    requires ReadParams(headers).Ok?
    requires op.GetAll? ==> KeySet(Header(headers, OBJECT_ID)).Ok?
    ensures Dispatch(op, headers, body, cache, sqlMatches).outcome.Failed? <==> op.Other?
  {
  }

  /** A code outside the map operations raises `IllegalArgumentException`
      naming the code and the OPERATION header, with nothing changed. */
  lemma UnknownOperationRejected(code: int, headers: map<string, Obj>, body: Obj,
                                 cache: MapContract.Entries, sqlMatches: (string, Obj, Obj) -> bool)
    requires ReadParams(headers).Ok?
    ensures var r := Dispatch(Other(code), headers, body, cache, sqlMatches);
            && r.outcome == Failed(IllegalArgument(code, OPERATION))
            && r.cache == cache && r.outBody == None && r.calls == []
  {
  }

  /** PUT maps OBJECT_ID to the in body, keeps every other entry and writes
      no out body. */
  lemma PutStoresBody(headers: map<string, Obj>, body: Obj,
                      cache: MapContract.Entries, sqlMatches: (string, Obj, Obj) -> bool)
    requires ReadParams(headers).Ok?
    ensures var oid := Header(headers, OBJECT_ID);
            var r := Dispatch(Put, headers, body, cache, sqlMatches);
            && r.outcome == Done && r.outBody == None
            && r.calls == [PutCall(oid, body)]
            && oid in r.cache && r.cache[oid] == body
            && (forall k :: k != oid ==> (k in r.cache <==> k in cache))
            && (forall k :: k in cache && k != oid ==> r.cache[k] == cache[k])
  {
  }

  /** GET answers the value of OBJECT_ID, or null when it has no mapping,
      and leaves the cache alone. */
  lemma GetAnswersEntry(headers: map<string, Obj>, body: Obj,
                        cache: MapContract.Entries, sqlMatches: (string, Obj, Obj) -> bool)
    requires ReadParams(headers).Ok?
    ensures var oid := Header(headers, OBJECT_ID);
            var r := Dispatch(Get, headers, body, cache, sqlMatches);
            && r.outcome == Done && r.cache == cache
            && r.calls == [GetCall(oid)]
            && (oid in cache ==> r.outBody == Some(cache[oid]))
            && (oid !in cache ==> r.outBody == Some(Null))
  {
  }

  /** GET_ALL answers the entries of the requested keys, leaving out the
      keys that have no mapping, and leaves the cache alone. */
  lemma GetAllAnswersRequestedEntries(keys: set<Obj>, headers: map<string, Obj>, body: Obj,
                                      cache: MapContract.Entries, sqlMatches: (string, Obj, Obj) -> bool)
    requires ReadParams(headers).Ok? && Header(headers, OBJECT_ID) == SetOf(keys)
    ensures var r := Dispatch(GetAll, headers, body, cache, sqlMatches);
            && r.outcome == Done && r.cache == cache
            && r.calls == [GetAllCall(SetOf(keys))]
            && r.outBody.Some? && r.outBody.value.MapOf?
            && r.outBody.value.entries.Keys == keys * cache.Keys
            && (forall k :: k in r.outBody.value.entries ==> r.outBody.value.entries[k] == cache[k])
  {
  }

  /** GET_ALL with an OBJECT_ID that is neither a set nor null fails on the
      cast, before any cache call. */
  lemma GetAllRejectsNonSet(headers: map<string, Obj>, body: Obj,
                            cache: MapContract.Entries, sqlMatches: (string, Obj, Obj) -> bool)
    requires ReadParams(headers).Ok?
    requires !Header(headers, OBJECT_ID).SetOf? && !Header(headers, OBJECT_ID).Null?
    ensures var r := Dispatch(GetAll, headers, body, cache, sqlMatches);
            r.outcome == Failed(ClassCast(Header(headers, OBJECT_ID))) && r.calls == []
  {
  }

  /** DELETE removes OBJECT_ID and keeps every other entry; a second DELETE
      of the same key changes nothing more. */
  lemma DeleteIdempotent(headers: map<string, Obj>, body: Obj,
                         cache: MapContract.Entries, sqlMatches: (string, Obj, Obj) -> bool)
    requires ReadParams(headers).Ok?
    ensures var oid := Header(headers, OBJECT_ID);
            var first := Dispatch(Delete, headers, body, cache, sqlMatches);
            var once := first.cache;
            var twice := Dispatch(Delete, headers, body, once, sqlMatches).cache;
            && first.outcome == Done && first.outBody == None
            && first.calls == [RemoveCall(oid)]
            && once.Keys == cache.Keys - {oid}
            && (forall k :: k in once ==> once[k] == cache[k])
            && twice == once
            && (oid !in cache ==> once == cache)
  {
  }

  /** REPLACE with an empty OBJECT_VALUE never adds a key: it sets OBJECT_ID
      to the in body only when the key has a mapping already. */
  lemma ReplaceNeverInserts(headers: map<string, Obj>, body: Obj,
                            cache: MapContract.Entries, sqlMatches: (string, Obj, Obj) -> bool)
    requires ReadParams(headers).Ok? && IsEmpty(Header(headers, OBJECT_VALUE))
    ensures var oid := Header(headers, OBJECT_ID);
            var r := Dispatch(Replace, headers, body, cache, sqlMatches);
            && r.outcome == Done && r.outBody == None
            && r.calls == [ReplaceCall(oid, body)]
            && r.cache.Keys == cache.Keys
            && (oid in cache ==> r.cache == cache[oid := body])
            && (oid !in cache ==> r.cache == cache)
  {
  }

  /** REPLACE with a non-empty OBJECT_VALUE is a compare-and-set: the cache
      changes if and only if OBJECT_ID is mapped to OBJECT_VALUE and the in
      body differs from it; a mismatch raises no error. */
  lemma ConditionalReplaceOnlyOnMatch(headers: map<string, Obj>, body: Obj,
                                      cache: MapContract.Entries, sqlMatches: (string, Obj, Obj) -> bool)
    requires ReadParams(headers).Ok? && !IsEmpty(Header(headers, OBJECT_VALUE))
    ensures var oid := Header(headers, OBJECT_ID);
            var expected := Header(headers, OBJECT_VALUE);
            var r := Dispatch(Replace, headers, body, cache, sqlMatches);
            && r.outcome == Done && r.outBody == None
            && r.calls == [ReplaceIfCall(oid, expected, body)]
            && r.cache.Keys == cache.Keys
            && (r.cache != cache <==> oid in cache && cache[oid] == expected && body != expected)
            && (oid in cache && cache[oid] == expected ==> r.cache == cache[oid := body])
            && (!(oid in cache && cache[oid] == expected) ==> r.cache == cache)
  {
  }

  /** UPDATE locks OBJECT_ID, replaces it and unlocks it, in that order; its
      effect on the cache is that of an unconditional REPLACE. */
  lemma UpdateActsAsReplace(headers: map<string, Obj>, body: Obj,
                            cache: MapContract.Entries, sqlMatches: (string, Obj, Obj) -> bool)
    requires ReadParams(headers).Ok?
    ensures var oid := Header(headers, OBJECT_ID);
            var plain := headers - {OBJECT_VALUE};
            var r := Dispatch(Update, headers, body, cache, sqlMatches);
            && r.outcome == Done && r.outBody == None
            && r.calls == [LockCall(oid), ReplaceCall(oid, body), UnlockCall(oid)]
            && r.cache == Dispatch(Replace, plain, body, cache, sqlMatches).cache
  {
  }

  /** CLEAR leaves the cache empty. */
  lemma ClearEmpties(headers: map<string, Obj>, body: Obj,
                     cache: MapContract.Entries, sqlMatches: (string, Obj, Obj) -> bool)
    requires ReadParams(headers).Ok?
    ensures var r := Dispatch(Clear, headers, body, cache, sqlMatches);
            r.outcome == Done && r.cache == map[] && r.outBody == None && r.calls == [ClearCall]
  {
  }

  /** QUERY with a null or blank query answers every value of the cache, one
      per entry, and leaves the cache alone. */
  lemma QueryWithoutPredicateAnswersAllValues(headers: map<string, Obj>, body: Obj,
                                             cache: MapContract.Entries, sqlMatches: (string, Obj, Obj) -> bool)
    requires ReadParams(headers).Ok? && !HasQuery(ReadParams(headers).value.query)
    ensures var r := Dispatch(Query, headers, body, cache, sqlMatches);
            && r.outcome == Done && r.cache == cache && r.calls == [ValuesCall]
            && r.outBody == Some(ValuesOf(cache))
            && |MapContract.ValueBag(r.outBody.value.entries)| == |cache|
            && (forall v :: MapContract.ValueBag(r.outBody.value.entries)[v] == |MapContract.KeysOf(cache, v)|)
            && (forall v :: v in MapContract.ValueBag(r.outBody.value.entries) <==> v in cache.Values)
  {
  }

  /** QUERY with a non-blank query answers the values of exactly the entries
      the predicate accepts. */
  lemma QueryWithPredicateFilters(headers: map<string, Obj>, body: Obj,
                                  cache: MapContract.Entries, sqlMatches: (string, Obj, Obj) -> bool)
    requires ReadParams(headers).Ok? && HasQuery(ReadParams(headers).value.query)
    ensures var q := ReadParams(headers).value.query.value;
            var r := Dispatch(Query, headers, body, cache, sqlMatches);
            && r.outcome == Done && r.cache == cache && r.calls == [ValuesWhereCall(q)]
            && r.outBody.Some? && r.outBody.value.ValuesOf?
            && r.outBody.value.entries.Keys <= cache.Keys
            && (forall k :: k in cache ==> (k in r.outBody.value.entries <==> sqlMatches(q, k, cache[k])))
            && (forall k :: k in r.outBody.value.entries ==> r.outBody.value.entries[k] == cache[k])
  {
  }

  /** A query the predicate accepts for every entry answers the same values
      as no query at all: `values(predicate)` then coincides with `values()`. */
  lemma QueryAcceptingAllAnswersAllValues(headers: map<string, Obj>, body: Obj,
                                          cache: MapContract.Entries, sqlMatches: (string, Obj, Obj) -> bool)
    requires ReadParams(headers).Ok? && HasQuery(ReadParams(headers).value.query)
    requires forall k :: k in cache ==> sqlMatches(ReadParams(headers).value.query.value, k, cache[k])
    ensures var r := Dispatch(Query, headers, body, cache, sqlMatches);
            r.outBody == Dispatch(Query, headers - {QUERY}, body, cache, sqlMatches).outBody
            && r.outBody == Some(ValuesOf(cache))
  {
    var q := ReadParams(headers).value.query.value;
    MapContract.SelectEverything(cache, (k, v) => sqlMatches(q, k, v));
  }

  /** A PUT followed by a GET of the same key answers the body that was put. */
  lemma PutThenGet(headers: map<string, Obj>, body: Obj, other: Obj,
                   cache: MapContract.Entries, sqlMatches: (string, Obj, Obj) -> bool)
    requires ReadParams(headers).Ok?
    ensures var put := Dispatch(Put, headers, body, cache, sqlMatches);
            Dispatch(Get, headers, other, put.cache, sqlMatches).outBody == Some(body)
  {
  }

  /** The same sequence against the producer object: a PUT of "v1" under
      "k1" followed by a GET of "k1" leaves "v1" as the second out body. */
  method PutThenGetScenario(sqlMatches: (string, Obj, Obj) -> bool) returns (answer: Option<Obj>)
    ensures answer == Some(Str("v1"))
  {
    var producer := new HazelcastMapProducer(map[], sqlMatches);
    var putExchange := new Exchange(map[OBJECT_ID := Str("k1")], Str("v1"));
    var putOutcome := producer.Process(putExchange, Put);
    var getExchange := new Exchange(map[OBJECT_ID := Str("k1")], Null);
    var getOutcome := producer.Process(getExchange, Get);
    answer := getExchange.outBody;
  }
  /** GET_ALL of {"a", "c"} on a cache holding a, b and c answers just the
      entries of a and c. */
  method GetAllScenario(sqlMatches: (string, Obj, Obj) -> bool) returns (answer: Option<Obj>)
    ensures answer == Some(MapOf(map[Str("a") := Num(1), Str("c") := Num(3)]))
  {
    var initial := map[Str("a") := Num(1), Str("b") := Num(2), Str("c") := Num(3)];
    var producer := new HazelcastMapProducer(initial, sqlMatches);
    var exchange := new Exchange(map[OBJECT_ID := SetOf({Str("a"), Str("c")})], Null);
    var outcome := producer.Process(exchange, GetAll);
    answer := exchange.outBody;
    assert answer.value.entries == map[Str("a") := Num(1), Str("c") := Num(3)];
  }

  /** A conditional REPLACE of "k" with "new" succeeds when "k" holds "old"
      and OBJECT_VALUE is "old". */
  method ConditionalReplaceHitScenario(sqlMatches: (string, Obj, Obj) -> bool)
    returns (matched: MapContract.Entries, outcome: Outcome)
    ensures matched == map[Str("k") := Str("new")] && outcome == Done
  {
    var producer := new HazelcastMapProducer(map[Str("k") := Str("old")], sqlMatches);
    var exchange := new Exchange(map[OBJECT_ID := Str("k"), OBJECT_VALUE := Str("old")], Str("new"));
    assert !IsEmpty(Str("old")) by { assert "old"[0] == 'o'; }
    outcome := producer.Process(exchange, Replace);
    matched := producer.cache;
  }

  /** The same conditional REPLACE silently changes nothing when OBJECT_VALUE
      is "wrong": it still succeeds and writes no out body. */
  method ConditionalReplaceMissScenario(sqlMatches: (string, Obj, Obj) -> bool)
    returns (mismatched: MapContract.Entries, outcome: Outcome, answer: Option<Obj>)
    ensures mismatched == map[Str("k") := Str("old")]
    ensures outcome == Done && answer == None
  {
    var producer := new HazelcastMapProducer(map[Str("k") := Str("old")], sqlMatches);
    var exchange := new Exchange(map[OBJECT_ID := Str("k"), OBJECT_VALUE := Str("wrong")], Str("new"));
    assert !IsEmpty(Str("wrong")) by { assert "wrong"[0] == 'w'; }
    outcome := producer.Process(exchange, Replace);
    mismatched := producer.cache;
    answer := exchange.outBody;
  }

  /** An unknown code fails and leaves the cache and the out body as they
      were. */
  method UnknownOperationScenario(sqlMatches: (string, Obj, Obj) -> bool)
    returns (outcome: Outcome, after: MapContract.Entries, answer: Option<Obj>)
    ensures outcome == Failed(IllegalArgument(99999, OPERATION))
    ensures after == map[Str("k") := Str("v")] && answer == None
  {
    var producer := new HazelcastMapProducer(map[Str("k") := Str("v")], sqlMatches);
    var exchange := new Exchange(map[], Null);
    outcome := producer.Process(exchange, Other(99999));
    after := producer.cache;
    answer := exchange.outBody;
  }
}
