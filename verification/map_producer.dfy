/** The map producer of the Hazelcast component: it reads the operation and
    its arguments from an exchange's headers, performs exactly one call on the
    cache it is bound to, writes any answer to the out message, and finally
    copies the headers over. */
module MapProducer {
  import opened Objects
  import MapContract

  /** Header names shared by the Hazelcast producers. */
  const OBJECT_ID: string := "CamelHazelcastObjectId"
  const OBJECT_VALUE: string := "CamelHazelcastObjectValue"
  const QUERY: string := "CamelHazelcastQuery"
  const OPERATION: string := "CamelHazelcastOperationType"

  /** The operation code, already decoded from the OPERATION header; `Other`
      keeps a code that names no map operation. */
  datatype Operation =
    | Put | Get | GetAll | Delete | Update | Query | Replace | Clear
    | Other(code: int)

  /** The exceptions `process` can raise. */
  datatype Failure =
    /** `IllegalArgumentException`: the code is not a map operation; carries
        the code and the header it was read from */
    | IllegalArgument(code: int, parameter: string)
    /** `ClassCastException`: a header does not have the type the producer
        casts it to */
    | ClassCast(value: Obj)

  datatype Outcome = Done | Failed(failure: Failure)

  datatype Result<+T> = Ok(value: T) | Err(failure: Failure)

  /** One call on the cache, with its arguments. */
  datatype Call =
    | PutCall(key: Obj, value: Obj)
    | GetCall(key: Obj)
    | GetAllCall(keys: Obj)
    | RemoveCall(key: Obj)
    | LockCall(key: Obj)
    | ReplaceCall(key: Obj, value: Obj)
    | ReplaceIfCall(key: Obj, expected: Obj, value: Obj)
    | UnlockCall(key: Obj)
    | ValuesCall
    | ValuesWhereCall(query: string)
    | ClearCall

  /** The three optional arguments read from the headers: null when absent. */
  datatype Params = Params(oid: Obj, ovalue: Obj, query: Option<string>)

  /** What one `process` call does: its outcome, the cache afterwards, the
      out body it writes (`None`: not written) and the cache calls it makes. */
  datatype Step = Step(outcome: Outcome, cache: MapContract.Entries, outBody: Option<Obj>, calls: seq<Call>)

  /** The value of a header, or null when the header is absent. */
  function Header(headers: map<string, Obj>, name: string): (r: Obj)
    ensures name !in headers ==> r == Null
    ensures name in headers ==> r == headers[name]
  {
    if name in headers then headers[name] else Null
  }

  /** Reading the optional headers. Absence is never an error; the only
      failure is a QUERY header that is not a string. */
  function ReadParams(headers: map<string, Obj>): (r: Result<Params>)
    ensures r.Ok? <==> QUERY !in headers || headers[QUERY].Null? || headers[QUERY].Str?
    ensures r.Err? ==> r.failure == ClassCast(headers[QUERY])
    ensures r.Ok? && OBJECT_ID !in headers ==> r.value.oid == Null
    ensures r.Ok? && OBJECT_ID in headers ==> r.value.oid == headers[OBJECT_ID]
    ensures r.Ok? && OBJECT_VALUE !in headers ==> r.value.ovalue == Null
    ensures r.Ok? && OBJECT_VALUE in headers ==> r.value.ovalue == headers[OBJECT_VALUE]
    ensures r.Ok? ==> (r.value.query.Some? <==> QUERY in headers && headers[QUERY].Str?)
    ensures r.Ok? && r.value.query.Some? ==> headers[QUERY] == Str(r.value.query.value)
  {
    var oid := Header(headers, OBJECT_ID);
    var ovalue := Header(headers, OBJECT_VALUE);
    match Header(headers, QUERY)
    case Null => Ok(Params(oid, ovalue, None))
    case Str(s) => Ok(Params(oid, ovalue, Some(s)))
    case other => Err(ClassCast(other))
  }

  /** The key set a GET_ALL is asked for: OBJECT_ID cast to a set, where a
      null set asks for nothing. */
  function KeySet(oid: Obj): (r: Result<set<Obj>>)
    ensures r.Ok? <==> oid.SetOf? || oid.Null?
    ensures oid.SetOf? ==> r == Ok(oid.elems)
    ensures oid.Null? ==> r == Ok({})
    ensures r.Err? ==> r.failure == ClassCast(oid)
  {
    match oid
    case SetOf(keys) => Ok(keys)
    case Null => Ok({})
    case other => Err(ClassCast(other))
  }

  /** Whether a query string asks for a predicate scan (`isNotEmpty`). */
  predicate HasQuery(query: Option<string>)
    ensures HasQuery(query) <==> query.Some? && Trim(query.value) != ""
  {
    query.Some? && !Blank(query.value)
  }

  /** Reference definition of one `process` call on a cache holding `cache`,
      for an exchange with in headers `headers` and in body `body`;
      `sqlMatches` stands for Hazelcast's evaluation of a SQL predicate on an
      entry. */
  function Dispatch(op: Operation, headers: map<string, Obj>, body: Obj,
                    cache: MapContract.Entries, sqlMatches: (string, Obj, Obj) -> bool): (r: Step)
    // a failure is raised before any cache call and changes nothing
    ensures r.outcome.Failed? ==> r.cache == cache && r.outBody == None && r.calls == []
    // a successful dispatch makes at least one cache call
    ensures r.outcome.Done? ==> r.calls != []
    // the out body is written exactly by the reading operations
    ensures r.outBody.Some? <==> r.outcome.Done? && (op.Get? || op.GetAll? || op.Query?)
    // the reading operations leave the cache as it was
    ensures op.Get? || op.GetAll? || op.Query? ==> r.cache == cache
    // the keys after the call are the keys before it, plus OBJECT_ID for a put
    ensures r.cache.Keys <= cache.Keys + {Header(headers, OBJECT_ID)}
  {
    match ReadParams(headers)
    case Err(f) => Step(Failed(f), cache, None, [])
    case Ok(p) =>
      match op
      case Put =>
        Step(Done, MapContract.Put(cache, p.oid, body), None, [PutCall(p.oid, body)])
      case Get =>
        Step(Done, cache, Some(MapContract.Get(cache, p.oid)), [GetCall(p.oid)])
      case GetAll =>
        (match KeySet(p.oid)
         case Err(f) => Step(Failed(f), cache, None, [])
         case Ok(keys) =>
           Step(Done, cache, Some(MapOf(MapContract.GetAll(cache, keys))), [GetAllCall(p.oid)]))
      case Delete =>
        Step(Done, MapContract.Remove(cache, p.oid), None, [RemoveCall(p.oid)])
      case Update =>
        Step(Done, MapContract.Replace(cache, p.oid, body), None,
             [LockCall(p.oid), ReplaceCall(p.oid, body), UnlockCall(p.oid)])
      case Query =>
        if HasQuery(p.query) then
          var q := p.query.value;
          Step(Done, cache, Some(ValuesOf(MapContract.Select(cache, (k, v) => sqlMatches(q, k, v)))),
               [ValuesWhereCall(q)])
        else
          Step(Done, cache, Some(ValuesOf(cache)), [ValuesCall])
      case Replace =>
        if IsEmpty(p.ovalue) then
          Step(Done, MapContract.Replace(cache, p.oid, body), None, [ReplaceCall(p.oid, body)])
        else
          Step(Done, MapContract.ReplaceIf(cache, p.oid, p.ovalue, body), None,
               [ReplaceIfCall(p.oid, p.ovalue, body)])
      case Clear =>
        Step(Done, map[], None, [ClearCall])
      case Other(code) =>
        Step(Failed(IllegalArgument(code, OPERATION)), cache, None, [])
  }

  /** The message being processed. Only the out body and the record of header
      copies change. */
  class Exchange {
    const inHeaders: map<string, Obj>
    const inBody: Obj
    /** the body of the out message; `None` until something sets it */
    var outBody: Option<Obj>
    /** how many times the headers were copied to the out message */
    ghost var headerCopies: nat

    constructor (headers: map<string, Obj>, body: Obj)
      ensures inHeaders == headers && inBody == body
      ensures outBody == None && headerCopies == 0
    {
      inHeaders, inBody := headers, body;
      outBody := None;
      headerCopies := 0;
    }

    /** `HazelcastComponentHelper.copyHeaders`: only the fact of the copy is
        recorded. */
    method CopyHeaders()
      modifies this
      ensures headerCopies == old(headerCopies) + 1
      ensures outBody == old(outBody)
    {
      headerCopies := headerCopies + 1;
    }

    method SetOutBody(body: Obj)
      modifies this
      ensures outBody == Some(body)
      ensures headerCopies == old(headerCopies)
    {
      outBody := Some(body);
    }
  }

  /** The producer, bound to one cache for its whole life. */
  class HazelcastMapProducer {
    /** the entries of the cache */
    var cache: MapContract.Entries
    /** Hazelcast's evaluation of a SQL predicate on an entry */
    const sqlMatches: (string, Obj, Obj) -> bool
    /** the keys locked through this producer, with their reentrant counts */
    ghost var locks: multiset<Obj>
    /** every cache call made so far, in order */
    ghost var calls: seq<Call>

    constructor (initial: MapContract.Entries, matches: (string, Obj, Obj) -> bool)
      ensures cache == initial && sqlMatches == matches
      ensures locks == multiset{} && calls == []
    {
      cache, sqlMatches := initial, matches;
      locks, calls := multiset{}, [];
    }

    /** Performs the operation `op` (the decoded OPERATION header) on the
        cache for `exchange`. */
    method Process(exchange: Exchange, op: Operation) returns (r: Outcome)
      modifies this, exchange
      ensures var step := Dispatch(op, exchange.inHeaders, exchange.inBody, old(cache), sqlMatches);
              && r == step.outcome
              && cache == step.cache
              && calls == old(calls) + step.calls
              && exchange.outBody == (if step.outBody.Some? then step.outBody else old(exchange.outBody))
      ensures locks == old(locks)
      // the headers are copied once after a successful dispatch, never after a failure
      ensures exchange.headerCopies == old(exchange.headerCopies) + (if r.Done? then 1 else 0)
    {
      var headers := exchange.inHeaders;
      var oid, ovalue, query := Null, Null, None;
      if OBJECT_ID in headers {
        oid := headers[OBJECT_ID];
      }
      if OBJECT_VALUE in headers {
        ovalue := headers[OBJECT_VALUE];
      }
      if QUERY in headers {
        match headers[QUERY] {
          case Null => query := None;
          case Str(s) => query := Some(s);
          case other => return Failed(ClassCast(other));
        }
      }
      match op {
        case Put => PutEntry(oid, exchange);
        case Get => GetEntry(oid, exchange);
        case GetAll =>
          r := GetAllEntries(oid, exchange);
          if r.Failed? {
            return;
          }
        case Delete => DeleteEntry(oid);
        case Update => UpdateEntry(oid, exchange);
        case Query => QueryValues(query, exchange);
        case Replace =>
          if IsEmpty(ovalue) {
            ReplaceEntry(oid, exchange);
          } else {
            ReplaceEntryIf(oid, ovalue, exchange);
          }
        case Clear => ClearEntries();
        case Other(code) => return Failed(IllegalArgument(code, OPERATION));
      }
      exchange.CopyHeaders();
      r := Done;
    }

    /** QUERY: the values of the entries the query accepts, or of all entries
        when the query is null or blank. */
    method QueryValues(query: Option<string>, exchange: Exchange)
      modifies this, exchange
      ensures cache == old(cache) && locks == old(locks)
      ensures HasQuery(query) ==>
        var q := query.value;
        && exchange.outBody == Some(ValuesOf(MapContract.Select(cache, (k, v) => sqlMatches(q, k, v))))
        && calls == old(calls) + [ValuesWhereCall(q)]
      ensures !HasQuery(query) ==>
        exchange.outBody == Some(ValuesOf(cache)) && calls == old(calls) + [ValuesCall]
      ensures exchange.headerCopies == old(exchange.headerCopies)
    {
      var result;
      if HasQuery(query) {
        var q := query.value;
        result := ValuesOf(MapContract.Select(cache, (k, v) => sqlMatches(q, k, v)));
        calls := calls + [ValuesWhereCall(q)];
      } else {
        result := ValuesOf(cache);
        calls := calls + [ValuesCall];
      }
      exchange.SetOutBody(result);
    }

    /** UPDATE: lock the key, replace its value, unlock it. */
    method UpdateEntry(oid: Obj, exchange: Exchange)
      modifies this
      ensures cache == MapContract.Replace(old(cache), oid, exchange.inBody)
      ensures calls == old(calls) + [LockCall(oid), ReplaceCall(oid, exchange.inBody), UnlockCall(oid)]
      ensures locks == old(locks)
    {
      var body := exchange.inBody;
      Lock(oid);
      calls := calls + [ReplaceCall(oid, body)];
      cache := MapContract.Replace(cache, oid, body);
      Unlock(oid);
    }

    /** `lock(k)`: one more hold on `k`. */
    method Lock(k: Obj)
      modifies this
      ensures locks == old(locks) + multiset{k}
      ensures calls == old(calls) + [LockCall(k)]
      ensures cache == old(cache)
    {
      locks := locks + multiset{k};
      calls := calls + [LockCall(k)];
    }

    /** `unlock(k)`: one hold on `k` fewer; only a holder may unlock. */
    method Unlock(k: Obj)
      requires k in locks
      modifies this
      ensures locks == old(locks) - multiset{k}
      ensures calls == old(calls) + [UnlockCall(k)]
      ensures cache == old(cache)
    {
      locks := locks - multiset{k};
      calls := calls + [UnlockCall(k)];
    }

    /** DELETE: remove the key. */
    method DeleteEntry(oid: Obj)
      modifies this
      ensures cache == MapContract.Remove(old(cache), oid)
      ensures calls == old(calls) + [RemoveCall(oid)] && locks == old(locks)
    {
      cache := MapContract.Remove(cache, oid);
      calls := calls + [RemoveCall(oid)];
    }

    /** GET: the value of the key, or null, as the out body. */
    method GetEntry(oid: Obj, exchange: Exchange)
      modifies this, exchange
      ensures cache == old(cache) && locks == old(locks)
      ensures exchange.outBody == Some(MapContract.Get(cache, oid))
      ensures calls == old(calls) + [GetCall(oid)]
      ensures exchange.headerCopies == old(exchange.headerCopies)
    {
      calls := calls + [GetCall(oid)];
      exchange.SetOutBody(MapContract.Get(cache, oid));
    }

    /** GET_ALL: OBJECT_ID cast to a set of keys; the entries for those keys
        as the out body. A failed cast makes no cache call. */
    method GetAllEntries(oid: Obj, exchange: Exchange) returns (r: Outcome)
      modifies this, exchange
      ensures cache == old(cache) && locks == old(locks)
      ensures exchange.headerCopies == old(exchange.headerCopies)
      ensures KeySet(oid).Err? ==>
        && r == Failed(KeySet(oid).failure)
        && calls == old(calls) && exchange.outBody == old(exchange.outBody)
      ensures KeySet(oid).Ok? ==>
        && r == Done
        && exchange.outBody == Some(MapOf(MapContract.GetAll(cache, KeySet(oid).value)))
        && calls == old(calls) + [GetAllCall(oid)]
    {
      var keys: set<Obj>;
      match oid {
        case SetOf(s) => keys := s;
        case Null => keys := {};
        case other => return Failed(ClassCast(other));
      }
      calls := calls + [GetAllCall(oid)];
      exchange.SetOutBody(MapOf(MapContract.GetAll(cache, keys)));
      r := Done;
    }

    /** PUT: map the key to the in body. */
    method PutEntry(oid: Obj, exchange: Exchange)
      modifies this
      ensures cache == MapContract.Put(old(cache), oid, exchange.inBody)
      ensures calls == old(calls) + [PutCall(oid, exchange.inBody)] && locks == old(locks)
    {
      var body := exchange.inBody;
      cache := MapContract.Put(cache, oid, body);
      calls := calls + [PutCall(oid, body)];
    }

    /** REPLACE without OBJECT_VALUE: map the key to the in body if it has a
        mapping already. */
    method ReplaceEntry(oid: Obj, exchange: Exchange)
      modifies this
      ensures cache == MapContract.Replace(old(cache), oid, exchange.inBody)
      ensures calls == old(calls) + [ReplaceCall(oid, exchange.inBody)] && locks == old(locks)
    {
      var body := exchange.inBody;
      cache := MapContract.Replace(cache, oid, body);
      calls := calls + [ReplaceCall(oid, body)];
    }

    /** REPLACE with OBJECT_VALUE: map the key to the in body only if it is
        mapped to OBJECT_VALUE now. */
    method ReplaceEntryIf(oid: Obj, ovalue: Obj, exchange: Exchange)
      modifies this
      ensures cache == MapContract.ReplaceIf(old(cache), oid, ovalue, exchange.inBody)
      ensures calls == old(calls) + [ReplaceIfCall(oid, ovalue, exchange.inBody)] && locks == old(locks)
    {
      var body := exchange.inBody;
      cache := MapContract.ReplaceIf(cache, oid, ovalue, body);
      calls := calls + [ReplaceIfCall(oid, ovalue, body)];
    }

    /** CLEAR: remove every entry. */
    method ClearEntries()
      modifies this
      ensures cache == map[]
      ensures calls == old(calls) + [ClearCall] && locks == old(locks)
    {
      cache := map[];
      calls := calls + [ClearCall];
    }
  }
}
