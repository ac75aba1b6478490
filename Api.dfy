/** The API access layer: a time-boxed response cache keyed by endpoint,
    the classification of transport failures into `ApiError`s, and the
    four public wrappers that shape upstream JSON for the pages.

    The HTTP transport is an oracle: every call that reaches the network is
    given the outcome it would have produced (`Fetched`). The clock is given
    as two readings in milliseconds, one for the expiry check and one for
    the timestamp of a stored entry, because the source reads it twice. */
module Api {
  import opened JsValues

  // ---------------------------------------------------------------------
  // Transport outcomes and errors

  /** The response part of a rejected axios request. */
  datatype ErrorResponse = ErrorResponse(status: int, data: Value)

  /** An error object as axios rejects with it: its `name`, its optional
      `code`, its `message` and, for an HTTP failure, its `response`. */
  datatype TransportError = TransportError(
    name: string,
    code: Option<string>,
    message: string,
    response: Option<ErrorResponse>)

  /** What `axiosInstance.get(endpoint)` settles to. */
  datatype Fetched = Received(status: int, data: Value) | Rejected(error: TransportError)

  /** `ApiError(message, status, endpoint)`, whose `name` is "ApiError". */
  datatype ApiError = ApiError(message: Value, status: int, endpoint: string)

  /** What the `catch` block of `apiCall` can receive: a transport error, or
      the "No data received" ApiError the `try` block throws itself. */
  datatype Caught = FromTransport(error: TransportError) | NoData(status: int)

  /** What `apiCall` rejects with: a cancellation, re-thrown as the very
      error the transport produced, or an ApiError. */
  datatype CallError = Cancellation(error: TransportError) | Failed(api: ApiError)

  /** What `apiCall` settles to. */
  datatype CallResult = Data(value: Value) | Threw(error: CallError)

  /** What a public wrapper settles to: a value, or a re-thrown error. */
  datatype Outcome<+T> = Returned(value: T) | Rethrown(error: CallError)

  const CanceledName := "CanceledError"
  const CanceledCode := "ERR_CANCELED"
  const NoDataMessage := "No data received"
  const DefaultFailureMessage := "API request failed"

  /** `error.name` of what `apiCall` rejects with. */
  function ErrorName(e: CallError): string {
    match e
    case Cancellation(t) => t.name
    case Failed(_) => "ApiError"
  }

  /** The test at the head of `apiCall`'s catch block. The no-data ApiError
      has neither the cancellation name nor a code. */
  predicate IsCancellation(c: Caught) {
    c.FromTransport? && (c.error.name == CanceledName || c.error.code == Some(CanceledCode))
  }

  /** `error.response?.status || 0` */
  function FailureStatus(t: TransportError): (status: int)
    ensures t.response.None? ==> status == 0
    ensures t.response.Some? ==> status == t.response.value.status
  {
    match t.response
    case None => 0
    case Some(r) => if r.status != 0 then r.status else 0
  }

  /** `error.response?.data?.message || error.message || 'API request failed'` */
  function FailureMessage(t: TransportError): (message: Value)
    ensures Truthy(message)
    ensures t.response.Some? && Truthy(Prop(t.response.value.data, "message")) ==>
              message == Prop(t.response.value.data, "message")
    ensures (t.response.None? || !Truthy(Prop(t.response.value.data, "message"))) && t.message != "" ==>
              message == Str(t.message)
    ensures (t.response.None? || !Truthy(Prop(t.response.value.data, "message"))) && t.message == "" ==>
              message == Str(DefaultFailureMessage)
  {
    var fromBody := match t.response
      case None => Undefined
      case Some(r) => Prop(r.data, "message");
    Or(fromBody, Or(Str(t.message), Str(DefaultFailureMessage)))
  }

  /** The catch block of `apiCall`, with the no-data ApiError passed on with
      the status it was built with (see `ClassifyAsWritten` for the code as
      it stands). A cancellation is re-thrown unwrapped; everything else
      becomes an ApiError that names the endpoint. */
  function Classify(c: Caught, endpoint: string): (e: CallError)
    ensures IsCancellation(c) <==> e.Cancellation?
    ensures IsCancellation(c) ==> e == Cancellation(c.error)
    ensures !IsCancellation(c) ==> e.Failed? && e.api.endpoint == endpoint && Truthy(e.api.message)
    ensures c.NoData? ==> e == Failed(ApiError(Str(NoDataMessage), c.status, endpoint))
    ensures c.FromTransport? && !IsCancellation(c) ==>
              e.api.status == FailureStatus(c.error) && e.api.message == FailureMessage(c.error)
  {
    match c
    case NoData(status) => Failed(ApiError(Str(NoDataMessage), status, endpoint))
    case FromTransport(t) =>
      if IsCancellation(c) then Cancellation(t)
      else Failed(ApiError(FailureMessage(t), FailureStatus(t), endpoint))
  }

  /** The catch block of `apiCall` as written. The no-data ApiError reaches
      it too, and since that error has no `response` its status is replaced
      by 0. */
  function ClassifyAsWritten(c: Caught, endpoint: string): (e: CallError)
    ensures c.FromTransport? ==> e == Classify(c, endpoint)
    ensures c.NoData? ==> e == Failed(ApiError(Str(NoDataMessage), 0, endpoint))
  {
    match c
    case NoData(_) => Failed(ApiError(Str(NoDataMessage), 0, endpoint))
    case FromTransport(_) => Classify(c, endpoint)
  }

  /** A 204 response with an empty body: the code as written reports status
      0 where the corrected classification keeps 204. */
  lemma NoDataStatusLostAsWritten()
    ensures var c := NoData(204);
            && ClassifyAsWritten(c, "/lookup.php?i=52771").api.status == 0
            && Classify(c, "/lookup.php?i=52771").api.status == 204
  {
  }

  /** The `try` block of `apiCall` after the cache check, with its catch
      block: a falsy body is a failure, a truthy body is the result. */
  function Fetch(endpoint: string, response: Fetched): (r: CallResult)
    ensures r.Data? <==> response.Received? && Truthy(response.data)
    ensures r.Data? ==> r.value == response.data && Truthy(r.value)
    ensures response.Received? && !Truthy(response.data) ==>
              r == Threw(Failed(ApiError(Str(NoDataMessage), response.status, endpoint)))
    ensures response.Rejected? ==> r == Threw(Classify(FromTransport(response.error), endpoint))
    ensures r.Threw? && r.error.Cancellation? ==> response == Rejected(r.error.error)
    ensures r.Threw? && r.error.Failed? ==> r.error.api.endpoint == endpoint
  {
    match response
    case Received(status, data) =>
      if !Truthy(data) then Threw(Classify(NoData(status), endpoint)) else Data(data)
    case Rejected(t) => Threw(Classify(FromTransport(t), endpoint))
  }

  // ---------------------------------------------------------------------
  // The response cache

  /** Five minutes, in milliseconds. */
  const CacheDuration: int := 5 * 60 * 1000

  datatype Entry = Entry(data: Value, timestamp: int)

  /** An entry is served while it is strictly younger than the duration:
      at exactly five minutes it has expired. */
  predicate IsLive(e: Entry, now: int) {
    now - e.timestamp < CacheDuration
  }

  /** Only truthy bodies are ever stored. */
  predicate CacheOk(cache: map<string, Entry>) {
    forall k :: k in cache ==> Truthy(cache[k].data)
  }

  /** One `apiCall`: its result, the cache it leaves and whether it reached
      the network. */
  datatype CallStep = CallStep(result: CallResult, cache: map<string, Entry>, fetched: bool)

  /** `apiCall(endpoint, useCache)` on `cache`, with the clock reading
      `now` at the expiry check and `storeTime` when a body is stored. */
  function ApiStep(cache: map<string, Entry>, endpoint: string, useCache: bool,
                   now: int, response: Fetched, storeTime: int): (s: CallStep)
    // a hit is served without a request and without touching the map
    ensures !s.fetched <==> useCache && endpoint in cache && IsLive(cache[endpoint], now)
    ensures !s.fetched ==> s.result == Data(cache[endpoint].data) && s.cache == cache
    ensures s.fetched ==> s.result == Fetch(endpoint, response)
    // with caching off the map is neither read nor written
    ensures !useCache ==> s.cache == cache && s.result == Fetch(endpoint, response)
    // a fresh success is stored under its endpoint, every other key is kept
    ensures useCache && s.fetched && s.result.Data? ==>
              s.cache == cache[endpoint := Entry(s.result.value, storeTime)]
    // a failure stores nothing; a stale entry has been dropped
    ensures useCache && s.fetched && s.result.Threw? ==> s.cache == cache - {endpoint}
    ensures s.cache.Keys <= cache.Keys + {endpoint}
    ensures CacheOk(cache) ==> CacheOk(s.cache) && (s.result.Data? ==> Truthy(s.result.value))
  {
    if useCache && endpoint in cache && IsLive(cache[endpoint], now) then
      CallStep(Data(cache[endpoint].data), cache, false)
    else
      var evicted := if useCache then cache - {endpoint} else cache;
      var r := Fetch(endpoint, response);
      var stored := if useCache && r.Data? then evicted[endpoint := Entry(r.value, storeTime)] else evicted;
      CallStep(r, stored, true)
  }

  /** Two cached calls to one endpoint where the first one fetched and
      succeeded and the second comes within five minutes of the stored
      timestamp: the second is a hit, so the pair makes one request. */
  lemma RepeatWithinDurationIsServedFromCache(
    cache: map<string, Entry>, endpoint: string,
    now1: int, response1: Fetched, stored1: int,
    now2: int, response2: Fetched, stored2: int)
    requires var s1 := ApiStep(cache, endpoint, true, now1, response1, stored1);
             s1.fetched && s1.result.Data?
    requires now2 - stored1 < CacheDuration
    ensures var s1 := ApiStep(cache, endpoint, true, now1, response1, stored1);
            var s2 := ApiStep(s1.cache, endpoint, true, now2, response2, stored2);
            !s2.fetched && s2.result == s1.result && s2.cache == s1.cache
  {
  }

  /** A cached call made five minutes or more after the stored timestamp
      goes to the network again and, on success, overwrites the entry with
      the new body and timestamp. */
  lemma CallAfterDurationRefetches(
    cache: map<string, Entry>, endpoint: string,
    now1: int, response1: Fetched, stored1: int,
    now2: int, response2: Fetched, stored2: int)
    requires var s1 := ApiStep(cache, endpoint, true, now1, response1, stored1);
             s1.fetched && s1.result.Data?
    requires now2 - stored1 >= CacheDuration
    ensures var s1 := ApiStep(cache, endpoint, true, now1, response1, stored1);
            var s2 := ApiStep(s1.cache, endpoint, true, now2, response2, stored2);
            && s2.fetched
            && (s2.result.Data? ==> s2.cache[endpoint] == Entry(response2.data, stored2))
            && (s2.result.Threw? ==> endpoint !in s2.cache)
  {
  }

  /** Calls to other endpoints, cached or not, leave an endpoint's entry
      exactly as it was. */
  lemma OtherEndpointsKeepEntry(cache: map<string, Entry>, key: string, endpoint: string,
                                useCache: bool, now: int, response: Fetched, storeTime: int)
    requires key != endpoint
    ensures var s := ApiStep(cache, endpoint, useCache, now, response, storeTime);
            (key in s.cache <==> key in cache) && (key in cache ==> s.cache[key] == cache[key])
  {
  }

  // ---------------------------------------------------------------------
  // Endpoints

  const SearchPrefix := "/search.php?s="
  const LookupPrefix := "/lookup.php?i="
  const RandomEndpoint := "/random.php"

  /** `/search.php?s=${encodeURIComponent(query)}`, with the encoding given. */
  function SearchEndpoint(query: string, encode: string -> string): string {
    SearchPrefix + encode(query)
  }

  /** `/lookup.php?i=${id}` */
  function LookupEndpoint(id: string): string {
    LookupPrefix + id
  }

  /** Distinct ids are distinct cache keys. */
  lemma LookupEndpointInjective(id1: string, id2: string)
    ensures LookupEndpoint(id1) == LookupEndpoint(id2) ==> id1 == id2
  {
    if LookupEndpoint(id1) == LookupEndpoint(id2) {
      assert id1 == LookupEndpoint(id1)[|LookupPrefix|..];
      assert id2 == LookupEndpoint(id2)[|LookupPrefix|..];
    }
  }

  // ---------------------------------------------------------------------
  // Result shaping in the public wrappers

  /** `!query?.trim()`: the query is absent, empty or all white space. */
  predicate IsBlankQuery(query: Option<string>) {
    query.None? || Trim(query.value) == ""
  }

  /** A query is blank exactly when it is absent or every character of it
      is white space (the empty query included). */
  lemma BlankQueryIsAllSpace(query: Option<string>)
    ensures IsBlankQuery(query) <==> query.None? || AllSpace(query.value)
  {
    if query.Some? {
      TrimEmptyIffAllSpace(query.value);
    }
  }

  /** `!id`: the id is absent or empty. */
  predicate IsBlankId(id: Option<string>) {
    id.None? || id.value == ""
  }

  /** The catch block of a wrapper: a `CanceledError` propagates, anything
      else is swallowed into `fallback`. */
  function Swallow<T>(e: CallError, fallback: T): (r: Outcome<T>)
    ensures r.Rethrown? <==> ErrorName(e) == CanceledName
    ensures r.Rethrown? ==> r.error == e
    ensures r.Returned? ==> r.value == fallback
  {
    if ErrorName(e) == CanceledName then Rethrown(e) else Returned(fallback)
  }

  /** `data.meals || []` after a call, and the catch block of
      `getMealsBySearch`. `data` is truthy whenever the call succeeded. */
  function MealList(c: CallResult): (r: Outcome<Value>)
    requires c.Data? ==> Truthy(c.value)
    ensures r.Returned? ==> Truthy(r.value)
    ensures c.Data? ==> r == Returned(Or(Prop(c.value, "meals"), Arr([])))
    ensures c.Data? && Prop(c.value, "meals").Arr? ==> r == Returned(Prop(c.value, "meals"))
    ensures c.Data? && !Truthy(Prop(c.value, "meals")) ==> r == Returned(Arr([]))
    ensures c.Threw? ==> r == Swallow(c.error, Arr([]))
  {
    match c
    case Data(data) => Returned(Or(Prop(data, "meals"), Arr([])))
    case Threw(e) => Swallow(e, Arr([]))
  }

  /** `data.meals?.[0] || null` after a call, and the catch block of
      `getMealById` and `getRandomMeal`. */
  function FirstMeal(c: CallResult): (r: Outcome<Value>)
    requires c.Data? ==> Truthy(c.value)
    ensures r.Returned? ==> r.value == Null || Truthy(r.value)
    ensures c.Data? ==> r == Returned(Or(Index0(Prop(c.value, "meals")), Null))
    ensures c.Data? && Prop(c.value, "meals") == Arr([]) ==> r == Returned(Null)
    ensures c.Data? && (Prop(c.value, "meals") == Null || Prop(c.value, "meals") == Undefined) ==>
              r == Returned(Null)
    ensures c.Data? && Prop(c.value, "meals").Arr? && |Prop(c.value, "meals").items| > 0 ==>
              var first := Prop(c.value, "meals").items[0];
              r == Returned(if Truthy(first) then first else Null)
    ensures c.Threw? ==> r == Swallow(c.error, Null)
  {
    match c
    case Data(data) => Returned(Or(Index0(Prop(data, "meals")), Null))
    case Threw(e) => Swallow(e, Null)
  }

  /** `getMealsBySearch(query)`. A blank query returns `[]` without a
      request; otherwise one uncached request is made and its outcome
      shaped. Only a transport error named `CanceledError` propagates: one
      that carries only the `ERR_CANCELED` code is swallowed into `[]`. */
  function MealsBySearch(query: Option<string>, encode: string -> string, response: Fetched): (r: Outcome<Value>)
    ensures IsBlankQuery(query) ==> r == Returned(Arr([]))
    ensures !IsBlankQuery(query) ==>
              r == MealList(Fetch(SearchEndpoint(query.value, encode), response))
    ensures r.Rethrown? <==>
              !IsBlankQuery(query) && response.Rejected? && response.error.name == CanceledName
    ensures r.Rethrown? ==> r.error == Cancellation(response.error)
    ensures !IsBlankQuery(query) && response.Received? && Truthy(response.data) ==>
              r == Returned(Or(Prop(response.data, "meals"), Arr([])))
    ensures !IsBlankQuery(query) && response.Received? && !Truthy(response.data) ==> r == Returned(Arr([]))
    ensures response.Rejected? && response.error.name != CanceledName ==> r == Returned(Arr([]))
  {
    if IsBlankQuery(query) then Returned(Arr([]))
    else MealList(Fetch(SearchEndpoint(query.value, encode), response))
  }

  /** `getRandomMeal()`: one uncached request to the random endpoint. */
  function RandomMeal(response: Fetched): (r: Outcome<Value>)
    ensures r == FirstMeal(Fetch(RandomEndpoint, response))
    ensures r.Rethrown? <==> response.Rejected? && response.error.name == CanceledName
    ensures r.Returned? ==> r.value == Null || Truthy(r.value)
    ensures response.Rejected? && response.error.name != CanceledName ==> r == Returned(Null)
  {
    FirstMeal(Fetch(RandomEndpoint, response))
  }

  /** Requests made through an uncached call see the same outcome whatever
      the cache holds, and the cache is left as it was: the search and the
      random wrappers are independent of it. */
  lemma UncachedCallIgnoresCache(cache: map<string, Entry>, endpoint: string,
                                 now: int, response: Fetched, storeTime: int)
    ensures ApiStep(cache, endpoint, false, now, response, storeTime)
            == CallStep(Fetch(endpoint, response), cache, true)
  {
  }

  // ---------------------------------------------------------------------
  // getRandomMeals: the partial-success join

  const DefaultRandomCount := 8

  /** The largest length an array can have; `Array.from({length: count})`
      throws a RangeError above it, before any request is made. */
  const MaxArrayLength := 0xFFFF_FFFF

  /** How many requests `getRandomMeals(count)` makes. */
  function RequestCount(count: int): (n: nat)
    ensures n <= if count < 0 then 0 else count
    ensures 0 <= count <= MaxArrayLength ==> n == count
    ensures count > MaxArrayLength ==> n == 0
  {
    if count <= 0 || count > MaxArrayLength then 0 else count
  }

  /** A settled result passes the filter: fulfilled with a truthy value. */
  predicate Kept(o: Outcome<Value>) {
    o.Returned? && Truthy(o.value)
  }

  /** `settled.filter(fulfilled && value).map(value)` */
  function Join(settled: seq<Outcome<Value>>): (r: seq<Value>)
    ensures |r| <= |settled|
    ensures forall k :: 0 <= k < |r| ==> Truthy(r[k])
  {
    if settled == [] then []
    else
      var last := settled[|settled| - 1];
      Join(settled[..|settled| - 1]) + (if Kept(last) then [last.value] else [])
  }

  /** The positions of the settled results that pass the filter, in order. */
  function KeptIndices(settled: seq<Outcome<Value>>): (r: seq<nat>)
    ensures forall k :: 0 <= k < |r| ==> r[k] < |settled| && Kept(settled[r[k]])
    ensures forall k, l :: 0 <= k < l < |r| ==> r[k] < r[l]
    ensures forall i :: 0 <= i < |settled| && Kept(settled[i]) ==> i in r
  {
    if settled == [] then []
    else
      var n := |settled| - 1;
      var front := KeptIndices(settled[..n]);
      assert forall k :: 0 <= k < |front| ==> settled[..n][front[k]] == settled[front[k]];
      front + (if Kept(settled[n]) then [n] else [])
  }

  /** The join is exactly the values of the kept results, in request
      order: its k-th element is the value at the k-th kept position. */
  lemma {:induction false} JoinIsKeptInOrder(settled: seq<Outcome<Value>>)
    ensures |Join(settled)| == |KeptIndices(settled)|
    ensures forall k :: 0 <= k < |Join(settled)| ==>
              Join(settled)[k] == settled[KeptIndices(settled)[k]].value
  {
    if settled != [] {
      var n := |settled| - 1;
      JoinIsKeptInOrder(settled[..n]);
      var idx := KeptIndices(settled[..n]);
      assert forall k :: 0 <= k < |idx| ==> settled[..n][idx[k]] == settled[idx[k]];
    }
  }

  /** When every request succeeds with a meal, the join keeps all of them. */
  lemma {:induction false} JoinKeepsAllWhenAllKept(settled: seq<Outcome<Value>>)
    requires forall i :: 0 <= i < |settled| ==> Kept(settled[i])
    ensures |Join(settled)| == |settled|
    ensures forall k :: 0 <= k < |settled| ==> settled[k].Returned? && Join(settled)[k] == settled[k].value
  {
    if settled != [] {
      JoinKeepsAllWhenAllKept(settled[..|settled| - 1]);
    }
  }

  /** `Promise.allSettled` over the random requests, in request order. */
  function SettleAll(responses: seq<Fetched>): (r: seq<Outcome<Value>>)
    ensures |r| == |responses|
    ensures forall i :: 0 <= i < |r| ==> r[i] == RandomMeal(responses[i])
  {
    if responses == [] then []
    else SettleAll(responses[..|responses| - 1]) + [RandomMeal(responses[|responses| - 1])]
  }

  /** `getRandomMeals(count)`: one random request per slot, joined. The
      result type has no error case: the function never throws. */
  function RandomMeals(count: int, responses: seq<Fetched>): (r: seq<Value>)
    requires |responses| == RequestCount(count)
    ensures |r| <= RequestCount(count)
    ensures forall k :: 0 <= k < |r| ==> Truthy(r[k])
    ensures count > MaxArrayLength ==> r == []
    ensures r == Join(SettleAll(responses))
  {
    if count > MaxArrayLength then []
    else Join(SettleAll(responses))
  }

  /** A request whose response carries a truthy first meal. */
  predicate YieldsMeal(response: Fetched) {
    Kept(RandomMeal(response))
  }

  /** Every meal in the result comes from one of the responses, and every
      response that yields a meal contributes it, in request order. */
  lemma RandomMealsKeepsEveryMealInOrder(count: int, responses: seq<Fetched>)
    requires |responses| == RequestCount(count)
    ensures var r := RandomMeals(count, responses);
            var idx := KeptIndices(SettleAll(responses));
            && |r| == |idx|
            && (forall k :: 0 <= k < |r| ==>
                  idx[k] < |responses| && YieldsMeal(responses[idx[k]])
                  && r[k] == RandomMeal(responses[idx[k]]).value)
            && (forall k, l :: 0 <= k < l < |idx| ==> idx[k] < idx[l])
            && (forall i :: 0 <= i < |responses| && YieldsMeal(responses[i]) ==> i in idx)
  {
    var settled := SettleAll(responses);
    JoinIsKeptInOrder(settled);
    forall i | 0 <= i < |responses| ensures YieldsMeal(responses[i]) == Kept(settled[i]) {
    }
  }

  /** The response of a random request that yields `meal`. */
  function MealResponse(meal: Value): Fetched {
    Received(200, Obj(map["meals" := Arr([meal])]))
  }

  /** One more settled result extends the join by its value when it is kept. */
  lemma JoinStep(settled: seq<Outcome<Value>>, i: nat)
    requires i < |settled|
    ensures Join(settled[..i + 1]) == Join(settled[..i]) + (if Kept(settled[i]) then [settled[i].value] else [])
  {
    assert settled[..i + 1][..i] == settled[..i];
  }

  lemma MealResponseYieldsMeal(meal: Value)
    requires Truthy(meal)
    ensures RandomMeal(MealResponse(meal)) == Returned(meal)
  {
  }

  /** The join over eight settled results of which the third and the sixth
      are not kept. */
  lemma JoinOfEightWithTwoGaps(settled: seq<Outcome<Value>>, meals: seq<Value>)
    requires |settled| == 8 && |meals| == 6
    requires settled[0] == Returned(meals[0]) && settled[1] == Returned(meals[1])
    requires settled[3] == Returned(meals[2]) && settled[4] == Returned(meals[3])
    requires settled[6] == Returned(meals[4]) && settled[7] == Returned(meals[5])
    requires forall i :: 0 <= i < 6 ==> Truthy(meals[i])
    requires !Kept(settled[2]) && !Kept(settled[5])
    ensures Join(settled) == meals
  {
    assert settled[..0] == [];
    JoinStep(settled, 0);
    JoinStep(settled, 1);
    JoinStep(settled, 2);
    JoinStep(settled, 3);
    JoinStep(settled, 4);
    JoinStep(settled, 5);
    JoinStep(settled, 6);
    JoinStep(settled, 7);
    assert settled[..8] == settled;
    assert meals == [meals[0], meals[1], meals[2], meals[3], meals[4], meals[5]];
  }

  /** Eight random requests of which the third and the sixth fail on the
      network: six meals come back, in request order, and nothing is thrown. */
  lemma EightRequestsTwoFailuresGiveSix(meals: seq<Value>, failure: TransportError)
    requires |meals| == 6 && forall i :: 0 <= i < 6 ==> Truthy(meals[i])
    ensures var responses := [MealResponse(meals[0]), MealResponse(meals[1]), Rejected(failure),
                              MealResponse(meals[2]), MealResponse(meals[3]), Rejected(failure),
                              MealResponse(meals[4]), MealResponse(meals[5])];
            RandomMeals(DefaultRandomCount, responses) == meals
  {
    var responses := [MealResponse(meals[0]), MealResponse(meals[1]), Rejected(failure),
                      MealResponse(meals[2]), MealResponse(meals[3]), Rejected(failure),
                      MealResponse(meals[4]), MealResponse(meals[5])];
    var settled := SettleAll(responses);
    MealResponseYieldsMeal(meals[0]);
    MealResponseYieldsMeal(meals[1]);
    MealResponseYieldsMeal(meals[2]);
    MealResponseYieldsMeal(meals[3]);
    MealResponseYieldsMeal(meals[4]);
    MealResponseYieldsMeal(meals[5]);
    assert settled[2] == RandomMeal(Rejected(failure));
    assert settled[5] == RandomMeal(Rejected(failure));
    JoinOfEightWithTwoGaps(settled, meals);
  }

  // ---------------------------------------------------------------------
  // The owned cache and the calls that use it

  /** The module-level cache, as an object that owns it. */
  class Client {
    var cache: map<string, Entry>

    ghost predicate Valid()
      reads this
    {
      CacheOk(cache)
    }

    constructor ()
      ensures Valid() && cache == map[]
    {
      cache := map[];
    }

    /** `apiCall(endpoint, useCache)` */
    method ApiCall(endpoint: string, useCache: bool, now: nat, response: Fetched, storeTime: nat)
      returns (r: CallResult)
      requires Valid()
      modifies this
      ensures Valid()
      ensures var s := ApiStep(old(cache), endpoint, useCache, now, response, storeTime);
              r == s.result && cache == s.cache
      ensures r.Data? ==> Truthy(r.value)
    {
      if useCache && endpoint in cache {
        var cached := cache[endpoint];
        if now - cached.timestamp < CacheDuration {
          return Data(cached.data);
        }
        cache := cache - {endpoint};
      }
      match response {
        case Rejected(t) =>
          r := Threw(Classify(FromTransport(t), endpoint));
        case Received(status, data) =>
          if !Truthy(data) {
            r := Threw(Classify(NoData(status), endpoint));
            return;
          }
          if useCache && Truthy(data) {
            cache := cache[endpoint := Entry(data, storeTime)];
          }
          r := Data(data);
      }
    }

    /** `getMealById(id)`: a blank id returns null without a request;
        otherwise one cached request to the lookup endpoint. */
    method GetMealById(id: Option<string>, now: nat, response: Fetched, storeTime: nat)
      returns (r: Outcome<Value>)
      requires Valid()
      modifies this
      ensures Valid()
      ensures IsBlankId(id) ==> r == Returned(Null) && cache == old(cache)
      ensures !IsBlankId(id) ==>
                var s := ApiStep(old(cache), LookupEndpoint(id.value), true, now, response, storeTime);
                r == FirstMeal(s.result) && cache == s.cache
      ensures r.Rethrown? ==> ErrorName(r.error) == CanceledName
    {
      if IsBlankId(id) {
        return Returned(Null);
      }
      var data := ApiCall(LookupEndpoint(id.value), true, now, response, storeTime);
      r := FirstMeal(data);
    }

    /** `clearCache()` */
    method ClearCache()
      modifies this
      ensures Valid() && cache == map[]
    {
      cache := map[];
    }

    /** `getCacheSize()` */
    method CacheSize() returns (n: nat)
      ensures n == |cache|
    {
      n := |cache|;
    }
  }

  /** After `clearCache`, every cached call goes to the network. */
  lemma ClearedCacheMisses(endpoint: string, useCache: bool, now: int, response: Fetched, storeTime: int)
    ensures ApiStep(map[], endpoint, useCache, now, response, storeTime).fetched
  {
  }
}
