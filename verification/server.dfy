/** The per-request pipeline of the detail endpoint.

    A request names a polygon id. An unknown id is answered at once. A
    known id is looked up in the cache; a hit is returned as stored. On a
    miss the server builds the Wikipedia link, reads the polygon's geometry
    file, asks the remote service for the brightness series, and on success
    adds the payload to the cache. A failure reported by the remote client
    library becomes an "error" field and is not cached; any other failure
    escapes the handler with no payload.

    Everything outside the server is a parameter: the cache contents, the
    geometry files that open and parse, and the remote service's answer.
    Each reply records the external calls made, in order. */
module Server {
  import opened Optional
  import opened Json
  import opened Memcache
  import opened Polygons
  import opened Wiki
  import opened TimeSeries
  import opened Details

  /** What the remote service answers to the reduction request: the
      feature collection, a client-library exception with its message, or
      some other exception out of the call itself (a transport error or a
      request deadline), which the handler does not catch. */
  datatype RemoteAnswer =
    | ChartData(features: seq<Feature>)
    | EEException(message: string)
    | OtherException

  /** The world one request runs in: the geometry paths whose files open
      and parse as JSON, and the remote service's answer. */
  datatype Env = Env(geometries: set<string>, answer: RemoteAnswer)

  /** The external calls a request can make. */
  datatype Call =
    | CacheGet(key: string)
    | OpenGeometry(path: string)
    | GetInfo
    | CacheAdd(key: string, value: Value, ttl: nat)

  /** Failures that are not client-library exceptions and so are not
      caught: the geometry file cannot be opened or parsed, the remote call
      raises something else, or a feature lacks a property. */
  datatype Escape = GeometryUnreadable(path: string) | RemoteRaised | PropertyMissing

  datatype Outcome =
    | Series(points: seq<Value>)
    | EEError(message: string)
    | Raised(escape: Escape)

  datatype Computation = Computation(outcome: Outcome, calls: seq<Call>)

  /** What the handler writes back: a JSON body, or nothing because an
      exception left the handler. */
  datatype Response = Body(payload: Value) | Unhandled(escape: Escape)

  datatype Reply = Reply(response: Response, cache: Cache, calls: seq<Call>)

  /** The computation of a miss returns a series. */
  predicate Succeeds(id: string, env: Env)
  {
    && GeometryPath(id) in env.geometries
    && env.answer.ChartData?
    && ExtractTimeSeries(env.answer.features).Some?
  }

  /** The computation of a miss raises a client-library exception. */
  predicate RemoteFails(id: string, env: Env)
  {
    GeometryPath(id) in env.geometries && env.answer.EEException?
  }

  /** Some call of the trace writes to the cache. */
  predicate WritesCache(calls: seq<Call>)
  {
    exists i :: 0 <= i < |calls| && calls[i].CacheAdd?
  }

  /** The details a reply carries, as a reader of its body sees them. */
  function DetailsOf(r: Reply): Option<PolygonDetails>
  {
    if r.response.Body? then FromJson(r.response.payload) else None
  }

  /** Reading the geometry, asking the remote service and projecting its
      answer. The geometry file is always opened first; the remote service
      is asked exactly when that succeeds. The series is the projection of
      the answer's features; an exception's message is kept; anything else
      escapes. */
  function ComputePolygonTimeSeries(id: string, env: Env): (c: Computation)
    ensures |c.calls| >= 1 && c.calls[0] == OpenGeometry(GeometryPath(id))
    ensures GetInfo in c.calls <==> GeometryPath(id) in env.geometries
    ensures !WritesCache(c.calls)
    ensures c.outcome.Series? <==> Succeeds(id, env)
    ensures c.outcome.Series? ==> Some(c.outcome.points) == ExtractTimeSeries(env.answer.features)
    ensures c.outcome.EEError? <==> RemoteFails(id, env)
    ensures c.outcome.EEError? ==> c.outcome.message == env.answer.message
    ensures c.outcome == Raised(RemoteRaised) <==>
      GeometryPath(id) in env.geometries && env.answer.OtherException?
    ensures c.outcome == Raised(PropertyMissing) <==>
      && GeometryPath(id) in env.geometries
      && env.answer.ChartData?
      && ExtractTimeSeries(env.answer.features).None?
  {
    var path := GeometryPath(id);
    if path !in env.geometries then
      Computation(Raised(GeometryUnreadable(path)), [OpenGeometry(path)])
    else
      var calls := [OpenGeometry(path), GetInfo];
      match env.answer
      case EEException(message) => Computation(EEError(message), calls)
      case OtherException => Computation(Raised(RemoteRaised), calls)
      case ChartData(features) =>
        match ExtractTimeSeries(features)
        case Some(points) => Computation(Series(points), calls)
        case None => Computation(Raised(PropertyMissing), calls)
  }

  /** The miss branch. `cache` is the cache as it stands when the result is
      added, which other requests may have filled since the lookup.
      A success is answered with link and series and added under the id
      for one day, which changes nothing if the id is already there; a
      remote failure is answered with link and message and leaves the
      cache alone; any other failure escapes without a body or a write. */
  function Miss(cache: Cache, id: string, env: Env): (r: Reply)
    ensures r.response.Body? ==> DetailsOf(r).Some? && DetailsOf(r).value.wikiUrl == WikiUrl(id)
    ensures Succeeds(id, env) ==>
      && DetailsOf(r) == Some(Computed(WikiUrl(id), ExtractTimeSeries(env.answer.features).value))
      && r.cache == Add(cache, id, r.response.payload)
      && |r.calls| >= 1 && r.calls[|r.calls| - 1] == CacheAdd(id, r.response.payload, MemcacheExpiration)
    ensures RemoteFails(id, env) ==> DetailsOf(r) == Some(Failed(WikiUrl(id), env.answer.message))
    ensures r.response.Unhandled? <==> !Succeeds(id, env) && !RemoteFails(id, env)
    ensures r.response == Unhandled(RemoteRaised) <==>
      GeometryPath(id) in env.geometries && env.answer.OtherException?
    ensures !Succeeds(id, env) ==> r.cache == cache && !WritesCache(r.calls)
    ensures GetInfo in r.calls <==> GeometryPath(id) in env.geometries
  {
    var computation := ComputePolygonTimeSeries(id, env);
    match computation.outcome
    case Series(points) =>
      var details := Computed(WikiUrl(id), points);
      var payload := ToJson(details);
      Reply(Body(payload), Add(cache, id, payload),
            computation.calls + [CacheAdd(id, payload, MemcacheExpiration)])
    case EEError(message) =>
      var details := Failed(WikiUrl(id), message);
      Reply(Body(ToJson(details)), cache, computation.calls)
    case Raised(escape) =>
      Reply(Unhandled(escape), cache, computation.calls)
  }

  /** The cached path. A hit is answered with the stored payload as it is,
      with no further call and no change to the cache; a miss is the miss
      branch run against the same cache, after the lookup. */
  function GetPolygonTimeSeries(cache: Cache, id: string, env: Env): (r: Reply)
    ensures |r.calls| >= 1 && r.calls[0] == CacheGet(id)
    ensures id in cache ==> r == Reply(Body(cache[id]), cache, [CacheGet(id)])
    ensures id !in cache ==>
      var m := Miss(cache, id, env);
      r.response == m.response && r.cache == m.cache && r.calls[1..] == m.calls
  {
    match Get(cache, id)
    case Some(payload) => Reply(Body(payload), cache, [CacheGet(id)])
    case None =>
      var m := Miss(cache, id, env);
      Reply(m.response, m.cache, [CacheGet(id)] + m.calls)
  }

  /** The detail endpoint. An id outside the start-up list is answered with
      the unknown-id error and makes no call at all, so neither the cache
      nor the remote service is touched; a listed id always starts with a
      cache lookup. */
  function DetailsGet(ids: seq<string>, cache: Cache, id: string, env: Env): (r: Reply)
    ensures id !in ids ==> r == Reply(Body(UnrecognizedId(id)), cache, [])
    ensures id in ids ==> |r.calls| >= 1 && r.calls[0] == CacheGet(id)
  {
    if id in ids then GetPolygonTimeSeries(cache, id, env)
    else Reply(Body(UnrecognizedId(id)), cache, [])
  }
}
