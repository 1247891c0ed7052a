/** Properties of the detail endpoint across requests: what one request
    may do to the shared cache, and what the next request for the same id
    then sees. */
module Requests {
  import opened Optional
  import opened Json
  import opened Memcache
  import opened Polygons
  import opened Wiki
  import opened TimeSeries
  import opened Details
  import opened Server

  /** A request changes the cache at most by adding the requested, listed
      and previously absent id, with the computed details it answers with.
      Entries already cached are never altered, and the remote service is
      only asked for a listed id that missed the cache. */
  lemma CacheOnlyGrowsBySuccess(ids: seq<string>, cache: Cache, id: string, env: Env)
    ensures var r := DetailsGet(ids, cache, id, env);
      || r.cache == cache
      || (&& id in ids && id !in cache && r.response.Body?
          && r.cache == cache[id := r.response.payload]
          && DetailsOf(r).Some? && DetailsOf(r).value.Computed?)
    ensures var r := DetailsGet(ids, cache, id, env);
      forall k :: k in cache ==> k in r.cache && r.cache[k] == cache[k]
    ensures GetInfo in DetailsGet(ids, cache, id, env).calls ==> id in ids && id !in cache
  {
  }

  /** Once a listed id is cached, by a hit or by a successful miss, the next
      request for it returns the same payload, makes nothing but the
      lookup and leaves the cache as it is, whatever the remote service
      would now answer. */
  lemma SecondCallHits(ids: seq<string>, cache: Cache, id: string, env1: Env, env2: Env)
    requires id in ids
    requires id in cache || Succeeds(id, env1)
    ensures var r1 := DetailsGet(ids, cache, id, env1);
      && id in r1.cache
      && DetailsGet(ids, r1.cache, id, env2) == Reply(r1.response, r1.cache, [CacheGet(id)])
  {
  }

  /** A remote failure on a miss is answered with the link and the
      exception's message, and is not cached: the next request for the id
      misses again and reaches the remote service once its geometry is
      readable, so a recovered service answers with a series. */
  lemma FailureIsRecomputed(ids: seq<string>, cache: Cache, id: string, env1: Env, env2: Env)
    requires id in ids && id !in cache
    requires RemoteFails(id, env1)
    ensures var r1 := DetailsGet(ids, cache, id, env1);
      && DetailsOf(r1) == Some(Failed(WikiUrl(id), env1.answer.message))
      && r1.cache == cache
    ensures var r2 := DetailsGet(ids, DetailsGet(ids, cache, id, env1).cache, id, env2);
      && (GetInfo in r2.calls <==> GeometryPath(id) in env2.geometries)
      && (Succeeds(id, env2) ==> DetailsOf(r2).Some? && DetailsOf(r2).value.Computed? && id in r2.cache)
  {
  }

  /** A remote call that raises something other than a client-library
      exception leaves the handler with no body after the call was made,
      and nothing is cached, so the next request asks again. */
  lemma RemoteErrorEscapes(ids: seq<string>, cache: Cache, id: string, env1: Env, env2: Env)
    requires id in ids && id !in cache
    requires GeometryPath(id) in env1.geometries && env1.answer.OtherException?
    ensures var r1 := DetailsGet(ids, cache, id, env1);
      && r1.response == Unhandled(RemoteRaised)
      && r1.cache == cache
      && r1.calls == [CacheGet(id), OpenGeometry(GeometryPath(id)), GetInfo]
    ensures var r2 := DetailsGet(ids, DetailsGet(ids, cache, id, env1).cache, id, env2);
      GetInfo in r2.calls <==> GeometryPath(id) in env2.geometries
  {
  }

  /** The payload of a successful miss is the freshly built one, whatever
      the cache holds by the time it is added; if another request added the
      id first, the add changes nothing. */
  lemma FreshPayloadEvenIfAddIsNoOp(cache1: Cache, cache2: Cache, id: string, env: Env)
    requires Succeeds(id, env)
    ensures Miss(cache1, id, env).response == Miss(cache2, id, env).response
    ensures id in cache2 ==> Miss(cache2, id, env).cache == cache2
  {
  }

  /** Once an entry expires, the next request for a listed id with a
      readable geometry asks the remote service again. */
  lemma ExpiryForcesRecompute(ids: seq<string>, cache: Cache, id: string, env: Env)
    requires id in ids
    requires GeometryPath(id) in env.geometries
    ensures GetInfo in DetailsGet(ids, Expire(cache, id), id, env).calls
  {
  }

  /** A region over no images gets an empty series, which is a success
      and is cached, not an error. */
  lemma EmptyCollectionIsNotAnError(ids: seq<string>, cache: Cache, id: string, env: Env)
    requires id in ids && id !in cache
    requires GeometryPath(id) in env.geometries
    requires env.answer == ChartData([])
    ensures var r := DetailsGet(ids, cache, id, env);
      && r.response == Body(JObj(map[WikiUrlKey := JStr(WikiUrl(id)), TimeSeriesKey := JArr([])]))
      && id in r.cache
  {
  }

  /** The body of a listed id that missed the cache holds the link and
      exactly one of "timeSeries" and "error". */
  lemma MissBodyShape(ids: seq<string>, cache: Cache, id: string, env: Env)
    requires id in ids && id !in cache
    requires DetailsGet(ids, cache, id, env).response.Body?
    ensures var j := DetailsGet(ids, cache, id, env).response.payload;
      && j.JObj?
      && (j.fields.Keys == {WikiUrlKey, TimeSeriesKey} || j.fields.Keys == {WikiUrlKey, ErrorKey})
      && j.fields[WikiUrlKey] == JStr(WikiUrl(id))
  {
  }

  /** A successful miss answers with the link and the projected series. */
  lemma SuccessfulMissAnswer(ids: seq<string>, cache: Cache, id: string, env: Env)
    requires id in ids && id !in cache
    requires Succeeds(id, env)
    ensures DetailsGet(ids, cache, id, env).response
      == Body(ToJson(Computed(WikiUrl(id), ExtractTimeSeries(env.answer.features).value)))
  {
  }
}
