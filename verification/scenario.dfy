/** The worked example of the detail endpoint: two known lakes, an empty
    cache and a remote service that reports three samples for "lake-a". */
module Scenario {
  import opened Optional
  import Text
  import opened Json
  import opened Memcache
  import opened Polygons
  import opened Wiki
  import opened TimeSeries
  import opened Details
  import opened Server
  import opened Requests

  function Sample(t: int, mean: Value): Feature
  {
    Feature(map[TimeStartKey := JInt(t), StableLightsKey := mean])
  }

  /** The three samples project to the three points, in order. */
  lemma LakeSeries(t1: int, t2: int, t3: int, v1: Value, v2: Value, v3: Value)
    ensures ExtractTimeSeries([Sample(t1, v1), Sample(t2, v2), Sample(t3, v3)])
      == Some([JArr([JInt(t1), v1]), JArr([JInt(t2), v2]), JArr([JInt(t3), v3])])
  {
    var features := [Sample(t1, v1), Sample(t2, v2), Sample(t3, v3)];
    assert TimeStartKey != StableLightsKey;
    assert forall i :: 0 <= i < |features| ==> HasPoint(features[i]);
    var series := ExtractTimeSeries(features).value;
    assert series[0] == JArr([JInt(t1), v1]);
    assert series[1] == JArr([JInt(t2), v2]);
    assert series[2] == JArr([JInt(t3), v3]);
    assert |series| == 3;
    assert series == [JArr([JInt(t1), v1]), JArr([JInt(t2), v2]), JArr([JInt(t3), v3])];
  }

  /** The link of "lake-a", one character of the id at a time. */
  lemma LakeUrl()
    ensures WikiUrl("lake-a") == "http://en.wikipedia.org/wiki/lake%20a"
  {
    assert Text.ReplaceAll("", "-", "%20") == "";
    assert Text.ReplaceAll("a", "-", "%20") == "a";
    assert Text.ReplaceAll("-a", "-", "%20") == "%20a";
    assert Text.ReplaceAll("e-a", "-", "%20") == "e%20a";
    assert Text.ReplaceAll("ke-a", "-", "%20") == "ke%20a";
    assert Text.ReplaceAll("ake-a", "-", "%20") == "ake%20a";
    assert Text.ReplaceAll("lake-a", "-", "%20") == "lake%20a";
  }

  const LakeIds: seq<string> := ["lake-a", "lake-b"]

  function LakeEnv(t1: int, t2: int, t3: int, v1: Value, v2: Value, v3: Value): Env
  {
    Env({"static/polygons/lake-a.json"}, ChartData([Sample(t1, v1), Sample(t2, v2), Sample(t3, v3)]))
  }

  lemma LakeFirst(t1: int, t2: int, t3: int, v1: Value, v2: Value, v3: Value)
    ensures DetailsGet(LakeIds, map[], "lake-a", LakeEnv(t1, t2, t3, v1, v2, v3)).response
      == Body(JObj(map[
           "wikiUrl" := JStr("http://en.wikipedia.org/wiki/lake%20a"),
           "timeSeries" := JArr([JArr([JInt(t1), v1]), JArr([JInt(t2), v2]), JArr([JInt(t3), v3])])]))
  {
    var env := LakeEnv(t1, t2, t3, v1, v2, v3);
    var series := [JArr([JInt(t1), v1]), JArr([JInt(t2), v2]), JArr([JInt(t3), v3])];
    assert GeometryPath("lake-a") == "static/polygons/lake-a.json";
    LakeSeries(t1, t2, t3, v1, v2, v3);
    assert Succeeds("lake-a", env);
    SuccessfulMissAnswer(LakeIds, map[], "lake-a", env);
    LakeUrl();
    assert DetailsGet(LakeIds, map[], "lake-a", env).response
      == Body(ToJson(Computed("http://en.wikipedia.org/wiki/lake%20a", series)));
  }

  /** "lake-c" is not a known lake: whatever the cache holds, the request
      is refused with the unknown-id error and makes no call. */
  lemma LakeUnknown(cache: Cache, env: Env)
    ensures DetailsGet(LakeIds, cache, "lake-c", env)
      == Reply(Body(JObj(map["error" := JStr("Unrecognized polygon ID: lake-c")])), cache, [])
  {
    assert "lake-c" !in LakeIds;
    assert UnrecognizedPrefix + "lake-c" == "Unrecognized polygon ID: lake-c";
  }

  /** Two lakes are known and the cache is empty. The first request for
      "lake-a" is answered with its link and the three points; the second
      returns the identical payload after the lookup alone; a request for
      "lake-c" is refused without a call. */
  lemma LakeScenario(t1: int, t2: int, t3: int, v1: Value, v2: Value, v3: Value)
    ensures var env := LakeEnv(t1, t2, t3, v1, v2, v3);
      var r1 := DetailsGet(LakeIds, map[], "lake-a", env);
      && r1.response == Body(JObj(map[
           "wikiUrl" := JStr("http://en.wikipedia.org/wiki/lake%20a"),
           "timeSeries" := JArr([JArr([JInt(t1), v1]), JArr([JInt(t2), v2]), JArr([JInt(t3), v3])])]))
      && DetailsGet(LakeIds, r1.cache, "lake-a", env) == Reply(r1.response, r1.cache, [CacheGet("lake-a")])
      && DetailsGet(LakeIds, r1.cache, "lake-c", env)
         == Reply(Body(JObj(map["error" := JStr("Unrecognized polygon ID: lake-c")])), r1.cache, [])
  {
    var env := LakeEnv(t1, t2, t3, v1, v2, v3);
    LakeFirst(t1, t2, t3, v1, v2, v3);
    assert Succeeds("lake-a", env) by {
      assert GeometryPath("lake-a") == "static/polygons/lake-a.json";
      LakeSeries(t1, t2, t3, v1, v2, v3);
    }
    SecondCallHits(LakeIds, map[], "lake-a", env, env);
    LakeUnknown(DetailsGet(LakeIds, map[], "lake-a", env).cache, env);
  }
}
