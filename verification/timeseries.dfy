/** The projection of the remote reduction result into chart points.

    The remote service answers with a feature collection; each feature
    carries the image's acquisition time and the region's mean brightness
    as properties. The server turns each feature into a two-element list
    [time, mean], in the order the features arrive. */
module TimeSeries {
  import opened Optional
  import opened Json

  const TimeStartKey: string := "system:time_start"
  const StableLightsKey: string := "stable_lights"

  /** One feature of the collection; only its properties are read. */
  datatype Feature = Feature(properties: map<string, Value>)

  /** Both properties a chart point is read from are present. The mean
      may be null (no valid pixels), which still counts as present. */
  predicate HasPoint(f: Feature)
  {
    TimeStartKey in f.properties && StableLightsKey in f.properties
  }

  /** The chart point of one feature, or None where indexing a missing
      property would raise. A point is a pair whose time reads back as the
      feature's time and whose second entry is the mean as given, null
      included. */
  function ExtractMean(f: Feature): (point: Option<Value>)
    ensures point.Some? <==> HasPoint(f)
    ensures point.Some? ==> PointTime(point.value) == FeatureTime(f)
    ensures point.Some? ==>
      point.value.JArr? && |point.value.elems| == 2
      && point.value.elems[1] == f.properties[StableLightsKey]
  {
    if HasPoint(f)
    then Some(JArr([f.properties[TimeStartKey], f.properties[StableLightsKey]]))
    else None
  }

  /** The chart points of a feature collection. It fails exactly when some
      feature lacks a property; otherwise point i is [time_i, mean_i] of
      feature i, so length and order are those of the collection, and a
      null mean is carried through as a null, not turned into a failure. */
  function ExtractTimeSeries(features: seq<Feature>): (series: Option<seq<Value>>)
    ensures series.Some? <==> forall i :: 0 <= i < |features| ==> HasPoint(features[i])
    ensures series.Some? ==> |series.value| == |features|
    ensures series.Some? ==> forall i :: 0 <= i < |features| ==>
      series.value[i] == JArr([features[i].properties[TimeStartKey], features[i].properties[StableLightsKey]])
  {
    if features == [] then Some([])
    else
      match (ExtractMean(features[0]), ExtractTimeSeries(features[1..]))
      case (Some(point), Some(rest)) => Some([point] + rest)
      case _ => None
  }

  /** The integer acquisition time of a feature, if it has one. */
  function FeatureTime(f: Feature): Option<int>
  {
    if TimeStartKey in f.properties && f.properties[TimeStartKey].JInt?
    then Some(f.properties[TimeStartKey].i)
    else None
  }

  /** The integer time of a chart point, if it has one. */
  function PointTime(p: Value): Option<int>
  {
    if p.JArr? && |p.elems| == 2 && p.elems[0].JInt? then Some(p.elems[0].i) else None
  }

  /** The collection is sorted by acquisition time. The server asks the
      remote service for this order and does not check it. */
  predicate TimesAscending(features: seq<Feature>)
  {
    && (forall i :: 0 <= i < |features| ==> FeatureTime(features[i]).Some?)
    && (forall i, j :: 0 <= i < j < |features| ==>
          FeatureTime(features[i]).value <= FeatureTime(features[j]).value)
  }

  predicate PointsAscending(series: seq<Value>)
  {
    && (forall i :: 0 <= i < |series| ==> PointTime(series[i]).Some?)
    && (forall i, j :: 0 <= i < j < |series| ==>
          PointTime(series[i]).value <= PointTime(series[j]).value)
  }

  /** The projection keeps the order it is given: a time-sorted collection
      yields a time-sorted series. */
  lemma SeriesKeepsTimeOrder(features: seq<Feature>)
    requires TimesAscending(features)
    requires ExtractTimeSeries(features).Some?
    ensures PointsAscending(ExtractTimeSeries(features).value)
  {
    var series := ExtractTimeSeries(features).value;
    forall i | 0 <= i < |series|
      ensures PointTime(series[i]) == FeatureTime(features[i])
    {
      assert series[i] == JArr([features[i].properties[TimeStartKey], features[i].properties[StableLightsKey]]);
    }
    forall i, j | 0 <= i < j < |series|
      ensures PointTime(series[i]).value <= PointTime(series[j]).value
    {
      assert PointTime(series[i]) == FeatureTime(features[i]);
      assert PointTime(series[j]) == FeatureTime(features[j]);
    }
  }
}
