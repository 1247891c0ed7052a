/** The response shapes of the detail endpoint.

    A polygon's details always carry its Wikipedia link and then either the
    computed time series or the error message of a failed computation,
    never both and never neither. A request for an unknown id gets an
    object holding only an error. */
module Details {
  import opened Optional
  import opened Json

  const WikiUrlKey: string := "wikiUrl"
  const TimeSeriesKey: string := "timeSeries"
  const ErrorKey: string := "error"

  const UnrecognizedPrefix: string := "Unrecognized polygon ID: "

  datatype PolygonDetails =
    | Computed(wikiUrl: string, timeSeries: seq<Value>)
    | Failed(wikiUrl: string, error: string)

  /** The document `json.dumps` prints for a details dict: "wikiUrl" plus
      exactly one of "timeSeries" and "error". */
  function ToJson(d: PolygonDetails): (j: Value)
    ensures j.JObj?
    ensures j.fields.Keys == {WikiUrlKey, if d.Computed? then TimeSeriesKey else ErrorKey}
  {
    match d
    case Computed(url, series) =>
      JObj(map[WikiUrlKey := JStr(url), TimeSeriesKey := JArr(series)])
    case Failed(url, error) =>
      JObj(map[WikiUrlKey := JStr(url), ErrorKey := JStr(error)])
  }

  /** How a reader of the payload tells a chart from an error: a details
      object has a string "wikiUrl" and either an array "timeSeries" or a
      string "error", and no other key. */
  function FromJson(j: Value): Option<PolygonDetails>
  {
    if !j.JObj? || WikiUrlKey !in j.fields || !j.fields[WikiUrlKey].JStr? then None
    else
      var url := j.fields[WikiUrlKey].s;
      if j.fields.Keys == {WikiUrlKey, TimeSeriesKey} && j.fields[TimeSeriesKey].JArr?
      then Some(Computed(url, j.fields[TimeSeriesKey].elems))
      else if j.fields.Keys == {WikiUrlKey, ErrorKey} && j.fields[ErrorKey].JStr?
      then Some(Failed(url, j.fields[ErrorKey].s))
      else None
  }

  /** Every details value is read back as itself. */
  lemma FromJsonToJson(d: PolygonDetails)
    ensures FromJson(ToJson(d)) == Some(d)
  {
  }

  /** Every document read as details is the one printed for those details,
      so `ToJson` is a bijection onto the documents `FromJson` accepts. */
  lemma ToJsonFromJson(j: Value)
    requires FromJson(j).Some?
    ensures ToJson(FromJson(j).value) == j
  {
  }

  /** The answer to an unknown id: an object whose only key is "error",
      which no reader mistakes for polygon details. */
  function UnrecognizedId(id: string): (j: Value)
    ensures j.JObj? && j.fields.Keys == {ErrorKey}
    ensures j.fields[ErrorKey] == JStr(UnrecognizedPrefix + id)
    ensures FromJson(j) == None
  {
    JObj(map[ErrorKey := JStr(UnrecognizedPrefix + id)])
  }
}
