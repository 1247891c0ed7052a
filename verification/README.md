# Trendy Lights detail pipeline, modelled in Dafny

This project models the polygon-detail endpoint of the Trendy Lights App
Engine server (`app/server.py`). The browser asks for the details of one
polygon by id. The server:

1. refuses an id that is not in the id list built at start-up;
2. answers a cache hit with the stored payload as it is;
3. on a miss, builds the Wikipedia link, reads the polygon's GeoJSON file and
   asks Earth Engine for the mean night-time brightness of every image;
4. projects the answer into `[time, mean]` chart points;
5. on success, adds the payload to memcache for one day, unless an entry is
   already there;
6. on an Earth Engine exception, answers with an `error` field and caches
   nothing.

Any other exception leaves the handler with no payload.

The model is functional. One request is a pure function from the cache, the
id list and an environment to a reply. The environment holds the geometry
files that open and parse, and Earth Engine's answer. The reply holds the
response, the new cache and the trace of external calls made. The trace is
what lets the contracts say "touches neither the cache nor the remote
service".

Modules, one per concept of the server:

- `Text`: Python's `str.replace`, which scans left to right with no overlaps.
- `Polygons`: ids derived from file names (line 306) and paths rebuilt from
  ids (line 260).
- `Wiki`: the Wikipedia link (lines 217 and 287).
- `Memcache`: `get`, add-if-absent `add`, and expiry as removal.
- `TimeSeries`: the `ExtractMean` projection of the feature collection.
- `Json`: JSON documents.
- `Details`: the details payload and the unknown-id payload.
- `Server`: the per-request pipeline.
- `Requests`: properties spanning several requests.
- `Scenario`: a worked example with two lakes.

Modelling choices:

- A payload is a JSON document value. `json.dumps` is taken to be a
  deterministic, injective printing, so two payloads are equal exactly when
  the printed strings are. Objects are maps, so key order is not modelled.
- Earth Engine is an oracle: the environment's `answer` is the feature
  collection that `getInfo` returns, an `EEException` carrying `str(e)`, or
  another exception raised out of the call (a transport error or a request
  deadline). That last one is not caught at line 223 and escapes after the
  remote call was made, with no body and no cache write.
- The code is Python 2, so `map` in `ComputePolygonTimeSeries` is eager. A
  missing property therefore raises inside the `try`.
- Only `ee.EEException` is caught (app/server.py:219-225). A geometry file
  that cannot be opened or parsed (app/server.py:260-263) raises something
  else, which escapes with no body and no cache write.
- Line 251 indexes `stable_lights`, so a feature without that property
  raises `KeyError`, which escapes as well. A `null` mean is present and
  becomes a `[t, null]` point.
- The cache write at line 222 runs only after the computation at line 220
  has returned, so failed results are never cached.

## Model

| member | source | states |
|---|---|---|
| Text.ReplaceAll | app/server.py:306 | `str.replace` returns the string unchanged when the pattern does not occur; a replacement no longer than the pattern never lengthens the string and shortens it by at least the difference once the pattern occurs |
| Text.ReplaceCharConcat | app/server.py:217 | replacing one character distributes over concatenation, so each character is escaped independently of its neighbours |
| Text.ReplaceCharLength | app/server.py:217 | replacing a character by a three-character escape adds exactly two characters per occurrence (counted by the string's multiset) |
| Text.ReplaceCharRemoves | app/server.py:217 | if the replacement does not contain the character, the result contains none of it |
| Text.ReplaceCharSingle | app/server.py:217 | a one-character string becomes the replacement if it is the character and stays itself otherwise |
| Polygons.PolygonId | app/server.py:306 | the id equals the file name exactly when the name holds no ".json"; otherwise it is at least five characters shorter, because every occurrence is deleted |
| Polygons.PolygonIds | app/server.py:306 | one id per listed file, in listing order |
| Polygons.StripSuffix | app/server.py:306 | deleting ".json" from `x + ".json"` gives back `x` when `x` holds no ".json": no occurrence can straddle the join |
| Polygons.GeometryPath | app/server.py:260 | the geometry path is `POLYGON_PATH` + id + ".json", and the id can be read back from it, so distinct ids read distinct files; `Polygons.IdPathRoundTrip` makes it the inverse of the id derivation |
| Polygons.IdPathRoundTrip | app/server.py:258-260 | for a file named `x + ".json"` with no other ".json", the id is `x` and the geometry path rebuilt from it is that file's path |
| Polygons.ListingRoundTrip | app/server.py:305-306 | for a folder of such files, every id in the start-up list leads back to its own file |
| Polygons.DotFreeHasNoSuffix | app/server.py:306 | a file name without a '.' cannot contain ".json", so its id is the name itself |
| Polygons.InnerSuffixBreaksRoundTrip | app/server.py:306 | "a.json.json" yields id "a", whose rebuilt path names a different file |
| Polygons.MissingSuffixBreaksRoundTrip | app/server.py:306 | a file without the suffix keeps its name as id, and the rebuilt path gains an extra ".json" |
| Polygons.DerivationNotIdempotent | app/server.py:306 | deleting can splice a new ".json" together: ".j.jsonson" yields ".json", which yields "" |
| Wiki.WikiUrl | app/server.py:217 | the link starts with the Wikipedia prefix, contains no '-', and is 29 + \|id\| + 2·(number of '-') characters long |
| Wiki.WikiUrlAppend | app/server.py:217 | appending a character to the id appends "%20" to the link for '-' and the character itself otherwise; with the empty id this fixes every link |
| Wiki.WikiUrlWithoutHyphen | app/server.py:217 | an id without '-' appears in its link unchanged after the prefix |
| Memcache.Get | app/server.py:211-215 | the lookup finds a value exactly when the key is present, and then it is the stored one |
| Memcache.Add | app/server.py:222 | `add` never replaces an existing entry and changes no other key; afterwards the key is present, holding the new value if it was absent before |
| Memcache.Expire | app/server.py:271-274 | expiry removes exactly the expired key and keeps every other entry |
| Memcache.AddFirstWins | app/server.py:222 | a second add of the same key is a no-op, whatever its value |
| TimeSeries.ExtractMean | app/server.py:248-252 | one feature yields a point exactly when it has both properties; the point's time reads back as the feature's time and its second entry is the mean as given, null included; `TimeSeries.ExtractTimeSeries` lifts it to the collection |
| TimeSeries.ExtractTimeSeries | app/server.py:247-253 | the projection fails exactly when some feature lacks a property; otherwise it has the collection's length and order, and point i is `[time_start_i, stable_lights_i]`, with a null mean kept as null |
| TimeSeries.SeriesKeepsTimeOrder | app/server.py:234 | if the remote service returns the collection sorted by time, as requested, the chart points are sorted by time |
| Details.ToJson | app/server.py:217-228 | a details payload is an object with "wikiUrl" and exactly one of "timeSeries" and "error" |
| Details.FromJsonToJson | app/server.py:228 | reading a printed details payload gives back the same details |
| Details.ToJsonFromJson | app/server.py:228 | every document read as details is the one printed for those details, so printing is a bijection onto readable payloads |
| Details.UnrecognizedId | app/server.py:102 | the unknown-id answer is an object whose only key is "error", holding "Unrecognized polygon ID: " + id, and no reader takes it for details |
| Server.ComputePolygonTimeSeries | app/server.py:231-263 | the geometry file at `POLYGON_PATH + id + ".json"` is opened first; the remote service is asked exactly when that succeeds; the series is the projection of the answer, an EE exception keeps its message, and a non-EE exception from the remote call or a missing property escapes; nothing is written to the cache |
| Server.Miss | app/server.py:217-228 | a miss always answers with the id's link; a success answers with the series and adds it under the id for 86400 seconds; an EE failure answers with the message; other failures escape, a non-EE remote exception exactly when the geometry was readable; only a success writes the cache; the remote service is asked exactly when the geometry is readable |
| Server.GetPolygonTimeSeries | app/server.py:209-228 | every call starts with a lookup; a hit returns the stored payload verbatim with no further call and no cache change |
| Server.DetailsGet | app/server.py:96-104 | an id outside the start-up list is answered with the unknown-id error, makes no call and leaves the cache unchanged; a listed id starts with a cache lookup |
| Requests.CacheOnlyGrowsBySuccess | app/server.py:209-228 | a request changes the cache at most by adding the requested, listed and previously absent id, with its computed details; existing entries never change; the remote service is only asked for a listed id that missed |
| Requests.SecondCallHits | app/server.py:211-222 | after a hit or a successful miss, the next request for the id returns the identical payload with only the lookup, whatever the remote service would answer |
| Requests.FailureIsRecomputed | app/server.py:219-228 | an EE failure is answered with link and message and not cached; the next request misses again, asks the remote service when the geometry is readable, and is cached once the service recovers |
| Requests.RemoteErrorEscapes | app/server.py:219-245 | a non-EE exception out of the remote call leaves the handler with no body after lookup, open and remote call, caches nothing, and the next request asks the remote service again when the geometry is readable |
| Requests.FreshPayloadEvenIfAddIsNoOp | app/server.py:222-228 | a successful miss returns the freshly built payload whatever the cache holds at add time; if another request added the id first, the cache is left as it was |
| Requests.ExpiryForcesRecompute | app/server.py:271-274 | after an entry expires, the next request for a listed id with a readable geometry asks the remote service again |
| Requests.EmptyCollectionIsNotAnError | app/server.py:245-253 | an empty feature collection is answered with `timeSeries: []` and cached, not reported as an error |
| Requests.MissBodyShape | app/server.py:217-228 | the body of a listed id that missed holds its link and exactly one of "timeSeries" and "error" |
| Requests.SuccessfulMissAnswer | app/server.py:217-222 | a successful miss answers with the link and the projected series |
| Scenario.LakeSeries | app/server.py:248-253 | three samples project to the three `[t, v]` points in order |
| Scenario.LakeUrl | app/server.py:217 | "lake-a" links to "http://en.wikipedia.org/wiki/lake%20a" |
| Scenario.LakeFirst | app/server.py:209-228 | with an empty cache, "lake-a" is answered with its link and the three points |
| Scenario.LakeUnknown | app/server.py:99-102 | "lake-c" is refused with "Unrecognized polygon ID: lake-c" and no call, whatever the cache holds |
| Scenario.LakeScenario | app/server.py:96-104 | first request computes, an immediate repeat returns the identical payload with only the lookup, and an unknown lake is refused |

## Left out

- The map overlay, meaning `GetTrendyMapId`, `applytransforms`, `unmix` and `getMapId` (app/server.py:130-189). It is remote, floating-point image algebra with no server-side logic.
- The endmember vectors (app/server.py:292-294). They are floating-point data feeding only the discarded unmixing result; each vector has 78 entries.
- The Earth Engine reduction itself: the collection select and sort, `reduceRegion` at 20000 m, and `getInfo` (app/server.py:233-245). Its answer is an input to the model. The ascending time order is an assumption about that answer (`TimesAscending`), since the server never checks it.
- `MainHandler`, Jinja templating, webapp2 routing, service-account credentials and `ee.Initialize` (app/server.py:78-90, 107-112, 302, 308-316). These are platform and setup code.
- `os.listdir` is left out: the folder listing is a parameter. Joining the path with the script directory (app/server.py:261) is not modelled either; geometry paths stay relative.
- The geometry content and `ee.Feature` construction are not modelled. The environment only says which paths open and parse. An `ee.Feature` rejection raised as an EE exception is folded into the remote answer.
- The `Content-Type: application/json` header and the write to the response stream (app/server.py:103-104) are not modelled; the reply carries the body only.
- JSON printing details are left out: key order, float formatting and string escaping.
- The message of an escaping exception (`IOError`, `ValueError`, `KeyError`, a transport error) is left out; only its kind is kept.
- Server.Miss: EE exception messages are taken to be ASCII. Under Python 2, `str(e)` at line 225 raises `UnicodeEncodeError` for a unicode message with non-ASCII characters, and that error escapes the handler; the model answers with the message instead.
- Memcache timing is not modelled. Expiry and eviction are the removal of an entry at an arbitrary moment (`Memcache.Expire`).
- Ids are taken to be ASCII. In Python 2, `os.listdir` on a byte-string path returns byte strings (app/server.py:306), while the request parameter is a unicode string (app/server.py:98); for a non-ASCII file name the membership test at line 99 fails. The model compares strings as characters and does not model this bytes/unicode comparison.
- Concurrency between requests is left out. The one interleaving that matters, another request adding the id between lookup and add, is covered by letting `Server.Miss` take the cache as seen at add time.
- Memcache service failures are not modelled. A failing `get` behaves like a miss, and the return value of `add` is ignored by the code.
- The commented-out night-time-lights trend code (app/server.py:191-206) is not part of the model.
- Text.ReplaceCharLength: stated only for three-character replacements, the case `"%20"` needs, because the general product form is beyond what the solver handles cheaply.
