/** Polygon ids and the GeoJSON files they come from.

    At start-up the server lists the polygon folder and turns every file
    name into an id by deleting each ".json" in it; a detail request later
    rebuilds the file's path from the id by appending ".json". */
module Polygons {
  import opened Text

  /** The folder holding one GeoJSON file per polygon. */
  const PolygonPath: string := "static/polygons/"

  const GeoJsonSuffix: string := ".json"

  /** The id derived from a file name: every ".json" in it is removed, not
      only a trailing one. The name is returned unchanged exactly when it
      holds no ".json"; otherwise at least one ".json" worth of characters
      is gone. */
  function PolygonId(filename: string): (id: string)
    ensures id == filename <==> !Contains(filename, GeoJsonSuffix)
    ensures Contains(filename, GeoJsonSuffix) ==> |id| <= |filename| - |GeoJsonSuffix|
  {
    ReplaceAll(filename, GeoJsonSuffix, "")
  }

  /** The ids of a folder listing, in listing order. */
  function PolygonIds(listing: seq<string>): (ids: seq<string>)
    ensures |ids| == |listing|
    ensures forall i :: 0 <= i < |listing| ==> ids[i] == PolygonId(listing[i])
  {
    seq(|listing|, i requires 0 <= i < |listing| => PolygonId(listing[i]))
  }

  /** The path the geometry of a polygon is read from: a file in the
      polygon folder, ending in ".json", from which the id can be read back,
      so distinct ids read distinct files. */
  function GeometryPath(id: string): (path: string)
    ensures |path| == |PolygonPath| + |id| + |GeoJsonSuffix|
    ensures path[..|PolygonPath|] == PolygonPath
    ensures path[|path| - |GeoJsonSuffix|..] == GeoJsonSuffix
    ensures path[|PolygonPath|..|path| - |GeoJsonSuffix|] == id
  {
    PolygonPath + id + GeoJsonSuffix
  }

  /** A file name of the shape the folder is meant to hold: a base name
      without ".json", followed by ".json". */
  predicate WellNamed(filename: string)
  {
    && |filename| >= |GeoJsonSuffix|
    && filename[|filename| - |GeoJsonSuffix|..] == GeoJsonSuffix
    && !Contains(filename[..|filename| - |GeoJsonSuffix|], GeoJsonSuffix)
  }

  /** Deleting ".json" from `x + ".json"` gives back `x` when `x` holds no
      ".json": no occurrence can straddle the join, because ".json" has no
      proper prefix that is also a suffix. */
  lemma {:induction false} StripSuffix(x: string)
    requires !Contains(x, GeoJsonSuffix)
    ensures PolygonId(x + GeoJsonSuffix) == x
  {
    var s := x + GeoJsonSuffix;
    if x == [] {
      assert s == GeoJsonSuffix;
      assert s[5..] == [];
    } else {
      if |x| >= 5 {
        assert s[..5] == x[..5];
      } else {
        assert s[|x|] == '.';
        assert s[..5][|x|] == '.';
        assert GeoJsonSuffix[|x|] != '.';
      }
      assert s[..5] != GeoJsonSuffix;
      assert !Contains(x[1..], GeoJsonSuffix);
      assert s[1..] == x[1..] + GeoJsonSuffix;
      StripSuffix(x[1..]);
      assert s == [x[0]] + s[1..];
    }
  }

  /** For a well-named file the id/path round trip holds: the id is the
      base name and the geometry is read back from that very file. */
  lemma IdPathRoundTrip(filename: string)
    requires WellNamed(filename)
    ensures var base := filename[..|filename| - |GeoJsonSuffix|];
      && PolygonId(filename) == base
      && GeometryPath(PolygonId(filename)) == PolygonPath + filename
  {
    var base := filename[..|filename| - |GeoJsonSuffix|];
    assert filename == base + GeoJsonSuffix;
    StripSuffix(base);
  }

  /** Every id of a folder of well-named files leads back to its own file. */
  lemma ListingRoundTrip(listing: seq<string>)
    requires forall i :: 0 <= i < |listing| ==> WellNamed(listing[i])
    ensures forall i :: 0 <= i < |listing| ==>
      GeometryPath(PolygonIds(listing)[i]) == PolygonPath + listing[i]
  {
    forall i | 0 <= i < |listing|
      ensures GeometryPath(PolygonIds(listing)[i]) == PolygonPath + listing[i]
    {
      IdPathRoundTrip(listing[i]);
    }
  }

  /** A ".json" inside the base name is deleted as well, so the path built
      from the id names a different file. */
  lemma InnerSuffixBreaksRoundTrip()
    ensures PolygonId("a.json.json") == "a"
    ensures GeometryPath(PolygonId("a.json.json")) != PolygonPath + "a.json.json"
  {
    var name := "a.json.json";
    assert name[..5][0] != GeoJsonSuffix[0];
    assert name[1..] == GeoJsonSuffix + GeoJsonSuffix;
    assert PolygonId(GeoJsonSuffix + GeoJsonSuffix) == "" by {
      var twice := GeoJsonSuffix + GeoJsonSuffix;
      assert twice[..5] == GeoJsonSuffix && twice[5..] == "" + GeoJsonSuffix;
      StripSuffix("");
    }
    assert PolygonId(name) == [name[0]] + PolygonId(name[1..]);
    assert |GeometryPath("a")| != |PolygonPath + name|;
  }

  /** A name without a dot cannot hold ".json". */
  lemma {:induction false} DotFreeHasNoSuffix(name: string)
    requires '.' !in name
    ensures !Contains(name, GeoJsonSuffix)
    ensures PolygonId(name) == name
  {
    if |name| >= |GeoJsonSuffix| {
      assert name[..5][0] != GeoJsonSuffix[0];
      DotFreeHasNoSuffix(name[1..]);
    }
  }

  /** A file without the suffix keeps its whole name as id, and the path
      built from that id has an extra ".json". */
  lemma MissingSuffixBreaksRoundTrip()
    ensures PolygonId("README") == "README"
    ensures GeometryPath(PolygonId("README")) == PolygonPath + "README.json"
  {
  }

  /** Deleting can splice a new ".json" together, so deriving an id twice
      is not the same as deriving it once. */
  lemma DerivationNotIdempotent()
    ensures PolygonId(".j.jsonson") == ".json"
    ensures PolygonId(PolygonId(".j.jsonson")) == ""
  {
    var name := ".j.jsonson";
    assert name[..5][2] != GeoJsonSuffix[2];
    assert name[1..][..5][0] != GeoJsonSuffix[0];
    assert name[2..][..5] == GeoJsonSuffix;
    var tail := name[2..][5..];
    assert tail == "son";
    assert ReplaceAll(tail, GeoJsonSuffix, "") == "son";
    assert ReplaceAll(name[2..], GeoJsonSuffix, "") == "" + "son";
    assert ReplaceAll(name[1..], GeoJsonSuffix, "") == [name[1]] + "son";
    assert ReplaceAll(name, GeoJsonSuffix, "") == [name[0]] + [name[1]] + "son";
    assert [name[0]] + [name[1]] + "son" == ".json";
    StripSuffix("");
    assert "" + GeoJsonSuffix == ".json";
  }
}
