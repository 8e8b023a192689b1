/** The coordinate projector: a latitude column and a longitude column of one
    element zipped index by index into a list of positions. */
module Projection {
  import opened Inputs

  /** `lat.map((lat, index) => ({ lng: lng[index], lat }))`: one position per
      latitude cell, paired with the longitude cell at the same index. */
  function Zip<V>(lat: seq<V>, lng: seq<V>): (r: seq<Coord<V>>)
    requires |lat| <= |lng|
    ensures |r| == |lat|
    ensures forall i :: 0 <= i < |r| ==> r[i] == Coord(lat[i], lng[i])
  {
    if lat == [] then [] else [Coord(lat[0], lng[0])] + Zip(lat[1..], lng[1..])
  }

  /** The latitudes of a list of positions, in order. */
  function Lats<V>(cs: seq<Coord<V>>): seq<V> {
    if cs == [] then [] else [cs[0].lat] + Lats(cs[1..])
  }

  /** The longitudes of a list of positions, in order. */
  function Lngs<V>(cs: seq<Coord<V>>): seq<V> {
    if cs == [] then [] else [cs[0].lng] + Lngs(cs[1..])
  }

  /** Unzipping recovers the latitude column and the part of the longitude
      column that was paired with it. */
  lemma {:induction false} ZipUnzip<V>(lat: seq<V>, lng: seq<V>)
    requires |lat| <= |lng|
    ensures Lats(Zip(lat, lng)) == lat
    ensures Lngs(Zip(lat, lng)) == lng[..|lat|]
  {
    if lat != [] {
      ZipUnzip(lat[1..], lng[1..]);
      assert lat == [lat[0]] + lat[1..];
      assert lng[..|lat|] == [lng[0]] + lng[1..][..|lat| - 1];
    }
  }

  /** The positions of an element's rows, read from its configured latitude
      and longitude columns. */
  function Project<V>(d: Dataset<V>, latId: string, lngId: string): (r: seq<Coord<V>>)
    requires Rectangular(d) && latId in d && lngId in d
    ensures |r| == |d[latId]|
    ensures forall i :: 0 <= i < |r| ==> r[i].lat == d[latId][i] && r[i].lng == d[lngId][i]
  {
    Zip(d[latId], d[lngId])
  }

  /** Every column of the element has a row for each projected position. */
  lemma ProjectedRowsExist<V>(d: Dataset<V>, latId: string, lngId: string)
    requires Rectangular(d) && latId in d && lngId in d
    ensures HasRows(d, |Project(d, latId, lngId)|)
  {
  }

  /** Two elements project to the same positions exactly when their two
      coordinate columns agree; every other column is invisible. */
  lemma ProjectDeterminedByColumns<V>(d: Dataset<V>, e: Dataset<V>, latId: string, lngId: string)
    requires Rectangular(d) && latId in d && lngId in d
    requires Rectangular(e) && latId in e && lngId in e
    ensures Project(d, latId, lngId) == Project(e, latId, lngId)
        <==> d[latId] == e[latId] && d[lngId] == e[lngId]
  {
    if Project(d, latId, lngId) == Project(e, latId, lngId) {
      ZipUnzip(d[latId], d[lngId]);
      ZipUnzip(e[latId], e[lngId]);
      assert d[lngId][..|d[latId]|] == d[lngId];
      assert e[lngId][..|e[latId]|] == e[lngId];
    }
  }
}
