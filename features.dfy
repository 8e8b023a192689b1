/** The GeoJSON point features handed to the map: one per heat position with
    empty properties, and one per pin position carrying its tooltip. The
    geometry lists longitude before latitude. */
module Features {
  import opened Inputs
  import opened Tooltip

  /** A point feature: its property bag and its `[lng, lat]` coordinates. */
  datatype Feature<V> = Feature(properties: map<string, string>, coordinates: seq<V>)

  /** The heat layer's features, in the order of the heat positions. */
  function HeatFeatures<V>(heat: seq<Coord<V>>): (r: seq<Feature<V>>)
    ensures |r| == |heat|
    ensures forall i :: 0 <= i < |r| ==> r[i].properties == map[]
    ensures forall i :: 0 <= i < |r| ==> r[i].coordinates == [heat[i].lng, heat[i].lat]
  {
    if heat == [] then []
    else [Feature(map[], [heat[0].lng, heat[0].lat])] + HeatFeatures(heat[1..])
  }

  /** The pin layer's features: pin `i` carries the tooltip of row `i`.
      Mapping over the pins reads the configured tooltip ids once per pin, so
      an unset tooltip list fails (`None`) exactly when there is a pin. */
  function PinFeatures<V>(pins: seq<Coord<V>>, ids: Option<seq<string>>, data: Dataset<V>,
                          columns: Columns, show: V -> string): (r: Option<seq<Feature<V>>>)
    requires HasRows(data, |pins|)
    ensures r.None? <==> ids.None? && pins != []
    ensures r.Some? ==> |r.value| == |pins|
    ensures r.Some? ==> forall i :: 0 <= i < |pins| ==>
      r.value[i].coordinates == [pins[i].lng, pins[i].lat]
    ensures r.Some? && ids.Some? ==> forall i :: 0 <= i < |pins| ==>
      r.value[i].properties == map["tooltip" := TooltipAt(ids.value, data, columns, i, show)]
  {
    if pins == [] then Some([])
    else if ids.None? then None
    else Some(seq(|pins|, i requires 0 <= i < |pins| =>
      Feature(map["tooltip" := TooltipAt(ids.value, data, columns, i, show)], [pins[i].lng, pins[i].lat])))
  }

  /** Reading a feature's geometry back as a position: `[lng, lat]`. */
  function Position<V>(f: Feature<V>): Option<Coord<V>> {
    if |f.coordinates| == 2 then Some(Coord(f.coordinates[1], f.coordinates[0])) else None
  }

  /** The positions of a list of features, if every geometry is a pair. */
  function Positions<V>(fs: seq<Feature<V>>): Option<seq<Coord<V>>> {
    if fs == [] then Some([])
    else match (Position(fs[0]), Positions(fs[1..]))
      case (Some(c), Some(cs)) => Some([c] + cs)
      case _ => None
  }

  /** Features whose geometries are the `[lng, lat]` of some positions read
      back as exactly those positions. */
  lemma {:induction false} PositionsOfAligned<V>(fs: seq<Feature<V>>, cs: seq<Coord<V>>)
    requires |fs| == |cs|
    requires forall i :: 0 <= i < |fs| ==> fs[i].coordinates == [cs[i].lng, cs[i].lat]
    ensures Positions(fs) == Some(cs)
  {
    if fs != [] {
      PositionsOfAligned(fs[1..], cs[1..]);
      assert cs == [cs[0]] + cs[1..];
    }
  }

  /** The heat features place one point at every heat position, in order. */
  lemma HeatFeaturesRoundTrip<V>(heat: seq<Coord<V>>)
    ensures Positions(HeatFeatures(heat)) == Some(heat)
  {
    PositionsOfAligned(HeatFeatures(heat), heat);
  }

  /** The pin features place one point at every pin position, in order. */
  lemma PinFeaturesRoundTrip<V>(pins: seq<Coord<V>>, ids: seq<string>, data: Dataset<V>,
                                columns: Columns, show: V -> string)
    requires HasRows(data, |pins|)
    ensures PinFeatures(pins, Some(ids), data, columns, show).Some?
    ensures Positions(PinFeatures(pins, Some(ids), data, columns, show).value) == Some(pins)
  {
    PositionsOfAligned(PinFeatures(pins, Some(ids), data, columns, show).value, pins);
  }
}
