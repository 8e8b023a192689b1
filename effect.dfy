/** What an accepted effect run hands to the map: the features built from the
    positions the render gate decided to render. */
module Effect {
  import opened Inputs
  import opened Projection
  import opened RenderGate
  import opened Tooltip
  import opened Features

  /** Heat feature `i` of a render sits at row `i` of the heat element's
      longitude and latitude columns. */
  lemma RenderedHeatFeatures<V>(s: Snapshot<V>, c: Config, heat: Dataset<V>, point: Dataset<V>)
    requires Rectangular(heat) && Rectangular(point) && Ready(c, heat, point)
    requires Step(s, c, heat, point).0.Render?
    ensures var fs := HeatFeatures(Step(s, c, heat, point).0.heat);
      && |fs| == |heat[c.heatLat.value]|
      && forall i :: 0 <= i < |fs| ==>
           fs[i].properties == map[]
           && fs[i].coordinates == [heat[c.heatLng.value][i], heat[c.heatLat.value][i]]
  {
  }

  /** Pin feature `i` of a render takes both its coordinates and its tooltip
      from row `i` of the same point data. Building the pins fails exactly
      when the tooltip list is unset and the point element has a row. */
  lemma RenderedPinFeatures<V>(s: Snapshot<V>, c: Config, heat: Dataset<V>, point: Dataset<V>,
                               columns: Columns, show: V -> string)
    requires Rectangular(heat) && Rectangular(point) && Ready(c, heat, point)
    requires Step(s, c, heat, point).0.Render?
    ensures HasRows(point, |Step(s, c, heat, point).0.pins|)
    ensures var r := PinFeatures(Step(s, c, heat, point).0.pins, c.tooltip, point, columns, show);
      && (r.None? <==> c.tooltip.None? && |point[c.pointLat.value]| > 0)
      && (r.Some? ==> |r.value| == |point[c.pointLat.value]|)
      && (r.Some? ==> forall i :: 0 <= i < |r.value| ==>
            r.value[i].coordinates == [point[c.pointLng.value][i], point[c.pointLat.value][i]])
      && (r.Some? && c.tooltip.Some? ==> forall i :: 0 <= i < |r.value| ==>
            r.value[i].properties == map["tooltip" := TooltipAt(c.tooltip.value, point, columns, i, show)])
  {
    ProjectedRowsExist(point, c.pointLat.value, c.pointLng.value);
  }
}
