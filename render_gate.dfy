/** The render gate of the widget's effect: a presence check on the
    configuration and the data, followed by a change detector that compares
    the freshly projected positions and the configuration with the snapshot
    of the last accepted render. */
module RenderGate {
  import opened Inputs
  import opened Projection

  /** The last accepted (heat positions, pin positions, configuration). */
  datatype Snapshot<V> = Snapshot(heat: seq<Coord<V>>, pins: seq<Coord<V>>, config: Config)

  /** What one effect run decides: nothing, or a render of these positions. */
  datatype Decision<V> = Skip | Render(heat: seq<Coord<V>>, pins: seq<Coord<V>>)

  /** The snapshot before the first render: two empty lists and `{}`. */
  function Initial<V>(): Snapshot<V> {
    Snapshot([], [], EmptyConfig)
  }

  /** The token and all four coordinate column ids are set. */
  predicate Configured(c: Config)
    ensures Configured(c) ==> c != EmptyConfig
  {
    Truthy(c.token) && Truthy(c.heatLat) && Truthy(c.heatLng)
    && Truthy(c.pointLat) && Truthy(c.pointLng)
  }

  /** The presence gate: configured, and the four coordinate columns exist in
      their elements' data. */
  predicate Ready<V>(c: Config, heat: Dataset<V>, point: Dataset<V>)
    ensures Ready(c, heat, point) ==> c != EmptyConfig && heat != map[] && point != map[]
  {
    Configured(c)
    && c.heatLat.value in heat && c.heatLng.value in heat
    && c.pointLat.value in point && c.pointLng.value in point
  }

  /** One effect run, as a function of the snapshot and the inputs: the
      decision and the snapshot afterwards. */
  function Step<V(==)>(s: Snapshot<V>, c: Config, heat: Dataset<V>, point: Dataset<V>): (r: (Decision<V>, Snapshot<V>))
    requires Rectangular(heat) && Rectangular(point)
    ensures r.0 == Skip ==> r.1 == s
    ensures r.0.Render? ==> Ready(c, heat, point) && r.1 != s
    ensures r.0.Render? ==> r.1 == Snapshot(r.0.heat, r.0.pins, c)
    ensures r.0.Render? ==> |r.0.heat| == |heat[c.heatLat.value]| && |r.0.pins| == |point[c.pointLat.value]|
  {
    if !Ready(c, heat, point) then (Skip, s)
    else
      var h := Project(heat, c.heatLat.value, c.heatLng.value);
      var p := Project(point, c.pointLat.value, c.pointLng.value);
      if h != s.heat || p != s.pins || c != s.config then (Render(h, p), Snapshot(h, p, c))
      else (Skip, s)
  }

  /** The positions an effect run projects when the gate is open. */
  function HeatOf<V>(c: Config, heat: Dataset<V>, point: Dataset<V>): (r: seq<Coord<V>>)
    requires Rectangular(heat) && Ready(c, heat, point)
    ensures |r| == |heat[c.heatLat.value]|
  {
    Project(heat, c.heatLat.value, c.heatLng.value)
  }

  function PinsOf<V>(c: Config, heat: Dataset<V>, point: Dataset<V>): (r: seq<Coord<V>>)
    requires Rectangular(point) && Ready(c, heat, point)
    ensures |r| == |point[c.pointLat.value]|
  {
    Project(point, c.pointLat.value, c.pointLng.value)
  }

  /** A closed gate renders nothing and leaves the snapshot alone. */
  lemma ClosedGateSkips<V>(s: Snapshot<V>, c: Config, heat: Dataset<V>, point: Dataset<V>)
    requires Rectangular(heat) && Rectangular(point)
    requires !Ready(c, heat, point)
    ensures Step(s, c, heat, point) == (Skip, s)
  {
  }

  /** With the gate open, a run renders if and only if the current triple
      differs from the snapshot; a render carries the current positions and
      makes the current triple the snapshot, a skip keeps the snapshot. */
  lemma RendersIffChanged<V>(s: Snapshot<V>, c: Config, heat: Dataset<V>, point: Dataset<V>)
    requires Rectangular(heat) && Rectangular(point) && Ready(c, heat, point)
    ensures var current := Snapshot(HeatOf(c, heat, point), PinsOf(c, heat, point), c);
      && (Step(s, c, heat, point).0.Render? <==> current != s)
      && (current != s ==>
            Step(s, c, heat, point) == (Render(current.heat, current.pins), current))
      && (current == s ==> Step(s, c, heat, point) == (Skip, s))
  {
  }

  /** Running twice on the same inputs renders at most once: the second run
      finds its own snapshot and skips. */
  lemma SecondRunSkips<V>(s: Snapshot<V>, c: Config, heat: Dataset<V>, point: Dataset<V>)
    requires Rectangular(heat) && Rectangular(point)
    ensures var s1 := Step(s, c, heat, point).1;
      Step(s1, c, heat, point) == (Skip, s1)
  {
  }

  /** The first run that passes the gate always renders: `{}` has no token. */
  lemma FirstOpenRunRenders<V>(c: Config, heat: Dataset<V>, point: Dataset<V>)
    requires Rectangular(heat) && Rectangular(point) && Ready(c, heat, point)
    ensures Step(Initial(), c, heat, point).0
         == Render(HeatOf(c, heat, point), PinsOf(c, heat, point))
  {
    assert c.token != EmptyConfig.token;
  }

  /** After a render, overwriting one latitude or longitude cell of the heat
      element with a different value renders again. */
  lemma HeatCoordinateEditRenders<V>(s: Snapshot<V>, c: Config, heat: Dataset<V>, point: Dataset<V>,
                                        col: string, i: nat, v: V)
    requires Rectangular(heat) && Rectangular(point) && Ready(c, heat, point)
    requires col == c.heatLat.value || col == c.heatLng.value
    requires i < |heat[col]| && heat[col][i] != v
    ensures Rectangular(EditCell(heat, col, i, v))
    ensures Step(Step(s, c, heat, point).1, c, EditCell(heat, col, i, v), point).0.Render?
  {
    var edited := EditCell(heat, col, i, v);
    EditKeepsRectangular(heat, col, i, v);
    ProjectDeterminedByColumns(heat, edited, c.heatLat.value, c.heatLng.value);
    assert heat[col] != edited[col];
  }

  /** The same for the point element's latitude or longitude columns. */
  lemma PinCoordinateEditRenders<V>(s: Snapshot<V>, c: Config, heat: Dataset<V>, point: Dataset<V>,
                                       col: string, i: nat, v: V)
    requires Rectangular(heat) && Rectangular(point) && Ready(c, heat, point)
    requires col == c.pointLat.value || col == c.pointLng.value
    requires i < |point[col]| && point[col][i] != v
    ensures Rectangular(EditCell(point, col, i, v))
    ensures Step(Step(s, c, heat, point).1, c, heat, EditCell(point, col, i, v)).0.Render?
  {
    var edited := EditCell(point, col, i, v);
    EditKeepsRectangular(point, col, i, v);
    ProjectDeterminedByColumns(point, edited, c.pointLat.value, c.pointLng.value);
    assert point[col] != edited[col];
  }

  /** After a render, any different configuration that still passes the gate
      renders again. */
  lemma ConfigEditRenders<V>(s: Snapshot<V>, c: Config, c': Config, heat: Dataset<V>, point: Dataset<V>)
    requires Rectangular(heat) && Rectangular(point)
    requires Ready(c, heat, point) && Ready(c', heat, point) && c' != c
    ensures Step(Step(s, c, heat, point).1, c', heat, point).0.Render?
  {
  }

  /** After a render, overwriting a cell of a point column that is not a
      coordinate column (a tooltip column, say) does not render again: the
      snapshot holds positions and configuration only, so the rendered
      tooltips keep their old values. */
  lemma NonCoordinateEditSkips<V>(s: Snapshot<V>, c: Config, heat: Dataset<V>, point: Dataset<V>,
                                     col: string, i: nat, v: V)
    requires Rectangular(heat) && Rectangular(point) && Ready(c, heat, point)
    requires col in point && col != c.pointLat.value && col != c.pointLng.value
    requires i < |point[col]|
    ensures Rectangular(EditCell(point, col, i, v))
    ensures Step(Step(s, c, heat, point).1, c, heat, EditCell(point, col, i, v)).0 == Skip
  {
    var edited := EditCell(point, col, i, v);
    EditKeepsRectangular(point, col, i, v);
    ProjectDeterminedByColumns(point, edited, c.pointLat.value, c.pointLng.value);
  }

  /** The change detector's state: the three `useRef` snapshot cells. */
  class ChangeDetector<V(==)> {
    var prevHeat: seq<Coord<V>>
    var prevPins: seq<Coord<V>>
    var prevConfig: Config

    function Current(): Snapshot<V>
      reads this
    {
      Snapshot(prevHeat, prevPins, prevConfig)
    }

    constructor ()
      ensures Current() == Initial()
    {
      prevHeat := [];
      prevPins := [];
      prevConfig := EmptyConfig;
    }

    /** One effect run: check presence, project both elements, compare with
        the snapshot and, on a change, overwrite all three snapshot cells
        before anything is rendered. */
    method Update(c: Config, heat: Dataset<V>, point: Dataset<V>) returns (d: Decision<V>)
      requires Rectangular(heat) && Rectangular(point)
      modifies this
      ensures (d, Current()) == Step(old(Current()), c, heat, point)
      ensures !Ready(c, heat, point) ==> d == Skip && Current() == old(Current())
      ensures d.Render? ==> Current() == Snapshot(d.heat, d.pins, c)
      ensures d == Skip ==> Current() == old(Current())
    {
      d := Skip;
      if Truthy(c.token) && Truthy(c.heatLat) && Truthy(c.heatLng)
         && Truthy(c.pointLat) && Truthy(c.pointLng)
      {
        if c.heatLat.value in heat && c.heatLng.value in heat
           && c.pointLat.value in point && c.pointLng.value in point
        {
          var heatCoords := Project(heat, c.heatLat.value, c.heatLng.value);
          var pinCoords := Project(point, c.pointLat.value, c.pointLng.value);
          if prevHeat != heatCoords || prevPins != pinCoords || prevConfig != c {
            prevHeat := heatCoords;
            prevPins := pinCoords;
            prevConfig := c;
            d := Render(heatCoords, pinCoords);
          }
        }
      }
    }
  }
}
