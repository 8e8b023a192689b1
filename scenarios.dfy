/** A worked effect run: two heat rows, one pin with a one-column tooltip. */
module Scenarios {
  import opened Inputs
  import opened Projection
  import opened RenderGate
  import opened Tooltip
  import opened Features

  function ExampleConfig(): Config {
    Config(Some("pk.token"), Some("heat"), Some("lat"), Some("lng"), Some("points"),
           Some("lat"), Some("lng"), Some(["name"]), Some("streets-v11"), Some(".7"))
  }

  function ExampleHeat(): Dataset<string> {
    map["lat" := ["10", "20"], "lng" := ["1", "2"]]
  }

  function ExamplePoints(): Dataset<string> {
    map["lat" := ["15"], "lng" := ["1.5"], "name" := ["Foo"]]
  }

  function ExampleColumns(): Columns {
    map["name" := ColumnInfo("Name")]
  }

  /** A cell's text as it appears in a template literal. */
  function ShowText(s: string): string {
    s
  }

  /** The pin's tooltip labels the one configured column with its display
      name and shows its cell. */
  lemma ExamplePinFeatures()
    ensures HasRows(ExamplePoints(), 1)
    ensures PinFeatures([Coord("15", "1.5")], ExampleConfig().tooltip, ExamplePoints(), ExampleColumns(), ShowText)
         == Some([Feature(map["tooltip" := "<strong>Name</strong>: Foo"], ["1.5", "15"])])
  {
    var data := ExamplePoints();
    assert TooltipAt(["name"], data, ExampleColumns(), 0, ShowText) == "<strong>Name</strong>: Foo" by {
      TooltipOfFewIds("name", data, ExampleColumns(), 0, ShowText);
    }
    var r := PinFeatures([Coord("15", "1.5")], ExampleConfig().tooltip, data, ExampleColumns(), ShowText);
    assert r.Some? && |r.value| == 1;
    assert r.value[0] == Feature(map["tooltip" := "<strong>Name</strong>: Foo"], ["1.5", "15"]);
    assert r.value == [r.value[0]];
  }

  /** A fresh change detector renders the example on the first run, with the
      positions zipped from the columns, and skips an identical second run. */
  method ExampleRuns() returns (first: Decision<string>, second: Decision<string>)
    ensures first == Render([Coord("10", "1"), Coord("20", "2")], [Coord("15", "1.5")])
    ensures second == Skip
  {
    var detector := new ChangeDetector<string>();
    var heat, points := ExampleHeat(), ExamplePoints();
    assert Rectangular(heat) && Rectangular(points);
    first := detector.Update(ExampleConfig(), heat, points);
    second := detector.Update(ExampleConfig(), heat, points);
    SecondRunSkips(Initial(), ExampleConfig(), heat, points);
  }
}
