/** The tooltip of one pin: one fragment per configured tooltip column id,
    in configured order, joined with `<br>`. */
module Tooltip {
  import opened Inputs

  const Separator: string := "<br>"
  const UnknownPrefix: string := "Unknown ID: "
  const Missing: string := "N/A"

  /** The summed length of some strings. */
  function TotalLength(parts: seq<string>): nat {
    if parts == [] then 0 else |parts[0]| + TotalLength(parts[1..])
  }

  /** `Array.prototype.join`: the parts with `sep` between neighbours, so one
      separator fewer than there are parts. */
  function Join(parts: seq<string>, sep: string): (r: string)
    ensures parts == [] ==> r == ""
    ensures parts != [] ==> |r| == TotalLength(parts) + (|parts| - 1) * |sep|
  {
    if parts == [] then ""
    else if |parts| == 1 then parts[0]
    else parts[0] + sep + Join(parts[1..], sep)
  }

  /** `<strong>name</strong>: text` */
  function Labelled(name: string, text: string): string {
    "<strong>" + name + "</strong>: " + text
  }

  /** The fragment for column `id` at row `i`. The cell text is the cell
      rendered by `show` when the point data has the column and `N/A` when it
      does not; a column id without metadata yields `Unknown ID: <id>`
      whatever the data holds. */
  function Fragment<V>(id: string, data: Dataset<V>, columns: Columns, i: nat, show: V -> string): (r: string)
    requires HasRows(data, i + 1)
    ensures r != ""
    ensures id !in columns ==> r == UnknownPrefix + id
    ensures id in columns ==> |r| >= 8 && r[..8] == "<strong>"
  {
    var cell := if id in data then show(data[id][i]) else Missing;
    if id in columns then Labelled(columns[id].name, cell) else UnknownPrefix + id
  }

  /** `config.Tooltip.map(id => ...)`: one fragment per id, in order. */
  function Fragments<V>(ids: seq<string>, data: Dataset<V>, columns: Columns, i: nat, show: V -> string): (r: seq<string>)
    requires HasRows(data, i + 1)
    ensures |r| == |ids|
    ensures forall k :: 0 <= k < |ids| ==> r[k] == Fragment(ids[k], data, columns, i, show)
  {
    if ids == [] then [] else [Fragment(ids[0], data, columns, i, show)] + Fragments(ids[1..], data, columns, i, show)
  }

  /** The tooltip HTML of row `i`; empty exactly when no tooltip column is
      configured, since no fragment is empty. */
  function TooltipAt<V>(ids: seq<string>, data: Dataset<V>, columns: Columns, i: nat, show: V -> string): (r: string)
    requires HasRows(data, i + 1)
    ensures r == "" <==> ids == []
  {
    Join(Fragments(ids, data, columns, i, show), Separator)
  }

  /** Joining a concatenation puts one separator between the two joins. */
  lemma {:induction false} JoinAppend(p: seq<string>, q: seq<string>, sep: string)
    requires p != [] && q != []
    ensures Join(p + q, sep) == Join(p, sep) + sep + Join(q, sep)
  {
    if |p| == 1 {
      assert p + q == [p[0]] + q;
    } else {
      JoinAppend(p[1..], q, sep);
      assert (p + q)[1..] == p[1..] + q;
    }
  }

  /** No ids give the empty tooltip, one id gives exactly its fragment. */
  lemma TooltipOfFewIds<V>(id: string, data: Dataset<V>, columns: Columns, i: nat, show: V -> string)
    requires HasRows(data, i + 1)
    ensures TooltipAt([], data, columns, i, show) == ""
    ensures TooltipAt([id], data, columns, i, show) == Fragment(id, data, columns, i, show)
  {
  }

  /** The tooltip of a concatenation of id lists is the two tooltips with one
      `<br>` between them: fragments keep the configured order and
      multiplicity, nothing is sorted or removed. */
  lemma TooltipAppend<V>(a: seq<string>, b: seq<string>, data: Dataset<V>, columns: Columns, i: nat, show: V -> string)
    requires HasRows(data, i + 1) && a != [] && b != []
    ensures TooltipAt(a + b, data, columns, i, show)
         == TooltipAt(a, data, columns, i, show) + Separator + TooltipAt(b, data, columns, i, show)
  {
    var fa := Fragments(a, data, columns, i, show);
    var fb := Fragments(b, data, columns, i, show);
    var fab := Fragments(a + b, data, columns, i, show);
    forall k | 0 <= k < |fab| ensures fab[k] == (fa + fb)[k] {
      if k < |a| {
        assert (a + b)[k] == a[k];
      } else {
        assert (a + b)[k] == b[k - |a|];
      }
    }
    assert fab == fa + fb;
    JoinAppend(fa, fb, Separator);
  }

  /** The fragment announces an unknown id exactly when the column has no
      metadata. */
  lemma UnknownIffNoMetadata<V>(id: string, data: Dataset<V>, columns: Columns, i: nat, show: V -> string)
    requires HasRows(data, i + 1)
    ensures var f := Fragment(id, data, columns, i, show);
      (|f| >= |UnknownPrefix| && f[..|UnknownPrefix|] == UnknownPrefix) <==> id !in columns
  {
    var f := Fragment(id, data, columns, i, show);
    if id in columns {
      assert f[0] == '<';
    }
  }

  /** A column without metadata yields `Unknown ID: <id>` whatever the data
      holds. */
  lemma UnknownIgnoresData<V>(id: string, data: Dataset<V>, other: Dataset<V>, columns: Columns, i: nat, show: V -> string)
    requires HasRows(data, i + 1) && HasRows(other, i + 1) && id !in columns
    ensures Fragment(id, data, columns, i, show) == Fragment(id, other, columns, i, show) == "Unknown ID: " + id
  {
  }

  /** A column with metadata but absent from the point data shows `N/A`,
      whatever `show` would make of any cell. */
  lemma MissingColumnShowsNA<V>(id: string, data: Dataset<V>, columns: Columns, i: nat, show: V -> string)
    requires HasRows(data, i + 1) && id in columns && id !in data
    ensures TooltipAt([id], data, columns, i, show) == "<strong>" + columns[id].name + "</strong>: N/A"
  {
  }

  /** Two ids, the first known and present, the second without metadata. */
  lemma KnownThenUnknown<V>(a: string, b: string, data: Dataset<V>, columns: Columns, i: nat, show: V -> string)
    requires HasRows(data, i + 1) && a in columns && a in data && b !in columns
    ensures TooltipAt([a, b], data, columns, i, show)
         == "<strong>" + columns[a].name + "</strong>: " + show(data[a][i]) + "<br>Unknown ID: " + b
  {
    TooltipAppend([a], [b], data, columns, i, show);
  }
}
