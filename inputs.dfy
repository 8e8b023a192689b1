/** The inputs the widget receives from its host on every effect run: the
    plugin configuration, the two element datasets (column id -> column of
    cells) and the column metadata of the point element. */
module Inputs {

  datatype Option<T> = None | Some(value: T)

  /** One row's position: the `{ lng, lat }` object built while zipping the
      two coordinate columns. Cells are of an equality-only type `V`; nothing
      in the core does arithmetic on them. */
  datatype Coord<V> = Coord(lat: V, lng: V)

  /** An element's data: column id -> the column's cells, one per row. */
  type Dataset<V> = map<string, seq<V>>

  /** Column metadata of the point element; only the display name is used. */
  datatype ColumnInfo = ColumnInfo(name: string)

  type Columns = map<string, ColumnInfo>

  /** The plugin configuration. A field the host has not set is `None`
      (an `undefined` property, which serialises as an absent key). */
  datatype Config = Config(
    token: Option<string>,
    heatSource: Option<string>,
    heatLat: Option<string>,
    heatLng: Option<string>,
    pointSource: Option<string>,
    pointLat: Option<string>,
    pointLng: Option<string>,
    tooltip: Option<seq<string>>,
    mapStyle: Option<string>,
    opacity: Option<string>)

  /** The empty object `{}` the configuration snapshot starts from. */
  const EmptyConfig: Config :=
    Config(None, None, None, None, None, None, None, None, None, None)

  /** JavaScript truthiness of an optional string: set and not empty. */
  predicate Truthy(o: Option<string>) {
    o.Some? && o.value != ""
  }

  /** The host hands over columns of one element that all have the same
      number of rows. */
  predicate Rectangular<V>(d: Dataset<V>) {
    forall a, b :: a in d && b in d ==> |d[a]| == |d[b]|
  }

  /** Every column of `d` has at least `n` rows. */
  predicate HasRows<V>(d: Dataset<V>, n: nat) {
    forall id :: id in d ==> n <= |d[id]|
  }

  /** The data after one cell is overwritten. */
  function EditCell<V>(d: Dataset<V>, col: string, i: nat, v: V): (r: Dataset<V>)
    requires col in d && i < |d[col]|
    ensures r.Keys == d.Keys
    ensures forall id :: id in r ==> |r[id]| == |d[id]|
    ensures r[col][i] == v
    ensures forall id :: id in r && id != col ==> r[id] == d[id]
  {
    d[col := d[col][i := v]]
  }

  lemma EditKeepsRectangular<V>(d: Dataset<V>, col: string, i: nat, v: V)
    requires Rectangular(d) && col in d && i < |d[col]|
    ensures Rectangular(EditCell(d, col, i, v))
  {
  }
}
