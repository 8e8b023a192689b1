# Layered heat map: render gate and data preparation

This project models the data-preparation and render-gate logic of the layered heat map plugin. In the source, that logic is the effect inside the `App` component (`src/App.js`). The plugin receives three things from its host analytics application:

- a configuration: an access token, two coordinate column ids per element, tooltip column ids, a style and an opacity;
- two element datasets, each a map from column id to an array of cells;
- the point element's column metadata.

On every effect run, the widget does the following:

1. **Presence gate.** Nothing happens unless the token and all four coordinate column ids are set. The four columns must also exist in their datasets.
2. **Coordinate projection.** The latitude and longitude columns of each element are zipped, index by index, into `{lng, lat}` positions.
3. **Change detection.** The two position lists and the configuration are compared with a snapshot of the last accepted render. The snapshot starts as `([], [], {})`. Only a difference leads to a render. On a render, all three snapshot cells are overwritten before any map work starts.
4. **Feature building.** On a render, the widget builds one heat feature per heat position. Each has empty properties and `[lng, lat]` coordinates. It also builds one pin feature per pin position. Each carries a tooltip made of one fragment per configured tooltip column, joined with `<br>`.

Modules:

- `Inputs` (inputs.dfy): the configuration record, datasets, column metadata and positions.
- `Projection` (projection.dfy): the zip.
- `RenderGate` (render_gate.dfy): the presence gate, the change detector as a pure `Step` function, and the `ChangeDetector` class. The class holds the three snapshot cells. Its `Update` method is proved equal to `Step`.
- `Tooltip` (tooltip.dfy): fragments and `join`.
- `Features` (features.dfy): heat and pin features.
- `Effect` (effect.dfy): the features an accepted run builds from the positions the gate rendered.
- `Scenarios` (scenarios.dfy): a worked run with two heat rows and one pin.

Modelling choices:

- **Cells.** A cell is of an equality-only type `V`. How a template literal turns a cell into text is the parameter `show: V -> string`.
- **Unset config fields.** An unset configuration field is `None`. An unset property disappears from `JSON.stringify` output, so the string comparison of two configurations becomes structural equality of the record. The initial `{}` is the record with every field `None`.
- **Truthiness.** A configuration string is truthy when it is set and not empty. A column lookup is truthy when the column exists: an array is truthy even when empty.
- **Tooltip list.** The tooltip id list is optional. `config.Tooltip.map` throws when the list is unset. It runs once per pin, though, so with no pins nothing throws. `PinFeatures` returns `None` in exactly that case.
- **Equal column lengths.** All columns of one dataset are assumed to have the same length (`Rectangular`). The host supplies its data this way. The code relies on it when it reads `lng[index]` and a tooltip cell at row `index`.

Notes on the code's behaviour:

- A coordinate column missing from its dataset skips the whole run (`src/App.js:49-54`).
- `N/A` appears only when the whole tooltip column is absent from the point data (`src/App.js:111`).
- A column id without metadata gives `Unknown ID: <id>`, whatever the data holds (`src/App.js:112-113`).
- The initial configuration snapshot is `{}`, so the first run that passes the gate renders (`src/App.js:40`).

## Model

| member | source | states |
|---|---|---|
| `Projection.Zip` | src/App.js:58-61 | the zip has the latitude column's length, and element `i` is `(lat[i], lng[i])` |
| `Projection.ZipUnzip` | src/App.js:66-69 | unzipping a zip gives back the latitude column and the paired prefix of the longitude column |
| `Projection.Project` | src/App.js:56-69 | an element's positions: one per row of the latitude column, each read from the two configured columns at the same row |
| `Projection.ProjectDeterminedByColumns` | src/App.js:56-69 | two rectangular datasets project to the same positions if and only if their two coordinate columns are equal; every other column is invisible |
| `RenderGate.Configured` | src/App.js:43-47 | the token and the four coordinate column ids are all set and non-empty; a configured record is never the initial `{}` |
| `RenderGate.Ready` | src/App.js:43-54 | configured, and the four coordinate columns exist in their datasets; an open gate implies a non-empty configuration and non-empty datasets |
| `RenderGate.Step` | src/App.js:42-79 | one effect run: a skip keeps the snapshot; a render happens only with the gate open and a snapshot that differs, carries one position per latitude row of each element, and makes (heat, pins, config) the new snapshot |
| `RenderGate.ClosedGateSkips` | src/App.js:43-54 | with the token or a coordinate column id unset, or a coordinate column missing from its dataset, nothing renders and the snapshot is unchanged |
| `RenderGate.RendersIffChanged` | src/App.js:72-79 | with the gate open, a run renders if and only if (heat positions, pin positions, config) differs from the snapshot; a render carries the current positions and makes that triple the snapshot; a skip keeps the snapshot |
| `RenderGate.SecondRunSkips` | src/App.js:72-79 | from any snapshot, a second run on the same inputs skips and keeps the snapshot, so two identical runs render at most once |
| `RenderGate.FirstOpenRunRenders` | src/App.js:38-47 | from the initial snapshot `([], [], {})`, the first run that passes the gate renders the current positions, because `{}` has no token |
| `RenderGate.HeatCoordinateEditRenders` | src/App.js:56-76 | after a run, overwriting one heat latitude or longitude cell with a different value makes the next run render |
| `RenderGate.PinCoordinateEditRenders` | src/App.js:63-76 | after a run, overwriting one pin latitude or longitude cell with a different value makes the next run render |
| `RenderGate.ConfigEditRenders` | src/App.js:72-76 | after a run, any different configuration that still passes the gate makes the next run render |
| `RenderGate.NonCoordinateEditSkips` | src/App.js:72-79 | after a run, overwriting a cell of a point column that is not a coordinate column (a tooltip column) does not render again, so the rendered tooltips keep their old text |
| `RenderGate.ChangeDetector.constructor` | src/App.js:38-40 | the snapshot cells start as two empty lists and the empty configuration |
| `RenderGate.ChangeDetector.Update` | src/App.js:42-79 | the decision and the new snapshot are those of `Step`; a closed gate or a skip leaves all three cells unchanged; a render stores exactly the rendered positions and the current configuration |
| `Tooltip.Join` | src/App.js:114 | `join` with a separator: empty for no parts, otherwise the parts' total length plus one separator fewer than there are parts |
| `Tooltip.Fragment` | src/App.js:111-113 | a fragment is never empty; an id without metadata gives exactly `Unknown ID: <id>`; an id with metadata gives a fragment starting with `<strong>` |
| `Tooltip.TooltipAt` | src/App.js:110-114 | the tooltip of row `i` is empty if and only if no tooltip column id is configured |
| `Tooltip.Fragments` | src/App.js:110-113 | one fragment per configured id, in configured order, fragment `k` built from id `k` |
| `Tooltip.JoinAppend` | src/App.js:114 | joining a concatenation of two non-empty lists puts exactly one separator between the two joins |
| `Tooltip.TooltipOfFewIds` | src/App.js:110-114 | no tooltip ids give the empty tooltip; one id gives exactly its fragment, with no separator |
| `Tooltip.TooltipAppend` | src/App.js:110-114 | the tooltip of ids `a + b` is the tooltip of `a`, then `<br>`, then the tooltip of `b`; fragments keep the configured order and multiplicity, with no sorting or deduplication |
| `Tooltip.UnknownIffNoMetadata` | src/App.js:112-113 | a fragment starts with `Unknown ID: ` if and only if the column id has no metadata |
| `Tooltip.UnknownIgnoresData` | src/App.js:111-113 | an id without metadata yields `Unknown ID: <id>` whatever the point data holds |
| `Tooltip.MissingColumnShowsNA` | src/App.js:111-113 | an id with metadata whose column is absent from the point data yields `<strong><name></strong>: N/A` |
| `Tooltip.KnownThenUnknown` | src/App.js:110-114 | ids `[a, b]`, with `a` known and present and `b` without metadata, give `<strong>a's name</strong>: <a's cell><br>Unknown ID: b` |
| `Features.HeatFeatures` | src/App.js:95-105 | one heat feature per heat position, in order, each with empty properties and coordinates `[lng, lat]` |
| `Features.PinFeatures` | src/App.js:107-127 | fails exactly when the tooltip list is unset and there is a pin; otherwise one feature per pin, index-aligned, with coordinates `[lng, lat]` and the property `tooltip` equal to row `i`'s tooltip |
| `Features.HeatFeaturesRoundTrip` | src/App.js:97-104 | reading the heat features' geometries back as `[lng, lat]` gives exactly the heat positions, in order |
| `Features.PinFeaturesRoundTrip` | src/App.js:109-125 | with a tooltip list set, reading the pin features' geometries back gives exactly the pin positions, in order |
| `Effect.RenderedHeatFeatures` | src/App.js:56-104 | after a render, heat feature `i` has empty properties and sits at `[lng[i], lat[i]]` of the heat element's coordinate columns, one feature per heat row |
| `Effect.RenderedPinFeatures` | src/App.js:63-124 | after a render, building the pins fails exactly when the tooltip list is unset and the point element has a row; otherwise pin feature `i` takes its coordinates `[lng[i], lat[i]]` and its tooltip from row `i` of the same point data, one feature per point row |
| `Scenarios.ExamplePinFeatures` | src/App.js:107-127 | the pin at `(15, 1.5)`, with tooltip column `name` (display name `Name`, cell `Foo`), gets the tooltip `<strong>Name</strong>: Foo` and coordinates `[1.5, 15]` |
| `Scenarios.ExampleRuns` | src/App.js:42-79 | a fresh detector renders the two heat positions and the one pin position on the first run, and skips an identical second run |

## Left out

- The bounding box (`src/App.js:83-86`). It folds all positions through the map library's `LngLatBounds.extend`, whose behaviour is not part of this model. It also seeds the box with `allCoordinates[0]`, which is undefined when both lists are empty.
- Map construction, `mapboxgl.accessToken`, `fitBounds`, `addSource`/`addLayer`, markers, popups and the `mouseenter`/`mouseleave` listeners (`src/App.js:82, 88-93, 129-204`). These are calls into the map library and the DOM. A consequence: the model does not capture that each accepted render builds a new map, nor what happens to layers added by earlier renders.
- The heatmap paint constants and `Number(config.Opacity)` (`src/App.js:144-179`). They are floating-point values passed to the renderer. The opacity and style strings take part in the configuration comparison only.
- The editor-panel registration (`src/App.js:12-28`) and the React hooks that fetch configuration, data and metadata and re-run the effect (`src/App.js:31-34, 208`). The model takes the fetched values as inputs to each run.
- `console.log` (`src/App.js:35`) and the map container element (`src/App.js:210`). These are I/O and UI.
- The exact `JSON.stringify` text: key order, and how `NaN` or `undefined` array entries serialise. Snapshot comparison is modelled as structural equality.
- `prevConfig.current = config` stores a reference to the host's configuration object. The model stores its value, so later mutation of that object by the host is not modelled.
- How a cell becomes text in a template literal. It is the parameter `show`.
- Columns of unequal length within one dataset. These would make JavaScript read `undefined` cells. The model excludes them by `Rectangular`/`HasRows` preconditions.
- The throw of `config.Tooltip.map` on an unset tooltip list (`src/App.js:110`). `PinFeatures` reports it as `None`. In the program the throw escapes the effect, so the component instance and its snapshot cells are discarded; a remount starts again from `([], [], {})`. `Step` does not model this failure, so on this path `RendersIffChanged` and `SecondRunSkips` describe the model only.
- Column ids that name inherited JavaScript object properties (such as `constructor`). The source's lookups into the datasets and the column metadata are plain property reads and would find those; the model assumes column ids never take such names.
