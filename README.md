# TPO letter annotations: pane view and renderer

This project models the two components of the chart library that lay out, draw and
hit-test TPO ("time price opportunity") letters on a price chart. It proves properties
about both.

- **`SeriesTPOsPaneView`** (module `TposPaneView`, class `SeriesTposPaneView`) is a small
  invalidation state machine with three flags: layout stale, data stale and margins stale.
  It also caches the auto-scale margins. Its validation pass does two things:
  - It rebuilds the render items, one per indexed TPO profile, when the data is stale.
  - It lays out the letters of every profile in the visible index range on a fixed
    lattice. Each lettered TPO gets `x = indexToCoordinate(time) + 10 * column` and
    `y = priceToCoordinate(price, firstValue)`.
- **`SeriesTPOsRenderer`** (module `TposRenderer`, class `SeriesTposRenderer`) holds three
  things: a reference to the render data the view owns, the font parameters, and a
  text-width cache. Its draw pass fills in each visible text's width and height in place
  and draws the text centred on its `x`. Its hit test returns the ids of the first visible
  item, in index order, that has a text containing the point.
- The entities the pane view reads are datatypes in module `SeriesTpos`: a profile, its
  periods, each period's letter, and its TPOs with price and optional column.

The chart's collaborators are passed to each call as a `Chart` value:
- the series' visibility, profiles and first value;
- the time scale's bar spacing, visible strict range and index-to-x conversion;
- the price scale's price-to-y conversion;
- the visible-range lookup over the items' times;
- the shape size and margin rules;
- the layout font.

The conversions and rules are function-typed fields, left uninterpreted. The renderer's
text measurement and font builder are function-typed constants of the renderer. The
render data is a class, `RendererData`, so the view and the renderer share one object,
as they do in the source. Items and texts are values in its `items` sequence. An in-place
write to an item's texts or to a text's width/height becomes a replacement of that
element of `items`.

The code lays TPO letters out on a fixed column/row lattice. It does not stack markers
above or below the bar to avoid overlap, although the component's design describes such
stacking. The model follows the code:
- The per-bar `aboveBar`/`belowBar` offsets are reset at each new time and never read.
- In `MakeValid` they are local variables whose loop invariant proves that they always
  equal the shape margin.
- A profile's `position` is never read.

The period shape also follows the code rather than the declarations: the pane view reads
`period.letter` and `period.tpos[k].column`/`price`, while src/model/series-tpos.ts
declares `prices: Number[]`.

## Model

| member | source | states |
|---|---|---|
| `TposPaneView.SeriesTposPaneView.constructor` | src/views/pane/series-tpos-pane-view.ts:30-45 | All three staleness flags start true, no margins are cached, the render data is empty with no range, and the renderer holds no data yet |
| `TposRenderer.RendererData.constructor` | src/views/pane/series-tpos-pane-view.ts:41-44 | The render data starts with no items and no visible range |
| `TposPaneView.SeriesTposPaneView.Update` | src/views/pane/series-tpos-pane-view.ts:47-53 | The layout and margin flags always become stale. The data flag becomes stale on a data update and otherwise keeps its value |
| `TposPaneView.SeriesTposPaneView.Renderer` | src/views/pane/series-tpos-pane-view.ts:55-69 | A hidden series yields no renderer and changes nothing. Otherwise the view validates only when stale, passes the current font (with the cache-reset rule of `SetParams`), and hands over its own data object (no copy) |
| `TposPaneView.SeriesTposPaneView.AutoScaleMargins` | src/views/pane/series-tpos-pane-view.ts:71-89 | When stale: `1.5 * shapeHeight + 2 * shapeMargin` on both sides if there are profiles, none otherwise. The flag is then cleared, so later calls return the cached value until the next update |
| `TposPaneView.SeriesTposPaneView.MakeValid` | src/views/pane/series-tpos-pane-view.ts:91-153 | The render data becomes `ValidatedData` of the chart, the old items and the old data flag. The data flag is cleared. The layout flag is cleared only when the pass reached the layout loop and stays as it was on an early return |
| `TposPaneView.ValidatedData` | src/views/pane/series-tpos-pane-view.ts:95-152 | After a rebuild there is one item per profile with its time, internal id and external id (undefined included), `x = y = 0` and no letters; without a rebuild the old items are kept except for their letters. The range is none exactly when there are no visible bars, no first value or no items; otherwise it is the lookup's range, within the items. Items in the range get their profile's lattice letters; the others keep their letters |
| `TposPaneView.LaidOut` | src/views/pane/series-tpos-pane-view.ts:127-151 | The layout pass replaces the letters of exactly the items in `[from, to)` with their profiles' lattice letters. It never changes an item's time, `x`, `y` or ids, nor any item outside the range |
| `TposPaneView.LayOutProfile` | src/views/pane/series-tpos-pane-view.ts:136-150 | The nested push loops produce `ProfileTexts`: the lattice letters in period-then-TPO order |
| `TposPaneView.ProfileTextsExactly` | src/views/pane/series-tpos-pane-view.ts:138-150 | A text is among a profile's letters if and only if it is the lattice text of some TPO with a column in a period with a non-empty letter: its period's letter, at `x0 + 10 * column` and at the TPO's price |
| `TposPaneView.PeriodTextsExactly` | src/views/pane/series-tpos-pane-view.ts:139-149 | The same two-way characterisation for the TPOs of one period |
| `TposPaneView.UnletteredPeriodHasNoTexts` | src/views/pane/series-tpos-pane-view.ts:140-148 | A period whose letter is undefined or empty contributes no text, whatever its TPOs |
| `TposPaneView.RevalidationIsIdempotent` | src/views/pane/series-tpos-pane-view.ts:107-151 | Validating the result again, with no data change and the same chart, gives the same render data: the layout depends only on the profiles and the scales |
| `TposRenderer.SeriesTposRenderer.constructor` | src/renderers/series-tpos-renderer.ts:32-36 | No data, font size -1, empty family and font, and an empty width cache |
| `TposRenderer.FirstParamsReset` | src/renderers/series-tpos-renderer.ts:34-43 | From the initial font parameters, any font with a non-negative size counts as a change, so the first `SetParams` resets the cache |
| `TposRenderer.SeriesTposRenderer.SetData` | src/renderers/series-tpos-renderer.ts:38-40 | The renderer keeps the very object it is given |
| `TposRenderer.SeriesTposRenderer.SetParams` | src/renderers/series-tpos-renderer.ts:42-49 | Afterwards the stored size and family are the given ones. Only when either differs from the stored value are the font rebuilt and the width cache emptied; otherwise nothing changes, so a second call with the same values has no effect. The cache stays consistent with the font |
| `TposRenderer.SeriesTposRenderer.MeasureText` | src/renderers/series-tpos-renderer.ts:80 | A cached measurement, hit or miss, returns the width of the content under the current font, and it records that width. No width cached under an earlier font is ever returned |
| `TposRenderer.SeriesTposRenderer.MeasureTexts` | src/renderers/series-tpos-renderer.ts:79-82 | Every text of an item gets its measured width and the font size as its height, in order |
| `TposRenderer.SeriesTposRenderer.Draw` | src/renderers/series-tpos-renderer.ts:69-85 | With no data or no range nothing changes and nothing is drawn. Otherwise the items in the range get their texts sized (`SizedRange`) and the others are untouched. The range is kept, and the draw calls are those of `DrawItem` for each item in the range, in order |
| `TposRenderer.SizedRange` | src/renderers/series-tpos-renderer.ts:77-84 | Exactly the items in `[from, to)` have every text's width set to its measurement and height set to the font size; all else is unchanged |
| `TposRenderer.Sized` | src/renderers/series-tpos-renderer.ts:79-82 | Text by text: same content and position, width measured under the font, height set to the font size |
| `TposRenderer.DrawItem` | src/renderers/series-tpos-renderer.ts:88-92 | One draw call per text, in order, with the text's content, its `y`, and its left edge half its width left of `x`, i.e. centred on `x` |
| `TposRenderer.HitTestItem` | src/renderers/series-tpos-renderer.ts:94-98 | An item is hit if and only if the text hit test accepts one of its texts; an item without texts is never hit |
| `TposRenderer.SeriesTposRenderer.HitTest` | src/renderers/series-tpos-renderer.ts:51-67 | None with no data or no range. Otherwise none exactly when no item in `[from, to)` is hit; else the internal and external ids of the lowest hit index in the range |

## Left out

- Drawing on the canvas (`textBaseline`, `font`, `drawText`) and the scaled-renderer plumbing are not modelled. `Draw` instead returns the sequence of text-drawing calls it would make.
- `makeFont`, `hitTestText`, `visibleTimedValues`, `calculateShapeHeight`, `shapeMargin`, and the time- and price-scale conversions live in files that are not part of this model. They are function-typed parameters with no interpretation.
- `visibleTimedValues` is assumed to return a range within the values it is given (`ChartValid`). It is modelled as reading only the items' times, which is all a time lookup needs.
- The text-width cache (`TextWidthCache`, in a file not part of this model) is a map that a font change empties. Its own size bound and eviction are not modelled.
- The canvas's text measurement is a function of the font and the content.
- Pixel, price and size values are `real`. There is no floating-point rounding, NaN or infinity. The lattice column is an integer.
- The previous-time marker `NaN` of the layout loop is `None`, since it equals no time.
- The kind of update is declared in a file not part of this model. It is reduced to "data" or "other", because only `'data'` is tested.
- The `height`, `width` and `addAnchors` arguments of `renderer()` are not modelled; the code never reads them. The same holds for `isHovered` and `hitTestData` of the draw pass.
- Items and texts are values: in-place writes become element replacements in `items`. No other object refers to one item or one text, so aliasing of individual items or texts is not modelled.
- `MakeValid` and `Renderer` require, as their caller's contract, that every index the layout pass visits has a profile (`LayoutFits`). The source would fail on a missing profile. This holds after a data rebuild, and otherwise a change of the profile list is announced by a data update.
- `Draw` and `HitTest` require that the visible range, when set, indexes the items (`WindowFits`). The pane view always keeps this, as its `Valid` states.
- The above/below-bar stacking, label offsets and `position`-dependent placement are not modelled, because this code has none of them.
