# PIXI.NinePatch in Dafny

A model of `PIXI.NinePatch`, a container of nine sprites that builds a resizable
rectangle. It has four fixed-size corners, four edges that stretch along one
axis, and a center that stretches along both. The tiles sit in a fixed
row-major array: 0 top-left, 1 top-mid, 2 top-right, 3 mid-left, 4 center,
5 mid-right, 6 bottom-left, 7 bottom-mid, 8 bottom-right.

The model has two modules:

- `NinePatchLayout` (`layout.dfy`) holds the tile record, the anchors the
  container gives each slot, and `Layout`, the closed-form result of one
  layout pass. Its lemmas state what a pass places where, what it never
  writes, that a second pass erases the first, and that with consistent slice
  images the nine tiles cover the target rectangle without gaps.
- `NinePatchContainer` (`container.dfy`) holds the class `NinePatch`. Its
  tiles live in an `array<Tile>` that `Pass` rewrites in place, in the
  source's order, and `Pass` is proved to compute `Layout`. Around the array
  the class keeps these fields:
  - the target size;
  - the load counter `loaded`;
  - `alpha` and the scale;
  - the two single-slot callbacks;
  - `events`, a log of every callback invocation in order.

  The object invariant `Valid()` says:
  - while fewer than nine tiles have loaded, the tiles are exactly as
    constructed and the patch is hidden;
  - from the ninth notification on, the tiles hold the last pass and the patch
    is shown;
  - while the count is exactly nine, that pass used the current target and no
    ready callback is stored;
  - the stored ready callback has fired at most once.

The load counter is not capped at nine: every notification increments it
(pixi.ninepatch.js:306), while `onReady` and `update` test for exactly nine
(pixi.ninepatch.js:215, 250). A notification beyond the ninth therefore leaves
the patch in a state where `update` stores new targets but never lays the tiles
out again, and `onReady` stores a callback that nothing will fire. The model
keeps the source's exact comparisons (`loaded !== 9`, `loaded === 9`,
`++loaded === 9`, `loaded < 9`), so it has this behaviour too;
`SpuriousNotification` is a concrete scenario of it proved by the verifier.

The doc comment of the width property (pixi.ninepatch.js:109) says that setting
it modifies the scale "to achieve the value set". In DEFAULT mode the code
computes `value / (bounds / scale)`, that is value × old scale / bounds, while
the getter returns scale × bounds. For non-zero bounds a set therefore reads
back value × old scale, which is the requested value only when the old scale is
1 or the value is 0; for empty bounds the scale becomes 1 and the getter reads
0. The model follows the code: `ScaleFor` and `SetWidth`/`SetHeight` state
exactly this, and the same holds for the height property.

Dimensions are exact `real`s. The bounds that `getLocalBounds()` returns are
passed in as parameters. A zero scale gives a zero result in the DEFAULT
setter, as the JavaScript division by an infinite divisor does.

## Model

| member | source | states |
|---|---|---|
| `NinePatchLayout.Layout` | pixi.ninepatch.js:252-290 | the tiles after one full pass: nine tiles out for nine in; its geometry is stated by the lemmas below and `NinePatch.Pass` is proved to compute it |
| `NinePatchLayout.LayoutKeeps` | pixi.ninepatch.js:254-290 | a pass leaves tile 0 untouched and never writes the size of a corner, the height of top-mid/bottom-mid, the width of mid-left/mid-right, or any anchor |
| `NinePatchLayout.LayoutHorizontal` | pixi.ninepatch.js:255-257 | top-mid sits at (width of tile 0, 0) with width target width − tile 0 width − tile 2 width (unclamped); bottom-mid sits at (top-mid x, target height) with the same width; the center has top-mid's x and width |
| `NinePatchLayout.LayoutVertical` | pixi.ninepatch.js:264-277 | mid-left sits at (0, height of tile 0) with height target height − tile 0 height − tile 6 height; the center and mid-right take its y and height; mid-right sits at x = target width |
| `NinePatchLayout.LayoutPinsCorners` | pixi.ninepatch.js:259-261 | top-right is placed at (w, 0), bottom-left at (0, h), bottom-right at (w, h) |
| `NinePatchLayout.LayoutOverwrites` | pixi.ninepatch.js:234-297 | a pass reads only what passes never write, so a pass after any earlier pass gives what a single pass would; in particular a repeated pass with the same target changes nothing |
| `NinePatchLayout.LayoutWidthIsHorizontal` | pixi.ninepatch.js:125-146 | passes that differ only in target width give every tile the same y and height |
| `NinePatchLayout.LayoutHeightIsVertical` | pixi.ninepatch.js:168-188 | passes that differ only in target height give every tile the same x and width |
| `NinePatchLayout.LayoutTilesTarget` | pixi.ninepatch.js:76-81 | with the constructor's anchors, tile 0 at the origin and slice images whose columns share a width and whose top and bottom rows share a height, each row of the result spans [0, w] and each column spans [0, h], with no gap or overlap |
| `NinePatchLayout.LayoutExample` | pixi.ninepatch.js:254-290 | 10 × 10 corners and 10-thick edges laid out to 100 × 60: top-mid at (10, 0) width 80, mid-left at (0, 10) height 40, center at (10, 10) 80 × 40, mid-right at (100, 10) height 40, bottom-left at (0, 60), bottom-mid at (10, 60) width 80, top-right at (100, 0), bottom-right at (100, 60) |
| `NinePatchContainer.CountLoaded` | pixi.ninepatch.js:63-74 | the number of textures already loaded when the tiles are created, never more than there are textures |
| `NinePatchContainer.CountLoadedBounds` | pixi.ninepatch.js:63-74 | the count of already-loaded textures equals their number exactly when all have loaded, and is zero exactly when none has |
| `NinePatchContainer.InitialTiles` | pixi.ninepatch.js:76-81 | the tiles as constructed carry the slot anchors (2 and 5 right, 6 and 7 bottom, 8 bottom-right, the rest top-left), and tile 0 sits at the origin |
| `NinePatchContainer.ScaleFor` | pixi.ninepatch.js:129-138 | for non-zero local bounds, the scale the DEFAULT setter computes times the bounds equals the requested value times the old scale |
| `NinePatchContainer.NinePatch.constructor` | pixi.ninepatch.js:42-96 | stores the target size and mode (NINEPATCH when none is given); `loaded` is the number of textures already loaded (at most 9); the patch is hidden exactly when some texture is pending, and otherwise laid out at once; no callbacks are set and none has fired |
| `NinePatchContainer.NinePatch.Width` | pixi.ninepatch.js:115-124 | the width getter: scale.x times the local bounds' width in DEFAULT mode and times the target width otherwise, so at unit scale it reads the bounds or the target, and at zero scale it reads 0 |
| `NinePatchContainer.NinePatch.Height` | pixi.ninepatch.js:157-167 | the height getter, the mirror image of Width for scale.y, the bounds' height and the target height |
| `NinePatchContainer.NinePatch.AddTiles` | pixi.ninepatch.js:63-74 | creates the nine tiles in order at natural size and adds the number of already-loaded textures to `loaded` |
| `NinePatchContainer.NinePatch.SetAnchors` | pixi.ninepatch.js:76-81 | turns the freshly made tiles into the initial ones by setting the five non-default anchors |
| `NinePatchContainer.NinePatch.HideOrLayOut` | pixi.ninepatch.js:87-95 | establishes the object invariant: with fewer than nine loaded, alpha 0 and tiles untouched; with nine, one pass at the constructor's target |
| `NinePatchContainer.NinePatch.Update` | pixi.ninepatch.js:234-297 | stores each supplied dimension and keeps the old value for an omitted one, even while loading; unless exactly nine tiles have loaded it writes no tile and fires nothing; otherwise the tiles become `Layout` of the old tiles at the new target and the update callback, if set, fires once; the object invariant is preserved |
| `NinePatchContainer.NinePatch.Pass` | pixi.ninepatch.js:252-290 | the in-place writes, in source order (the center reads top-mid's and mid-left's new geometry), leave the array equal to `Layout` of its old contents |
| `NinePatchContainer.NinePatch.OnUpdate` | pixi.ninepatch.js:199-204 | stores the callback, or clears the slot with none, without firing anything; returns the container itself |
| `NinePatchContainer.NinePatch.OnReady` | pixi.ninepatch.js:213-225 | when exactly nine tiles have loaded it fires the callback at once and leaves the slot alone; otherwise it stores the callback, overwriting the previous one, and fires nothing; returns the container itself |
| `NinePatchContainer.NinePatch.OnTextureUpdate` | pixi.ninepatch.js:304-318 | increments `loaded`; only when this makes it exactly 9 it sets alpha to 1, runs one pass at the current target, fires the update callback and then the stored ready callback, and clears the slot; any other notification changes nothing else; the count of firings of the stored ready callback grows by one exactly when a stored callback fires, and the object invariant keeps it at most one over the object's life |
| `NinePatchContainer.NinePatch.SetWidth` | pixi.ninepatch.js:114-148 | DEFAULT mode: scale.x becomes `ScaleFor` of the value, or 1 for empty bounds; records the value; touches no tile; the width getter then reads value × old scale (0 for empty bounds). NINEPATCH mode: update with the new width and the unchanged target height, so the getter reads scale.x × value |
| `NinePatchContainer.NinePatch.SetHeight` | pixi.ninepatch.js:156-190 | the mirror image of SetWidth for scale.y, the recorded height and the target height |
| `NinePatchContainer.SpuriousNotification` | pixi.ninepatch.js:304-318 | nine pending tiles; a ready callback registered while loading; nine notifications and then a spurious tenth; then a resize to 200 wide. The ready callback fires exactly once, the new width is stored, and the tiles stay as laid out at 100 × 60 |
| `NinePatchContainer.PreloadedPatch` | pixi.ninepatch.js:87-95 | nine textures that have all loaded already: the constructor shows the patch and lays it out at once at 100 × 60 (center at (10, 10) 80 × 40, bottom-right at (100, 60)), and a ready callback registered afterwards fires immediately |

## Left out

- The PIXI scene graph is left out. This covers the `PIXI.DisplayObjectContainer` base class and prototype wiring (pixi.ninepatch.js:45, 99-100), `addChild`, and how `getLocalBounds()` computes the bounds. The bounds' width and height are parameters of the setters and of the getters `Width`/`Height`.
- Texture creation is left out: `PIXI.Sprite.fromFrame`/`fromImage`, the `useFrames` switch, and substituting the tile number into the image name (pixi.ninepatch.js:57, 65). Each tile's texture is a constructor input that gives its natural size and its `hasLoaded` flag.
- The `texture.on('update', …)` subscription and its bound handler (pixi.ninepatch.js:60, 68) are left out. A load notification is an explicit call to `OnTextureUpdate`, and any number of calls may be made.
- A tile's natural size is fixed when the container is built. A texture that learns its size only when it loads is not modelled.
- PIXI's sprite `width`/`height` setters map a size onto the sprite's scale. Here tile width and height are plain fields.
- `head` and `body` (pixi.ninepatch.js:84-85) are aliases to tiles 1 and 4. Tiles here are values in the array, so these aliases are just slots 1 and 4.
- What callbacks do is left out. A callback is an identity, and the container's side of the protocol is the `events` log. A callback that calls back into the container while it is being fired is not modelled.
- OnReady: takes a callback that is always present. In the source, `onReady(null)` while ready would throw.
- `scaleMode` is `DEFAULT` or `NINEPATCH`, or absent, which means NINEPATCH as `scaleMode || NINEPATCH` gives. Other numeric values are not modelled. The source treats them like NINEPATCH in every accessor.
- Floating point is left out: rounding, NaN and infinities. Dimensions and scales are exact reals. The one infinity the source can produce, a zero scale in the DEFAULT setter, is modelled by its finite outcome, 0.
- Writes to `alpha` by the host are left out. The invariant ties `alpha` to the load counter only under the container's own operations.
- The base class's initial `_width`/`_height` are taken to be 0 and its initial scale to be 1. `PIXI.DisplayObjectContainer` is not part of this model.
