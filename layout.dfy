/** Geometry of a nine-patch: the tile record and the closed-form result of one
    layout pass over the nine tiles, held in row-major order
    (0 top-left, 1 top-mid, 2 top-right, 3 mid-left, 4 center, 5 mid-right,
     6 bottom-left, 7 bottom-mid, 8 bottom-right). */
module NinePatchLayout {

  /** One sprite of the patch: its position, its (possibly stretched) size and
      its anchor, the fraction of its own size at which its position sits. */
  datatype Tile = Tile(x: real, y: real, width: real, height: real, anchorX: real, anchorY: real)

  /** The anchor the container gives tile `i`: right-hand tiles (2, 5, 8) grow
      leftwards from their position, bottom tiles (6, 7, 8) grow upwards. */
  function AnchorX(i: int): (a: real) { if i == 2 || i == 5 || i == 8 then 1.0 else 0.0 }
  function AnchorY(i: int): (a: real) { if i == 6 || i == 7 || i == 8 then 1.0 else 0.0 }

  predicate Anchored(t: seq<Tile>)
    requires |t| == 9
  {
    forall i :: 0 <= i < 9 ==> t[i].anchorX == AnchorX(i) && t[i].anchorY == AnchorY(i)
  }

  /** The edges a tile covers, once its anchor is taken into account. */
  function Left(t: Tile): (edge: real) { t.x - t.anchorX * t.width }
  function Right(t: Tile): (edge: real) { Left(t) + t.width }
  function Top(t: Tile): (edge: real) { t.y - t.anchorY * t.height }
  function Bottom(t: Tile): (edge: real) { Top(t) + t.height }

  /** The slice images agree: each column shares one width and each of the top
      and bottom rows shares one height. */
  predicate UniformSlices(t: seq<Tile>)
    requires |t| == 9
  {
    t[3].width == t[0].width && t[6].width == t[0].width &&
    t[5].width == t[2].width && t[8].width == t[2].width &&
    t[1].height == t[0].height && t[2].height == t[0].height &&
    t[7].height == t[6].height && t[8].height == t[6].height
  }

  /** Three tiles side by side, with no gap and no overlap, spanning [0, w]. */
  predicate SpansRow(a: Tile, b: Tile, c: Tile, w: real)
  {
    Left(a) == 0.0 && Right(a) == Left(b) && Right(b) == Left(c) && Right(c) == w
  }

  /** Three tiles stacked, with no gap and no overlap, spanning [0, h]. */
  predicate SpansColumn(a: Tile, b: Tile, c: Tile, h: real)
  {
    Top(a) == 0.0 && Bottom(a) == Top(b) && Bottom(b) == Top(c) && Bottom(c) == h
  }

  /** The tiles after one full layout pass for target size `w` x `h`. Stretched
      sizes come from the top-left, top-right and bottom-left corners; nothing is
      clamped, so a target smaller than its corners gives negative sizes. */
  function Layout(t: seq<Tile>, w: real, h: real): (r: seq<Tile>)
    requires |t| == 9
    ensures |r| == 9
  {
    var midWidth := w - t[0].width - t[2].width;
    var midHeight := h - t[0].height - t[6].height;
    [ t[0],
      t[1].(x := t[0].width, y := 0.0, width := midWidth),
      t[2].(x := w, y := 0.0),
      t[3].(x := 0.0, y := t[0].height, height := midHeight),
      t[4].(x := t[0].width, y := t[0].height, width := midWidth, height := midHeight),
      t[5].(x := w, y := t[0].height, height := midHeight),
      t[6].(x := 0.0, y := h),
      t[7].(x := t[0].width, y := h, width := midWidth),
      t[8].(x := w, y := h) ]
  }

  /** What a pass never writes: tile 0 at all, the size of any corner, the
      unstretched size of an edge, any anchor. */
  lemma LayoutKeeps(t: seq<Tile>, w: real, h: real)
    requires |t| == 9
    ensures var r := Layout(t, w, h);
      r[0] == t[0] &&
      r[2].width == t[2].width && r[2].height == t[2].height &&
      r[6].width == t[6].width && r[6].height == t[6].height &&
      r[8].width == t[8].width && r[8].height == t[8].height &&
      r[1].height == t[1].height && r[7].height == t[7].height &&
      r[3].width == t[3].width && r[5].width == t[5].width &&
      forall i :: 0 <= i < 9 ==> r[i].anchorX == t[i].anchorX && r[i].anchorY == t[i].anchorY
  {
  }

  /** Horizontal geometry is fixed by the two top corner widths: top-mid starts
      where tile 0 ends and fills up to the top-right corner; bottom-mid and the
      center share its x and its width. */
  lemma LayoutHorizontal(t: seq<Tile>, w: real, h: real)
    requires |t| == 9
    ensures var r := Layout(t, w, h);
      r[1].x == r[0].width && r[1].y == 0.0 &&
      r[1].width == w - r[0].width - r[2].width &&
      r[7].x == r[1].x && r[7].y == h && r[7].width == r[1].width &&
      r[4].x == r[1].x && r[4].width == r[1].width
  {
  }

  /** Vertical geometry is fixed by the top-left and bottom-left corner heights:
      mid-left starts where tile 0 ends and fills up to the bottom-left corner;
      the center and mid-right share its y and its height, mid-right at x = w. */
  lemma LayoutVertical(t: seq<Tile>, w: real, h: real)
    requires |t| == 9
    ensures var r := Layout(t, w, h);
      r[3].x == 0.0 && r[3].y == r[0].height &&
      r[3].height == h - r[0].height - r[6].height &&
      r[4].y == r[3].y && r[4].height == r[3].height &&
      r[5].x == w && r[5].y == r[3].y && r[5].height == r[3].height
  {
  }

  /** The three moving corners are pinned to the far corners of [0, w] x [0, h]. */
  lemma LayoutPinsCorners(t: seq<Tile>, w: real, h: real)
    requires |t| == 9
    ensures var r := Layout(t, w, h);
      r[2].x == w && r[2].y == 0.0 &&
      r[6].x == 0.0 && r[6].y == h &&
      r[8].x == w && r[8].y == h
  {
  }

  /** A pass reads only what no pass writes (corner sizes, the unstretched axis of
      the edges, anchors), so a second pass undoes every trace of the first: a
      repeated pass with the same target is a no-op, and one with a new target
      gives what a single pass would. */
  lemma LayoutOverwrites(t: seq<Tile>, w1: real, h1: real, w2: real, h2: real)
    requires |t| == 9
    ensures Layout(Layout(t, w1, h1), w2, h2) == Layout(t, w2, h2)
    ensures Layout(Layout(t, w1, h1), w1, h1) == Layout(t, w1, h1)
  {
  }

  /** Changing only the target width moves and resizes tiles horizontally only:
      every tile keeps its y and its height. */
  lemma LayoutWidthIsHorizontal(t: seq<Tile>, w1: real, w2: real, h: real)
    requires |t| == 9
    ensures forall i :: 0 <= i < 9 ==>
      Layout(t, w1, h)[i].y == Layout(t, w2, h)[i].y &&
      Layout(t, w1, h)[i].height == Layout(t, w2, h)[i].height
  {
  }

  /** Changing only the target height moves and resizes tiles vertically only. */
  lemma LayoutHeightIsVertical(t: seq<Tile>, w: real, h1: real, h2: real)
    requires |t| == 9
    ensures forall i :: 0 <= i < 9 ==>
      Layout(t, w, h1)[i].x == Layout(t, w, h2)[i].x &&
      Layout(t, w, h1)[i].width == Layout(t, w, h2)[i].width
  {
  }

  /** With the container's anchors, tile 0 at the origin and slice images that
      agree, the nine tiles cover [0, w] x [0, h] exactly: every row and every
      column is seamless and ends on the target's edge. */
  lemma LayoutTilesTarget(t: seq<Tile>, w: real, h: real)
    requires |t| == 9 && Anchored(t) && UniformSlices(t)
    requires t[0].x == 0.0 && t[0].y == 0.0
    ensures var r := Layout(t, w, h);
      SpansRow(r[0], r[1], r[2], w) && SpansRow(r[3], r[4], r[5], w) && SpansRow(r[6], r[7], r[8], w) &&
      SpansColumn(r[0], r[3], r[6], h) && SpansColumn(r[1], r[4], r[7], h) && SpansColumn(r[2], r[5], r[8], h)
  {
  }

  /** Corners of 10 x 10 and edges 10 thick, laid out to 100 x 60. */
  lemma LayoutExample()
    ensures var c := Tile(0.0, 0.0, 10.0, 10.0, 0.0, 0.0);
      var r := Layout([c, c, c, c, c, c, c, c, c], 100.0, 60.0);
      r[1].x == 10.0 && r[1].y == 0.0 && r[1].width == 80.0 &&
      r[3].x == 0.0 && r[3].y == 10.0 && r[3].height == 40.0 &&
      r[4].x == 10.0 && r[4].y == 10.0 && r[4].width == 80.0 && r[4].height == 40.0 &&
      r[5].x == 100.0 && r[5].y == 10.0 && r[5].height == 40.0 &&
      r[6].x == 0.0 && r[6].y == 60.0 &&
      r[7].x == 10.0 && r[7].y == 60.0 && r[7].width == 80.0 &&
      r[8].x == 100.0 && r[8].y == 60.0 &&
      r[2].x == 100.0 && r[2].y == 0.0
  {
  }
}
