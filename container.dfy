/** The nine-patch container: nine tiles in a fixed array, the target size they
    are laid out to, the counter of loaded tiles that gates every layout pass,
    and the single-slot update and ready callbacks. */
module NinePatchContainer {
  import opened NinePatchLayout

  datatype Option<T> = None | Some(value: T)

  /** DEFAULT scales the whole container by its bounding box; NINEPATCH
      re-slices the tiles to the requested size. */
  datatype ScaleMode = DefaultMode | NinePatchMode

  /** What the container learns about a tile's texture when it creates the tile:
      its natural size and whether it has already finished loading. */
  datatype Texture = Texture(width: real, height: real, hasLoaded: bool)

  /** A callback is known only by its identity; what it does is not modelled. */
  datatype Callback = Callback(id: nat)

  /** One invocation of a callback by the container. */
  datatype Event = Updated(callback: Callback) | Ready(callback: Callback)

  /** The number of textures that have already loaded: never more than there
      are textures. */
  function CountLoaded(s: seq<Texture>): (n: nat)
    ensures n <= |s|
  {
    if s == [] then 0 else CountLoaded(s[..|s| - 1]) + (if s[|s| - 1].hasLoaded then 1 else 0)
  }

  /** Every texture is counted exactly when every one has loaded, and none
      exactly when none has. */
  lemma {:induction false} CountLoadedBounds(s: seq<Texture>)
    ensures CountLoaded(s) == |s| <==> forall i :: 0 <= i < |s| ==> s[i].hasLoaded
    ensures CountLoaded(s) == 0 <==> forall i :: 0 <= i < |s| ==> !s[i].hasLoaded
  {
    if s != [] {
      var init := s[..|s| - 1];
      CountLoadedBounds(init);
      assert forall i :: 0 <= i < |init| ==> init[i] == s[i];
    }
  }

  /** A tile as a texture makes it: at the origin, at natural size, anchored
      at its own top-left corner. */
  function MadeTile(texture: Texture): (t: Tile)
  {
    Tile(0.0, 0.0, texture.width, texture.height, 0.0, 0.0)
  }

  /** The tiles the container holds once constructed: the made tiles, the
      right-hand ones anchored on their right edge and the bottom ones on their
      bottom edge. */
  function InitialTiles(textures: seq<Texture>): (t: seq<Tile>)
    requires |textures| == 9
    ensures |t| == 9 && Anchored(t) && t[0].x == 0.0 && t[0].y == 0.0
  {
    [ MadeTile(textures[0]),
      MadeTile(textures[1]),
      MadeTile(textures[2]).(anchorX := 1.0),
      MadeTile(textures[3]),
      MadeTile(textures[4]),
      MadeTile(textures[5]).(anchorX := 1.0),
      MadeTile(textures[6]).(anchorY := 1.0),
      MadeTile(textures[7]).(anchorY := 1.0),
      MadeTile(textures[8]).(anchorX := 1.0, anchorY := 1.0) ]
  }

  /** The events of an update pass (the update callback, when one is set) and of
      the readiness transition (the stored ready callback, when one is set). */
  function UpdateFired(callback: Option<Callback>): (fired: seq<Event>)
  {
    if callback.Some? then [Updated(callback.value)] else []
  }

  function ReadyFired(callback: Option<Callback>): (fired: seq<Event>)
  {
    if callback.Some? then [Ready(callback.value)] else []
  }

  /** The scale the DEFAULT-mode setter computes, `value / (bounds / scale)`,
      for non-zero local bounds. A zero scale turns the divisor into an infinity
      and the quotient into zero. The scale it yields, times the bounds, is the
      requested value times the OLD scale, not the requested value itself. */
  function ScaleFor(value: real, bounds: real, scale: real): (r: real)
    requires bounds != 0.0
    ensures r * bounds == value * scale
  {
    if scale == 0.0 then 0.0 else value / (bounds / scale)
  }

  class NinePatch {
    const scaleMode: ScaleMode
    /** The tiles, row-major: 0 top-left ... 8 bottom-right. */
    const children: array<Tile>
    var targetWidth: real
    var targetHeight: real
    /** Load notifications seen so far, plus the tiles loaded at construction. */
    var loaded: int
    var alpha: real
    var scaleX: real
    var scaleY: real
    /** The last values the DEFAULT-mode setters recorded. */
    var recordedWidth: real
    var recordedHeight: real
    var updateCallback: Option<Callback>
    var readyCallback: Option<Callback>
    /** Every callback invocation the container has made, in order. */
    var events: seq<Event>

    /** The tiles as constructed, and the target size of the last layout pass. */
    ghost const initial: seq<Tile>
    ghost var laidWidth: real
    ghost var laidHeight: real
    /** How many times the stored ready callback has been invoked. */
    ghost var slotFires: nat

    ghost predicate Valid()
      reads this, children
    {
      children.Length == 9 && |initial| == 9 && Anchored(initial) &&
      initial[0].x == 0.0 && initial[0].y == 0.0 &&
      0 <= loaded &&
      // while loading, the tiles are untouched and the whole patch is hidden
      (loaded < 9 ==> children[..] == initial && alpha == 0.0) &&
      // from the transition on, the tiles hold the last pass and are shown
      (loaded >= 9 ==> children[..] == Layout(initial, laidWidth, laidHeight) && alpha == 1.0) &&
      // while ready, the tiles are laid out to the current target
      (loaded == 9 ==> laidWidth == targetWidth && laidHeight == targetHeight && readyCallback == None) &&
      // the stored ready callback fires at most once, on reaching 9
      slotFires <= 1 && (slotFires == 1 ==> loaded >= 9)
    }

    /** The container for nine textures: counts the ones already loaded, sets
        the anchors, and then either hides itself or lays the tiles out. */
    constructor (width: real, height: real, textures: seq<Texture>, scaleMode: Option<ScaleMode>)
      requires |textures| == 9
      ensures Valid() && fresh(children)
      ensures this.scaleMode == (if scaleMode.Some? then scaleMode.value else NinePatchMode)
      ensures targetWidth == width && targetHeight == height
      ensures loaded == CountLoaded(textures) && loaded <= 9
      // hidden, with the tiles as made, exactly when some texture is pending
      ensures loaded < 9 <==> exists i :: 0 <= i < 9 && !textures[i].hasLoaded
      ensures initial == InitialTiles(textures) && laidWidth == width && laidHeight == height
      ensures updateCallback == None && readyCallback == None && events == [] && slotFires == 0
      ensures scaleX == 1.0 && scaleY == 1.0
    {
      this.scaleMode := if scaleMode.Some? then scaleMode.value else NinePatchMode;
      targetWidth, targetHeight := width, height;
      loaded := 0;
      updateCallback, readyCallback := None, None;
      alpha, scaleX, scaleY := 1.0, 1.0, 1.0;
      recordedWidth, recordedHeight := 0.0, 0.0;
      events := [];
      children := new Tile[9];
      initial := InitialTiles(textures);
      laidWidth, laidHeight := width, height;
      slotFires := 0;
      new;
      AddTiles(textures);
      SetAnchors(textures);
      CountLoadedBounds(textures);
      HideOrLayOut();
    }

    /** The end of construction: hide the patch while any tile is pending,
        otherwise lay it out at once. */
    method HideOrLayOut()
      requires children.Length == 9 && |initial| == 9 && Anchored(initial)
      requires initial[0].x == 0.0 && initial[0].y == 0.0
      requires 0 <= loaded <= 9 && children[..] == initial && alpha == 1.0
      requires readyCallback == None && updateCallback == None && slotFires == 0
      requires laidWidth == targetWidth && laidHeight == targetHeight
      modifies this`alpha, this`targetWidth, this`targetHeight, this`laidWidth, this`laidHeight, this`events, children
      ensures Valid()
      ensures targetWidth == old(targetWidth) && targetHeight == old(targetHeight)
      ensures laidWidth == old(laidWidth) && laidHeight == old(laidHeight) && events == old(events)
    {
      if loaded < 9 {
        alpha := 0.0;
      } else {
        Update(None, None);
      }
    }

    /** Creates the nine tiles in order and counts those whose texture has
        already loaded. */
    method AddTiles(textures: seq<Texture>)
      requires children.Length == 9 && |textures| == 9
      modifies children, this`loaded
      ensures loaded == old(loaded) + CountLoaded(textures)
      ensures forall k :: 0 <= k < 9 ==> children[k] == MadeTile(textures[k])
    {
      for i := 0 to 9
        invariant loaded == old(loaded) + CountLoaded(textures[..i])
        invariant forall k :: 0 <= k < i ==> children[k] == MadeTile(textures[k])
      {
        children[i] := MadeTile(textures[i]);
        assert textures[..i + 1][..i] == textures[..i];
        if textures[i].hasLoaded {
          loaded := loaded + 1;
        }
      }
      assert textures[..9] == textures;
    }

    /** Gives the right-hand tiles a right anchor and the bottom tiles a bottom
        anchor, which turns the freshly made tiles into the initial ones. */
    method SetAnchors(ghost textures: seq<Texture>)
      requires children.Length == 9 && |textures| == 9
      requires forall k :: 0 <= k < 9 ==> children[k] == MadeTile(textures[k])
      modifies children
      ensures children[..] == InitialTiles(textures)
    {
      children[2] := children[2].(anchorX := 1.0, anchorY := 0.0);
      children[5] := children[5].(anchorX := 1.0, anchorY := 0.0);
      children[6] := children[6].(anchorX := 0.0, anchorY := 1.0);
      children[7] := children[7].(anchorX := 0.0, anchorY := 1.0);
      children[8] := children[8].(anchorX := 1.0, anchorY := 1.0);
    }

    /** The width as the getter reports it, given the local bounds' width: at
        unit scale, the bounds in DEFAULT mode and the target width otherwise. */
    function Width(boundsWidth: real): (w: real)
      reads this
      ensures scaleX == 1.0 ==> w == (if scaleMode == DefaultMode then boundsWidth else targetWidth)
      ensures scaleX == 0.0 ==> w == 0.0
    {
      if scaleMode == DefaultMode then scaleX * boundsWidth else scaleX * targetWidth
    }

    /** The height as the getter reports it, given the local bounds' height: at
        unit scale, the bounds in DEFAULT mode and the target height otherwise. */
    function Height(boundsHeight: real): (h: real)
      reads this
      ensures scaleY == 1.0 ==> h == (if scaleMode == DefaultMode then boundsHeight else targetHeight)
      ensures scaleY == 0.0 ==> h == 0.0
    {
      if scaleMode == DefaultMode then scaleY * boundsHeight else scaleY * targetHeight
    }

    /** Stores the supplied target dimensions and, only when exactly nine tiles
        have loaded, lays the tiles out and fires the update callback. */
    method Update(width: Option<real>, height: Option<real>)
      requires children.Length == 9
      modifies this`targetWidth, this`targetHeight, this`laidWidth, this`laidHeight, this`events, children
      ensures targetWidth == (if width.Some? then width.value else old(targetWidth))
      ensures targetHeight == (if height.Some? then height.value else old(targetHeight))
      ensures loaded != 9 ==>
        children[..] == old(children[..]) && events == old(events) &&
        laidWidth == old(laidWidth) && laidHeight == old(laidHeight)
      ensures loaded == 9 ==>
        children[..] == Layout(old(children[..]), targetWidth, targetHeight) &&
        events == old(events) + UpdateFired(updateCallback) &&
        laidWidth == targetWidth && laidHeight == targetHeight
      ensures old(Valid()) ==> Valid()
    {
      ghost var wasValid, w0, h0 := Valid(), laidWidth, laidHeight;
      if width.Some? {
        targetWidth := width.value;
      }
      if height.Some? {
        targetHeight := height.value;
      }
      if loaded != 9 {
        return;
      }
      Pass();
      laidWidth, laidHeight := targetWidth, targetHeight;
      if updateCallback.Some? {
        events := events + [Updated(updateCallback.value)];
      }
      if wasValid {
        LayoutOverwrites(initial, w0, h0, targetWidth, targetHeight);
      }
    }

    /** The layout pass proper: positions and sizes written tile by tile in
        the fixed order, where a later step reads geometry an earlier one
        wrote (the center copies top-mid's width and mid-left's height). */
    method Pass()
      requires children.Length == 9
      modifies children
      ensures children[..] == Layout(old(children[..]), targetWidth, targetHeight)
    {
      var child: Tile;
      // top middle
      child := children[1];
      child := child.(x := children[0].width, y := 0.0);
      child := child.(width := targetWidth - child.x - children[2].width);
      children[1] := child;
      // top right
      child := children[2];
      child := child.(x := targetWidth, y := 0.0);
      children[2] := child;
      // middle left
      child := children[3];
      child := child.(x := 0.0, y := children[0].height);
      child := child.(height := targetHeight - child.y - children[6].height);
      children[3] := child;
      // middle
      child := children[4];
      child := child.(x := children[1].x, y := children[3].y);
      child := child.(height := children[3].height);
      child := child.(width := children[1].width);
      children[4] := child;
      // middle right
      child := children[5];
      child := child.(x := targetWidth, y := children[3].y);
      child := child.(height := children[3].height);
      children[5] := child;
      // bottom left
      child := children[6];
      child := child.(x := 0.0, y := targetHeight);
      children[6] := child;
      // bottom middle
      child := children[7];
      child := child.(x := children[1].x, y := targetHeight);
      child := child.(width := children[1].width);
      children[7] := child;
      // bottom right
      child := children[8];
      child := child.(x := targetWidth, y := targetHeight);
      children[8] := child;
    }

    /** Stores (or, with None, clears) the update callback. */
    method OnUpdate(callback: Option<Callback>) returns (self: NinePatch)
      requires Valid()
      modifies this`updateCallback
      ensures Valid() && self == this && updateCallback == callback
    {
      updateCallback := callback;
      self := this;
    }

    /** Fires the callback at once when exactly nine tiles have loaded;
        otherwise stores it in place of any earlier one. */
    method OnReady(callback: Callback) returns (self: NinePatch)
      requires Valid()
      modifies this`readyCallback, this`events
      ensures Valid() && self == this
      ensures loaded == 9 ==> events == old(events) + [Ready(callback)] && readyCallback == old(readyCallback)
      ensures loaded != 9 ==> events == old(events) && readyCallback == Some(callback)
    {
      if loaded == 9 {
        events := events + [Ready(callback)];
      } else {
        readyCallback := Some(callback);
      }
      self := this;
    }

    /** A tile's load notification. Only the notification that brings the count
        to exactly nine shows the patch, lays it out and fires, then clears, the
        stored ready callback. */
    method OnTextureUpdate()
      requires Valid()
      modifies this`loaded, this`alpha, this`readyCallback, this`events, this`slotFires
      modifies this`targetWidth, this`targetHeight, this`laidWidth, this`laidHeight, children
      ensures Valid()
      ensures loaded == old(loaded) + 1
      ensures targetWidth == old(targetWidth) && targetHeight == old(targetHeight)
      ensures loaded == 9 ==>
        alpha == 1.0 && readyCallback == None &&
        children[..] == Layout(old(children[..]), targetWidth, targetHeight) &&
        events == old(events) + UpdateFired(updateCallback) + ReadyFired(old(readyCallback)) &&
        slotFires == old(slotFires) + |ReadyFired(old(readyCallback))|
      ensures loaded != 9 ==>
        alpha == old(alpha) && readyCallback == old(readyCallback) &&
        children[..] == old(children[..]) && events == old(events) &&
        slotFires == old(slotFires)
    {
      loaded := loaded + 1;
      if loaded == 9 {
        alpha := 1.0;
        Update(None, None);
        if readyCallback.Some? {
          events := events + [Ready(readyCallback.value)];
          slotFires := slotFires + 1;
          readyCallback := None;
        }
      }
    }

    /** The width setter. DEFAULT mode rescales against the local bounds (scale
        1 when they are empty) and records the value; NINEPATCH mode re-slices
        to the new width at the current target height. */
    method SetWidth(value: real, boundsWidth: real)
      requires Valid()
      modifies this`scaleX, this`recordedWidth
      modifies this`targetWidth, this`targetHeight, this`laidWidth, this`laidHeight, this`events, children
      ensures Valid()
      ensures scaleMode == DefaultMode ==>
        scaleX == (if boundsWidth != 0.0 then ScaleFor(value, boundsWidth, old(scaleX)) else 1.0) &&
        recordedWidth == value &&
        targetWidth == old(targetWidth) && targetHeight == old(targetHeight) &&
        children[..] == old(children[..]) && events == old(events)
      ensures scaleMode == DefaultMode ==>
        Width(boundsWidth) == (if boundsWidth != 0.0 then value * old(scaleX) else 0.0)
      ensures scaleMode != DefaultMode ==>
        scaleX == old(scaleX) && recordedWidth == old(recordedWidth) &&
        targetWidth == value && targetHeight == old(targetHeight) &&
        Width(boundsWidth) == scaleX * value
      ensures scaleMode != DefaultMode && loaded == 9 ==>
        children[..] == Layout(old(children[..]), value, targetHeight) &&
        events == old(events) + UpdateFired(updateCallback)
      ensures scaleMode != DefaultMode && loaded != 9 ==>
        children[..] == old(children[..]) && events == old(events)
    {
      if scaleMode == DefaultMode {
        if boundsWidth != 0.0 {
          scaleX := ScaleFor(value, boundsWidth, scaleX);
        } else {
          scaleX := 1.0;
        }
        recordedWidth := value;
      } else {
        Update(Some(value), Some(targetHeight));
      }
    }

    /** The height setter, the mirror image of SetWidth. */
    method SetHeight(value: real, boundsHeight: real)
      requires Valid()
      modifies this`scaleY, this`recordedHeight
      modifies this`targetWidth, this`targetHeight, this`laidWidth, this`laidHeight, this`events, children
      ensures Valid()
      ensures scaleMode == DefaultMode ==>
        scaleY == (if boundsHeight != 0.0 then ScaleFor(value, boundsHeight, old(scaleY)) else 1.0) &&
        recordedHeight == value &&
        targetWidth == old(targetWidth) && targetHeight == old(targetHeight) &&
        children[..] == old(children[..]) && events == old(events)
      ensures scaleMode == DefaultMode ==>
        Height(boundsHeight) == (if boundsHeight != 0.0 then value * old(scaleY) else 0.0)
      ensures scaleMode != DefaultMode ==>
        scaleY == old(scaleY) && recordedHeight == old(recordedHeight) &&
        targetWidth == old(targetWidth) && targetHeight == value &&
        Height(boundsHeight) == scaleY * value
      ensures scaleMode != DefaultMode && loaded == 9 ==>
        children[..] == Layout(old(children[..]), targetWidth, value) &&
        events == old(events) + UpdateFired(updateCallback)
      ensures scaleMode != DefaultMode && loaded != 9 ==>
        children[..] == old(children[..]) && events == old(events)
    {
      if scaleMode == DefaultMode {
        if boundsHeight != 0.0 {
          scaleY := ScaleFor(value, boundsHeight, scaleY);
        } else {
          scaleY := 1.0;
        }
        recordedHeight := value;
      } else {
        Update(Some(targetWidth), Some(value));
      }
    }
  }

  /** Nine pending tiles, a ready callback registered while loading, nine load
      notifications and then a spurious tenth, and finally a resize to 200 wide:
      the ready callback fires exactly once, and the count of ten makes the
      resize store the new width without laying anything out. */
  method SpuriousNotification(callback: Callback) returns (fired: seq<Event>, target: real, tiles: seq<Tile>)
    ensures fired == [Ready(callback)]
    ensures target == 200.0
    ensures var tex := Texture(10.0, 10.0, false);
      tiles == Layout(InitialTiles([tex, tex, tex, tex, tex, tex, tex, tex, tex]), 100.0, 60.0)
  {
    var tex := Texture(10.0, 10.0, false);
    var textures := [tex, tex, tex, tex, tex, tex, tex, tex, tex];
    var patch := new NinePatch(100.0, 60.0, textures, None);
    CountLoadedBounds(textures);
    var _ := patch.OnReady(callback);
    for k := 0 to 10
      invariant patch.Valid() && patch.loaded == k
      invariant patch.updateCallback == None
      invariant patch.targetWidth == 100.0 && patch.targetHeight == 60.0
      invariant patch.readyCallback == (if k < 9 then Some(callback) else None)
      invariant patch.events == (if k < 9 then [] else [Ready(callback)])
      invariant k < 9 ==> patch.children[..] == InitialTiles(textures)
      invariant k >= 9 ==> patch.children[..] == Layout(InitialTiles(textures), 100.0, 60.0)
    {
      patch.OnTextureUpdate();
    }
    patch.Update(Some(200.0), None);
    fired, target, tiles := patch.events, patch.targetWidth, patch.children[..];
  }

  /** Nine textures that have all loaded already: the constructor shows the
      patch and lays it out at once, so a ready callback registered afterwards
      fires immediately and is never stored. */
  method PreloadedPatch(callback: Callback) returns (shown: real, fired: seq<Event>, tiles: seq<Tile>)
    ensures shown == 1.0
    ensures fired == [Ready(callback)]
    ensures var tex := Texture(10.0, 10.0, true);
      tiles == Layout(InitialTiles([tex, tex, tex, tex, tex, tex, tex, tex, tex]), 100.0, 60.0)
    ensures tiles[4].x == 10.0 && tiles[4].y == 10.0 && tiles[4].width == 80.0 && tiles[4].height == 40.0
    ensures tiles[8].x == 100.0 && tiles[8].y == 60.0
  {
    var tex := Texture(10.0, 10.0, true);
    var textures := [tex, tex, tex, tex, tex, tex, tex, tex, tex];
    var patch := new NinePatch(100.0, 60.0, textures, None);
    var _ := patch.OnReady(callback);
    shown, fired, tiles := patch.alpha, patch.events, patch.children[..];
  }
}
