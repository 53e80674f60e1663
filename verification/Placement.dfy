/**
  Item placement, the `textures.map` in the texture-load callback of
  src/main.js. Item `i` is laid over layout container `i` when there is one;
  beyond the containers it falls back to the texture's own size, centred
  horizontally and stacked one section height per index. Coordinates are
  exact reals.
*/
module Placement {
  import opened Wrappers
  import opened Items

  /** A container's bounding box in viewport pixels (origin top-left, y down). */
  datatype Rect = Rect(left: real, top: real, width: real, height: real)

  /** The window's inner size when the items are placed. */
  datatype Viewport = Viewport(width: real, height: real)

  /** Pixel space (top-left origin, y down) to world space (centre origin, y up). */
  function ToWorld(p: Vec2, vp: Viewport): (w: Vec2)
    ensures ToPixel(w, vp) == p
  {
    Vec2(p.x - vp.width / 2.0, vp.height / 2.0 - p.y)
  }

  /** World space back to pixel space. */
  function ToPixel(w: Vec2, vp: Viewport): (p: Vec2)
  {
    Vec2(w.x + vp.width / 2.0, vp.height / 2.0 - w.y)
  }

  lemma WorldPixelRoundTrip(w: Vec2, vp: Viewport)
    ensures ToWorld(ToPixel(w, vp), vp) == w
  {
  }

  /**
    Where a container-backed item goes. The plane is centred on its position,
    so its top-left and bottom-right corners land exactly on the world images
    of the container's corners. The mesh therefore covers its layout element
    as long as the camera is at y = 0, i.e. the page was not scrolled when the
    rectangles were read (they are relative to the viewport).
  */
  function ContainerPosition(r: Rect, vp: Viewport): (pos: Vec3)
    ensures pos.z == 0.0
    ensures Vec2(pos.x - r.width / 2.0, pos.y + r.height / 2.0) == ToWorld(Vec2(r.left, r.top), vp)
    ensures Vec2(pos.x + r.width / 2.0, pos.y - r.height / 2.0) == ToWorld(Vec2(r.left + r.width, r.top + r.height), vp)
  {
    Vec3(r.left - vp.width / 2.0 + r.width / 2.0, -r.top + vp.height / 2.0 - r.height / 2.0, 0.0)
  }

  /** Where an item without a container goes: centred, `index` sections down. */
  function FallbackPosition(index: nat, objectsDistance: real): (pos: Vec3)
  {
    Vec3(0.0, -objectsDistance * index as real, 0.0)
  }

  /** Fallback items form a column: each sits exactly one `objectsDistance` below the previous one. */
  lemma FallbacksOneSectionApart(index: nat, objectsDistance: real)
    requires index > 0
    ensures FallbackPosition(index, objectsDistance).x == FallbackPosition(index - 1, objectsDistance).x == 0.0
    ensures FallbackPosition(index, objectsDistance).y == FallbackPosition(index - 1, objectsDistance).y - objectsDistance
  {
    assert objectsDistance * index as real == objectsDistance * (index - 1) as real + objectsDistance;
  }

  /** JavaScript `v || 1` on a number that may be absent: absent and zero are falsy. */
  function OrOne(v: Option<real>): (r: real)
    ensures r != 0.0
    ensures v.Some? && v.value != 0.0 ==> r == v.value
    ensures v.None? || v.value == 0.0 ==> r == 1.0
  {
    if v.Some? && v.value != 0.0 then v.value else 1.0
  }

  /** The `uTextureSize` uniform: the image's dimensions, 1 where a dimension is missing or zero. */
  function TextureSize(t: Texture): (s: Vec2)
    ensures s.x != 0.0 && s.y != 0.0
    ensures t.image.Some? && t.image.value.width != 0.0 ==> s.x == t.image.value.width
    ensures t.image.Some? && t.image.value.height != 0.0 ==> s.y == t.image.value.height
    ensures t.image.Some? && t.image.value.width == 0.0 ==> s.x == 1.0
    ensures t.image.Some? && t.image.value.height == 0.0 ==> s.y == 1.0
    ensures t.image.None? ==> s == Vec2(1.0, 1.0)
  {
    match t.image
    case None => Vec2(1.0, 1.0)
    case Some(img) => Vec2(OrOne(Some(img.width)), OrOne(Some(img.height)))
  }

  /** The container of item `index`, if the page has that many. */
  function RectAt(rects: seq<Rect>, index: nat): Option<Rect>
  {
    if index < |rects| then Some(rects[index]) else None
  }

  /**
    The mesh for texture `t` at position `index`. Reading the size of a
    fallback item dereferences `texture.image` unguarded, so a missing image
    there throws; the texture-size uniform guards it.
  */
  function PlaceItem(index: nat, rect: Option<Rect>, t: Texture, vp: Viewport, objectsDistance: real): (r: Result<Item, Fault>)
    ensures r.Failure? <==> rect.None? && t.image.None?
    ensures r.Failure? ==> r.error == MissingImage(index)
    ensures r.Success? ==> && r.value.texture == Some(t)
                           && r.value.textureSize == TextureSize(t)
                           && r.value.progress == 0.0 && r.value.tween == None
                           && r.value.size == r.value.planeResolution == Vec2(r.value.width, r.value.height)
    ensures rect.Some? ==> r.Success? && r.value.position == ContainerPosition(rect.value, vp)
                           && r.value.width == rect.value.width && r.value.height == rect.value.height
    ensures rect.None? && t.image.Some? ==>
              r.Success? && r.value.position == FallbackPosition(index, objectsDistance)
              && r.value.width == t.image.value.width && r.value.height == t.image.value.height
  {
    var geometry: Result<(real, real, Vec3), Fault> :=
      match rect
      case Some(box) => Success((box.width, box.height, ContainerPosition(box, vp)))
      case None =>
        match t.image
        case None => Failure(MissingImage(index))
        case Some(img) => Success((img.width, img.height, FallbackPosition(index, objectsDistance)));
    match geometry
    case Failure(e) => Failure(e)
    case Success((w, h, pos)) =>
      Success(NewMeshItem(w, h).(texture := Some(t), textureSize := TextureSize(t), position := pos))
  }

  /** Every texture from `from` on that would fall back has an image. */
  predicate FallbacksHaveImages(textures: seq<Texture>, rects: seq<Rect>, from: nat)
  {
    forall i :: from <= i < |textures| && |rects| <= i ==> textures[i].image.Some?
  }

  /**
    Items `from ..` of the map. The map aborts at the first fallback texture
    without an image.
  */
  function PlaceFrom(textures: seq<Texture>, rects: seq<Rect>, vp: Viewport, objectsDistance: real, from: nat)
    : (r: Result<seq<Item>, Fault>)
    requires from <= |textures|
    ensures r.Success? <==> FallbacksHaveImages(textures, rects, from)
    ensures r.Success? ==> |r.value| == |textures| - from
    ensures r.Success? ==> forall i :: from <= i < |textures| ==>
              PlaceItem(i, RectAt(rects, i), textures[i], vp, objectsDistance) == Success(r.value[i - from])
    ensures r.Failure? ==> exists i :: from <= i < |textures| && |rects| <= i && textures[i].image.None?
                                       && r.error == MissingImage(i)
    decreases |textures| - from
  {
    if from == |textures| then Success([])
    else
      match PlaceItem(from, RectAt(rects, from), textures[from], vp, objectsDistance)
      case Failure(e) => Failure(e)
      case Success(item) =>
        match PlaceFrom(textures, rects, vp, objectsDistance, from + 1)
        case Failure(e) => Failure(e)
        case Success(rest) => Success([item] + rest)
  }

  /** The whole `textures.map`. */
  function PlaceAll(textures: seq<Texture>, rects: seq<Rect>, vp: Viewport, objectsDistance: real): (r: Result<seq<Item>, Fault>)
    ensures r.Success? <==> FallbacksHaveImages(textures, rects, 0)
  {
    PlaceFrom(textures, rects, vp, objectsDistance, 0)
  }

  /**
    One item per texture, item `i` carrying texture `i`, whatever the number
    of containers (a mismatch only logs a warning). Items with a container
    cover it; the rest are centred and stacked one `objectsDistance` apart with
    the texture's own size.
  */
  lemma PlacedItemsFollowTextures(textures: seq<Texture>, rects: seq<Rect>, vp: Viewport, objectsDistance: real)
    requires PlaceAll(textures, rects, vp, objectsDistance).Success?
    ensures var items := PlaceAll(textures, rects, vp, objectsDistance).value;
      && |items| == |textures|
      && (forall i :: 0 <= i < |items| ==> items[i].texture == Some(textures[i]))
      && (forall i :: 0 <= i < |items| ==> items[i].textureSize.x != 0.0 && items[i].textureSize.y != 0.0)
      && (forall i :: 0 <= i < |items| && i < |rects| ==>
            items[i].position == ContainerPosition(rects[i], vp)
            && items[i].width == rects[i].width && items[i].height == rects[i].height)
      && (forall i :: 0 <= i < |items| && |rects| <= i ==>
            items[i].position == Vec3(0.0, -objectsDistance * i as real, 0.0)
            && items[i].width == textures[i].image.value.width
            && items[i].height == textures[i].image.value.height)
  {
    var items := PlaceAll(textures, rects, vp, objectsDistance).value;
    forall i | 0 <= i < |items|
      ensures PlaceItem(i, RectAt(rects, i), textures[i], vp, objectsDistance) == Success(items[i])
    {
    }
  }

  /** Two containers side by side at the top of an 800 x 600 viewport. */
  lemma TwoContainerExample(t0: Texture, t1: Texture, objectsDistance: real)
    ensures var r := PlaceAll([t0, t1], [Rect(0.0, 0.0, 100.0, 100.0), Rect(200.0, 0.0, 100.0, 100.0)],
                              Viewport(800.0, 600.0), objectsDistance);
      r.Success? && r.value[0].position == Vec3(-350.0, 250.0, 0.0) && r.value[1].position == Vec3(-150.0, 250.0, 0.0)
  {
    var rects := [Rect(0.0, 0.0, 100.0, 100.0), Rect(200.0, 0.0, 100.0, 100.0)];
    PlacedItemsFollowTextures([t0, t1], rects, Viewport(800.0, 600.0), objectsDistance);
  }

  /** Three containers, five textures: items 3 and 4 fall back to the column below the page's sections. */
  lemma ThreeContainersFiveTextures(ts: seq<Texture>, rects: seq<Rect>, vp: Viewport, objectsDistance: real)
    requires |ts| == 5 && |rects| == 3
    requires ts[3].image.Some? && ts[4].image.Some?
    ensures PlaceAll(ts, rects, vp, objectsDistance).Success?
    ensures var items := PlaceAll(ts, rects, vp, objectsDistance).value;
      && |items| == 5
      && items[3].position == Vec3(0.0, -3.0 * objectsDistance, 0.0)
      && items[4].position == Vec3(0.0, -4.0 * objectsDistance, 0.0)
      && forall i :: 0 <= i < 3 ==> items[i].position == ContainerPosition(rects[i], vp)
  {
    assert FallbacksHaveImages(ts, rects, 0);
    PlacedItemsFollowTextures(ts, rects, vp, objectsDistance);
  }
}
