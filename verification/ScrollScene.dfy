/**
  The wiring of src/main.js: the texture-load callback that places the items,
  enters the section of the initial scroll offset and starts the render loop;
  the scroll listener; the render tick; and the resize listener. All mutable
  module state lives in one `Scene` value.
*/
module ScrollScene {
  import opened Wrappers
  import opened Items
  import opened Placement
  import opened ScrollTracker
  import opened SectionEnter
  import Camera
  import TextureLoader

  /** A section height in pixels (the window's inner height). */
  type Height = h: int | h > 0 witness 1

  /**
    The page's mutable state: the items, the scroll tracker, the last scroll
    offset seen, the section height used for rounding, the camera's smoothed y,
    and whether the render loop has been started.
  */
  datatype Scene = Scene(items: seq<Item>, tracker: Tracker, scrollY: int, height: Height, cameraY: real, running: bool)

  /** What a scroll event did. */
  datatype Outcome = Quiet | Entered(section: int) | Faulted(fault: Fault)

  datatype Reaction = Reaction(scene: Scene, outcome: Outcome)

  /**
    The texture-load callback. `scrollY0` is the offset read when the script
    started (no scroll listener exists yet to refresh it), `height` the current
    section height and `objectsDistance` the height frozen at script start.
    If placing the items throws, nothing else happens. Otherwise the section of
    `scrollY0` is entered WITHOUT recording it in the tracker; if that section
    has no item the call throws and the render loop is never started, though
    the scroll listener is already registered.
  */
  function Start(textures: seq<Texture>, rects: seq<Rect>, vp: Viewport, objectsDistance: real, scrollY0: int, height: Height)
    : (r: Result<Scene, Fault>)
    ensures r.Failure? <==> !FallbacksHaveImages(textures, rects, 0)
    ensures r.Success? ==>
      && r.value.tracker == Initial
      && r.value.scrollY == scrollY0 && r.value.height == height
      && r.value.cameraY == Camera.Target(scrollY0)
      && |r.value.items| == |textures|
      && (r.value.running <==> 0 <= Round(scrollY0, height) < |textures|)
      && (r.value.running ==> r.value.items[Round(scrollY0, height)].tween == Some(Reveal))
    ensures r.Success? ==>
      forall i :: 0 <= i < |textures| && i != Round(scrollY0, height) ==>
        r.value.items[i] == PlaceAll(textures, rects, vp, objectsDistance).value[i]
    ensures r.Success? && 0 <= Round(scrollY0, height) < |textures| ==>
      r.value.items[Round(scrollY0, height)].(tween := None) == PlaceAll(textures, rects, vp, objectsDistance).value[Round(scrollY0, height)]
  {
    match PlaceAll(textures, rects, vp, objectsDistance)
    case Failure(e) => Failure(e)
    case Success(placed) =>
      var section := Round(scrollY0, height);
      match TryEnter(placed, section)
      case Success(items) =>
        // the placed item is untweened, so the reveal is its only change
        assert PlaceItem(section, RectAt(rects, section), textures[section], vp, objectsDistance) == Success(placed[section]);
        Success(Scene(items, Initial, scrollY0, height, Camera.Target(scrollY0), true))
      case Failure(_) => Success(Scene(placed, Initial, scrollY0, height, Camera.Target(scrollY0), false))
  }

  /**
    The scroll listener. The tracker is updated before the item is looked up,
    so a section without an item still moves the tracker, and then throws.
  */
  function HandleScroll(sc: Scene, y: int): (r: Reaction)
    ensures r.scene.scrollY == y
    ensures r.scene.tracker.current == Round(y, sc.height)
    ensures r.scene.tracker.shift - r.scene.tracker.current == sc.tracker.shift - sc.tracker.current
    ensures r.outcome == Quiet <==> Round(y, sc.height) == sc.tracker.current
    ensures r.outcome == Quiet ==> r.scene == sc.(scrollY := y)
    ensures r.outcome.Entered? <==> Round(y, sc.height) != sc.tracker.current && 0 <= Round(y, sc.height) < |sc.items|
    ensures r.outcome.Entered? ==> r.outcome.section == Round(y, sc.height)
                                   && r.scene.items == OnSectionEnter(sc.items, Round(y, sc.height))
    ensures r.outcome.Faulted? ==> r.outcome.fault == NoItem(Round(y, sc.height)) && r.scene.items == sc.items
    ensures r.scene.height == sc.height && r.scene.cameraY == sc.cameraY && r.scene.running == sc.running
  {
    var step := OnScroll(sc.tracker, y, sc.height);
    var moved := sc.(scrollY := y, tracker := step.tracker);
    match step.entered
    case None => Reaction(moved, Quiet)
    case Some(section) =>
      match TryEnter(sc.items, section)
      case Success(items) => Reaction(moved.(items := items), Entered(section))
      case Failure(e) => Reaction(moved, Faulted(e))
  }

  /** One frame of the render loop (which only runs once started): smooth the camera towards the scroll target. */
  function Tick(sc: Scene): (r: Scene)
    ensures !sc.running ==> r == sc
    ensures sc.running ==> r == sc.(cameraY := Camera.Step(sc.cameraY, sc.scrollY))
    ensures Camera.Abs(r.cameraY - Camera.Target(sc.scrollY)) <= Camera.Abs(sc.cameraY - Camera.Target(sc.scrollY))
  {
    if sc.running then sc.(cameraY := Camera.Step(sc.cameraY, sc.scrollY)) else sc
  }

  /** The resize listener: only the section height changes; items are not moved. */
  function Resize(sc: Scene, height: Height): (r: Scene)
    ensures r.items == sc.items && r.tracker == sc.tracker && r.cameraY == sc.cameraY
    ensures r.scrollY == sc.scrollY && r.running == sc.running
    ensures r.height == height
  {
    sc.(height := height)
  }

  /**
    The demo's quirk: the section entered at load is not recorded, so the first
    scroll that still rounds to it enters it a second time.
  */
  lemma LoadSectionEnteredTwice(textures: seq<Texture>, rects: seq<Rect>, vp: Viewport, objectsDistance: real,
                                scrollY0: int, height: Height, y: int)
    requires Start(textures, rects, vp, objectsDistance, scrollY0, height).Success?
    requires Start(textures, rects, vp, objectsDistance, scrollY0, height).value.running
    requires Round(y, height) == Round(scrollY0, height)
    ensures var sc := Start(textures, rects, vp, objectsDistance, scrollY0, height).value;
      HandleScroll(sc, y).outcome == Entered(Round(scrollY0, height))
  {
  }

  /** Rapid scroll events within one section are harmless: after the first, nothing but the offset changes. */
  lemma ScrollWithinSectionIsQuiet(sc: Scene, y: int, y': int)
    requires Round(y', sc.height) == Round(y, sc.height)
    ensures HandleScroll(HandleScroll(sc, y).scene, y').outcome == Quiet
    ensures HandleScroll(HandleScroll(sc, y).scene, y').scene == HandleScroll(sc, y).scene.(scrollY := y')
  {
  }

  /** Feed a sequence of scroll offsets to the listener. */
  function ScrollAll(sc: Scene, ys: seq<int>): Scene
    decreases |ys|
  {
    if ys == [] then sc else ScrollAll(HandleScroll(sc, ys[0]).scene, ys[1..])
  }

  /** Item `after` differs from `before` at most in a reveal tween. */
  predicate OnlyRevealed(before: Item, after: Item)
  {
    after.(tween := before.tween) == before && (after.tween == before.tween || after.tween == Some(Reveal))
  }

  /**
    Over any run of scroll events: the number of items never changes, an item
    changes in nothing but its tween and only ever to the reveal tween, the
    camera is untouched, and `shift - currentSection` is conserved (so from the
    load state `shift == currentSection + 1`).
  */
  lemma {:induction false} ScrollsOnlyReveal(sc: Scene, ys: seq<int>)
    ensures |ScrollAll(sc, ys).items| == |sc.items|
    ensures forall i :: 0 <= i < |sc.items| ==> OnlyRevealed(sc.items[i], ScrollAll(sc, ys).items[i])
    ensures ScrollAll(sc, ys).cameraY == sc.cameraY && ScrollAll(sc, ys).height == sc.height
    ensures ScrollAll(sc, ys).tracker.shift - ScrollAll(sc, ys).tracker.current == sc.tracker.shift - sc.tracker.current
    decreases |ys|
  {
    if ys != [] {
      var next := HandleScroll(sc, ys[0]).scene;
      ScrollsOnlyReveal(next, ys[1..]);
      var last := ScrollAll(sc, ys);
      forall i | 0 <= i < |sc.items| ensures OnlyRevealed(sc.items[i], last.items[i]) {
        assert OnlyRevealed(sc.items[i], next.items[i]);
        assert OnlyRevealed(next.items[i], last.items[i]);
      }
    }
  }

  lemma ShiftAfterLoadAndScrolls(textures: seq<Texture>, rects: seq<Rect>, vp: Viewport, objectsDistance: real,
                                 scrollY0: int, height: Height, ys: seq<int>)
    requires Start(textures, rects, vp, objectsDistance, scrollY0, height).Success?
    ensures var sc := ScrollAll(Start(textures, rects, vp, objectsDistance, scrollY0, height).value, ys);
      sc.tracker.shift == sc.tracker.current + 1
  {
    ScrollsOnlyReveal(Start(textures, rects, vp, objectsDistance, scrollY0, height).value, ys);
  }

  /**
    A fallback item sits where the camera comes to rest for its section: with
    the section height unchanged since load, the offset `index * height`
    rounds to section `index`, and the camera's resting y for that offset
    equals the item's y.
  */
  lemma FallbackItemMeetsCamera(textures: seq<Texture>, rects: seq<Rect>, vp: Viewport, height: Height, index: nat)
    requires PlaceAll(textures, rects, vp, height as real).Success?
    requires |rects| <= index < |textures|
    ensures Round(index * height, height) == index
    ensures PlaceAll(textures, rects, vp, height as real).value[index].position.y == Camera.Target(index * height)
  {
    RoundUnique(index * height, height, index);
    PlacedItemsFollowTextures(textures, rects, vp, height as real);
    assert (index * height) as real == height as real * index as real;
  }

  /**
    Scrolling to the top of section `index` enters it, provided the tracker
    is elsewhere and the section has an item.
  */
  lemma ScrollToSectionEntersIt(sc: Scene, index: nat)
    requires sc.tracker.current != index && index < |sc.items|
    ensures HandleScroll(sc, index * sc.height).outcome == Entered(index)
    ensures HandleScroll(sc, index * sc.height).scene.items[index].tween == Some(Reveal)
  {
    RoundUnique(index * sc.height, sc.height, index);
  }

  /** The texture array handed over at completion, read as a dense array. */
  function Dense<T>(m: map<int, T>, n: nat): (s: seq<T>)
    requires forall i :: 0 <= i < n ==> i in m
    ensures |s| == n && forall i :: 0 <= i < n ==> s[i] == m[i]
  {
    seq(n, i requires 0 <= i < n => m[i])
  }

  /**
    End to end: when each of the five sources loads once, in any order, the
    completion callback receives a full array and, if placement succeeds, the
    scene has one item per source with item `i` carrying source `i`'s texture.
  */
  lemma LoadedSceneFollowsSources(events: seq<TextureLoader.LoadEvent<Texture>>, rects: seq<Rect>, vp: Viewport,
                                  objectsDistance: real, scrollY0: int, height: Height)
    requires TextureLoader.OnceEach(events, |TextureLoader.ImageSources|)
    ensures var delivered := TextureLoader.Replay(TextureLoader.Begin<Texture>(5), events).completions;
      && |delivered| == 1
      && (forall i :: 0 <= i < 5 ==> i in delivered[0])
      && var textures := Dense(delivered[0], 5);
         var r := Start(textures, rects, vp, objectsDistance, scrollY0, height);
         r.Success? ==>
           && |r.value.items| == 5
           && forall k :: 0 <= k < 5 ==> r.value.items[events[k].index].texture == Some(events[k].texture)
  {
    TextureLoader.ExactlyOnceInIndexOrder(5, events);
    var delivered := TextureLoader.Replay(TextureLoader.Begin<Texture>(5), events).completions;
    var textures := Dense(delivered[0], 5);
    var r := Start(textures, rects, vp, objectsDistance, scrollY0, height);
    if r.Success? {
      var placed := PlaceAll(textures, rects, vp, objectsDistance);
      PlacedItemsFollowTextures(textures, rects, vp, objectsDistance);
      forall k | 0 <= k < 5 ensures r.value.items[events[k].index].texture == Some(events[k].texture) {
        var i := events[k].index;
        assert placed.value[i].texture == Some(textures[i]);
      }
    }
  }
}
