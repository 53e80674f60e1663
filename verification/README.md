# Scroll-synchronised image planes — a Dafny model

The demo shows five images as textured planes in a full-page WebGL canvas.
As the page scrolls, each plane is revealed by a shader animation, and the
camera follows the scroll position. This project models the sequential core
of that demo with pure functions and immutable records, and proves properties
about it:

- **TextureLoader** (`src/textureLoader.js`): a counting barrier over the five
  image sources. Each success callback writes its slot of a sparse array and
  increments a counter. The callback that brings the counter to the batch size
  hands the array to the completion callback. Load events are replayed from an
  arbitrary sequence, so every completion order is covered.
- **Items** (`src/meshItems.js`): the item record (plane size, position,
  texture and shader uniforms) and its initial uniform values.
- **Placement** (`src/main.js`, texture-load callback): the map from textures
  and layout-container rectangles to items. A container's pixel box (top-left
  origin, y down) is mapped to world space (centre origin, y up). Items beyond
  the containers fall back to the texture's own size, stacked one section
  height apart. Coordinates are exact `real`s.
- **ScrollTracker**: the state machine over `(currentSection, shift)`, starting
  at `(-1, 0)`. `Math.round(scrollY / height)` is modelled as round-half-up on
  integers.
- **SectionEnter**: `onSectionEnter`, which asks for a 1.0-over-3.5-seconds
  progress tween on one item.
- **Camera**: the per-frame `lerp(y, -scrollY, 0.1)`.
- **ScrollScene**: the wiring. It covers the load callback (placement, the
  initial section-enter, starting the render loop), the scroll listener, the
  render tick and the resize listener, all over one `Scene` value.

Some behaviour of the code is easy to miss. The model keeps it as written:

- An entered section with no item is not a no-op. Indexing the item array
  yields `undefined` and the handler throws. This happens after the tracker
  has been updated (`HandleScroll`, outcome `Faulted`). At load, the throw
  also prevents the render loop from starting (`Start`, `running == false`).
- The section entered at load is not recorded in the tracker. The first scroll
  that still rounds to it enters it again (`LoadSectionEnteredTwice`).
- Resize does not reposition items and does not recompute the camera's field
  of view (`Resize`).
- A source that fails to load leaves the batch waiting forever. There is no
  retry and no placeholder (`MissingSourceStalls`).
- With zero sources the completion callback never runs (`CompletesOnlyAtCount`).
- Container rectangles are read relative to the viewport, while the camera
  starts at `-scrollY`. So on a page already scrolled by `s` when the textures
  arrive, every container-backed mesh sits `s` pixels above its element
  (`ContainerPosition` states the alignment for a camera at y = 0).
- The offset used for the load-time section is the one read when the script
  started. No scroll listener exists yet to refresh it.

## Model

| member | source | states |
|---|---|---|
| `Items.NewMeshItem` | src/meshItems.js:5-17 | a new mesh has progress 0, `uSize` and `uPlaneResolution` equal to its size, `uTextureSize` (1,1), no texture, no tween, and sits at the origin |
| `TextureLoader.OnLoad` | src/textureLoader.js:16-23 | a callback fills its own slot and adds no other, keeps the other slots, increments the counter by one, and, exactly when the counter reaches the batch size, appends a completion carrying the slot array as it now is; otherwise the completions are unchanged |
| `TextureLoader.Replay` | src/textureLoader.js:15-24 | replaying callbacks keeps the batch size and never retracts a completion |
| `TextureLoader.CounterCountsCallbacks` | src/textureLoader.js:11-19 | the counter equals its start value plus the number of callbacks received |
| `TextureLoader.CompletesOnlyAtCount` | src/textureLoader.js:19-21 | for any delivery: at most one completion; a completion exists iff the batch is non-empty and at least N callbacks arrived; none while the counter is below N |
| `TextureLoader.LastCallbackCompletes` | src/textureLoader.js:19-21 | when the callbacks end exactly at the count, the last one hands over the final slot array |
| `TextureLoader.SlotsFollowEvents` | src/textureLoader.js:13-17 | filled slots are the old ones plus the reporting sources; each slot holds the texture of the last event for its source; unreported slots are untouched |
| `TextureLoader.OnceEachCoversAll` | src/textureLoader.js:15-24 | if each source reports once, every index `0..N-1` has reported |
| `TextureLoader.ExactlyOnceInIndexOrder` | src/textureLoader.js:9-26 | if each of N > 0 sources reports once in any order: exactly one completion, all N slots filled, slot `i` holds source `i`'s texture |
| `TextureLoader.MissingSourceStalls` | src/textureLoader.js:15-24 | if a source never reports and no source reports twice, the completion callback is never invoked |
| `TextureLoader.FixedBatchCompletesOnce` | src/textureLoader.js:2-12 | the batch is the five imported sources; delivered once each, it completes once with indices 0..4 filled |
| `Placement.ToWorld` | src/main.js:73-74 | pixel-to-world mapping is inverted by the world-to-pixel mapping |
| `Placement.WorldPixelRoundTrip` | src/main.js:73-74 | the world-to-pixel mapping is inverted by the pixel-to-world mapping |
| `Placement.ContainerPosition` | src/main.js:67-74 | a container-backed plane has z = 0, and its top-left and bottom-right corners land on the world images of the container's corners |
| `Placement.FallbacksOneSectionApart` | src/main.js:80-82 | fallback items are centred at x = 0, each exactly `objectsDistance` below the previous |
| `Placement.OrOne` | src/main.js:89-92 | the logical-or fallback keeps every non-zero present value and yields exactly 1 for an absent or zero value, so never 0 |
| `Placement.TextureSize` | src/main.js:89-92 | each `uTextureSize` component is the image dimension when that is non-zero, and exactly 1 when the image is missing or the dimension is zero; never 0 |
| `Placement.PlaceItem` | src/main.js:64-94 | a container-backed item covers its container with the container's size; a fallback item takes the image's size at `(0, -objectsDistance*index, 0)`; the item carries its texture, progress 0, no tween; it fails iff it is a fallback and the image is missing |
| `Placement.PlaceFrom` | src/main.js:64-97 | the map from an index on succeeds iff every later fallback texture has an image, yields one item per texture, and on failure names a fallback index with no image |
| `Placement.PlaceAll` | src/main.js:59-97 | placement succeeds iff every fallback texture has an image |
| `Placement.PlacedItemsFollowTextures` | src/main.js:59-97 | as many items as textures, item `i` carries texture `i` whatever the container count; container items sit on their containers, the rest at `(0, -objectsDistance*i, 0)` with the image's size; texture sizes never 0 |
| `Placement.ThreeContainersFiveTextures` | src/main.js:64-83 | with three containers and five textures (the last two with images), items 0-2 sit on their containers and items 3 and 4 at `(0, -3*objectsDistance, 0)` and `(0, -4*objectsDistance, 0)` |
| `Placement.TwoContainerExample` | src/main.js:67-74 | rects (0,0,100,100) and (200,0,100,100) in an 800 x 600 viewport give positions (-350, 250, 0) and (-150, 250, 0) |
| `ScrollTracker.RoundBracket` | src/main.js:116-117 | the specification of `Round`, the model of `Math.round(scrollY / sizes.height)`: the rounded section `s` lies within half a section of the offset, halves going up, `2sh <= 2y + h < 2sh + 2h` |
| `ScrollTracker.RoundIsRealRounding` | src/main.js:116-117 | the integer rounding equals `floor(y/h + 1/2)` over the reals, which is `Math.round(y/h)` |
| `ScrollTracker.RoundUnique` | src/main.js:116-117 | any integer within half a section of the offset is the rounded section |
| `ScrollTracker.OnScroll` | src/main.js:113-123 | an event fires iff the rounded section differs from the current one, and it carries that section; afterwards the current section is the rounded one; without an event the state is unchanged; `shift - current` is conserved |
| `ScrollTracker.OnScrollIdempotent` | src/main.js:116-123 | a second scroll rounding to the same section fires nothing and changes nothing |
| `ScrollTracker.ShiftTelescopes` | src/main.js:119-121 | over any run of scrolls `shift - currentSection` is unchanged |
| `ScrollTracker.ShiftIsSectionPlusOne` | src/main.js:108-121 | from the initial (-1, 0), `shift == currentSection + 1` after every run of scrolls |
| `ScrollTracker.RunEventsAreSections` | src/main.js:112-125 | over a run there is at most one event per scroll, and each event is the section of one of the offsets |
| `ScrollTracker.RunEventsAlternate` | src/main.js:116-122 | over a run consecutive events differ, the first differs from the start section, the last is the final section, no events means an unchanged tracker, and the final section is the last offset's |
| `ScrollTracker.SecondScrollSameSectionIsQuiet` | src/main.js:119-123 | repeating a scroll adds no event and no state change |
| `ScrollTracker.HalfwayExample` | src/main.js:116-123 | from section 0, scrolling to 0.4 of a section fires nothing and to 0.6 enters section 1 |
| `SectionEnter.OnSectionEnter` | src/main.js:127-135 | only item `s` changes, and only its tween, which becomes target 1.0 over 3.5 s; every other item and the length are unchanged |
| `SectionEnter.TryEnter` | src/main.js:127-129 | the unchecked index throws exactly when the section has no item |
| `SectionEnter.EnterTwiceIsEnterOnce` | src/main.js:127-135 | entering the same section twice records the same last request as entering it once (the tween library itself would start a second tween) |
| `SectionEnter.EntersCommute` | src/main.js:127-135 | entering two sections gives the same items in either order |
| `SectionEnter.RevealStaysInRange` | src/main.js:128-134 | for any monotone ease, a reveal started in [0,1] stays between its start and 1.0 and is 1.0 after 3.5 s |
| `Camera.Lerp` | src/main.js:144-146 | the remaining gap to `b` is the old gap times `1 - t` |
| `Camera.Step` | src/main.js:154 | one tick leaves nine tenths of the distance to `-scrollY` and never crosses the target |
| `Camera.GeometricApproach` | src/main.js:148-155 | with the scroll at rest, after n ticks the distance is `0.9^n` times the initial distance |
| `Camera.TargetIsFixedPoint` | src/main.js:154 | a tick leaves the camera in place iff it is at `-scrollY` |
| `Camera.NeverOvershoots` | src/main.js:148-155 | after any number of ticks the camera lies between its start and the target |
| `ScrollScene.Start` | src/main.js:52-102 | load fails iff placement throws; otherwise the items are the placed items, except that the initial section's item (if it exists) also has the reveal tween; the tracker is still (-1, 0), the camera starts at `-scrollY`, and the render loop runs iff the initial section has an item |
| `ScrollScene.HandleScroll` | src/main.js:112-135 | quiet iff the section is unchanged (only the offset moves); otherwise the tracker moves, and the item is revealed if it exists or the handler faults leaving items unchanged; camera, height and loop untouched |
| `ScrollScene.Tick` | src/main.js:148-158 | a tick only runs once the loop is started, moves only the camera, and never increases its distance to the target |
| `ScrollScene.Resize` | src/main.js:17-26 | resize changes only the section height; items, tracker and camera are untouched |
| `ScrollScene.LoadSectionEnteredTwice` | src/main.js:99-122 | after a load that started the loop, the first scroll rounding to the load section enters it again |
| `ScrollScene.ScrollWithinSectionIsQuiet` | src/main.js:113-123 | a second scroll in the same section is quiet and changes only the offset |
| `ScrollScene.ScrollsOnlyReveal` | src/main.js:112-135 | over any run of scrolls the item count is kept, items change only by gaining the reveal tween, the camera and height are untouched, and `shift - current` is conserved |
| `ScrollScene.ShiftAfterLoadAndScrolls` | src/main.js:108-121 | after load and any scrolls, `shift == currentSection + 1` |
| `ScrollScene.FallbackItemMeetsCamera` | src/main.js:75-83 | with section height = `objectsDistance`, the offset `index * height` rounds to section `index`, and the camera's resting y for that offset is fallback item `index`'s y |
| `ScrollScene.ScrollToSectionEntersIt` | src/main.js:113-122 | a scroll to offset `index * height` enters section `index` and gives its item the reveal tween, when the tracker is elsewhere and the item exists |
| `ScrollScene.LoadedSceneFollowsSources` | src/main.js:52-97 | when the five sources each load once in any order, the delivered array is full, and a successful load has five items, each carrying its own source's texture |

## Left out

- Rendering library calls are not modelled: scene, renderer and camera construction, `renderer.render`, `setSize`, `setPixelRatio` and `updateProjectionMatrix`. The scene is the item sequence.
- Field-of-view arithmetic uses `Math.atan`, which is transcendental. The resize handler computes it into an unused local anyway.
- Frame scheduling (`requestAnimationFrame`) and the clock are left out. A tick is one call of `Tick`, and `deltaTime` is never used.
- Plane geometry (128 x 128 segments) and the shader programs are left out. Only the uniform values are kept.
- DOM access is left out. This covers `querySelectorAll`, `getBoundingClientRect` (rectangles are inputs), removing the `loading` class, `console.warn` on a count mismatch, and the image and shader imports.
- The texture decoder is not modelled. Each delivered texture is an input of a load event.
- SectionEnter.OnSectionEnter: records only the last tween requested per item. The tween library's own overwrite and stacking rules for repeated requests are not modelled, nor is the time evolution of `uProgress` (see `Sample`, which takes the easing curve as a parameter).
- ScrollTracker.Round: scroll offsets and the section height are integers here. A browser may report a fractional `scrollY`.
- ScrollScene.Start: the section height is positive (`Height`). A zero-height window is not modelled; there the division would give Infinity or NaN.
- Placement.PlaceItem: an image is either present with two numeric dimensions or absent. An image with an undefined or NaN dimension is not modelled separately.
- Camera.Step: uses exact real arithmetic, not IEEE doubles.
