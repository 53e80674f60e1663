/**
  `onSectionEnter` of src/main.js: start a progress tween to 1.0 over 3.5
  seconds on the item of the entered section. The tween library's easing and
  overwrite rules are not part of this model; the easing appears only as a
  parameter of `Sample`.
*/
module SectionEnter {
  import opened Wrappers
  import opened Items

  /** The tween every section-enter requests: progress to 1.0 over 3.5 seconds. */
  const Reveal := Tween(1.0, 3.5)

  /**
    Start the reveal of item `s`. The demo indexes the item array without a
    bounds check, so callers must pass an existing index.
  */
  function OnSectionEnter(items: seq<Item>, s: int): (r: seq<Item>)
    requires 0 <= s < |items|
    ensures |r| == |items|
    ensures r[s].tween == Some(Tween(1.0, 3.5))
    ensures r[s].(tween := items[s].tween) == items[s]
    ensures forall i :: 0 <= i < |items| && i != s ==> r[i] == items[i]
  {
    items[s := items[s].(tween := Some(Reveal))]
  }

  /**
    What the call does on any section: an index past either end of the array
    reads `undefined` and the property access throws.
  */
  function TryEnter(items: seq<Item>, s: int): (r: Result<seq<Item>, Fault>)
    ensures r.Failure? <==> !(0 <= s < |items|)
    ensures r.Failure? ==> r.error == NoItem(s)
    ensures r.Success? ==> r.value == OnSectionEnter(items, s)
  {
    if 0 <= s < |items| then Success(OnSectionEnter(items, s)) else Failure(NoItem(s))
  }

  /** Entering the same section twice requests nothing more than entering it once. */
  lemma EnterTwiceIsEnterOnce(items: seq<Item>, s: int)
    requires 0 <= s < |items|
    ensures OnSectionEnter(OnSectionEnter(items, s), s) == OnSectionEnter(items, s)
  {
  }

  /** Entering two sections touches two different items, so the order does not matter. */
  lemma EntersCommute(items: seq<Item>, s: int, t: int)
    requires 0 <= s < |items| && 0 <= t < |items|
    ensures OnSectionEnter(OnSectionEnter(items, s), t) == OnSectionEnter(OnSectionEnter(items, t), s)
  {
  }

  /** An easing curve: from 0 to 1, never decreasing on `[0, 1]`. */
  ghost predicate IsEase(ease: real -> real)
  {
    && ease(0.0) == 0.0
    && ease(1.0) == 1.0
    && forall a, b :: 0.0 <= a <= b <= 1.0 ==> ease(a) <= ease(b)
  }

  function Clamp01(f: real): real
  {
    if f < 0.0 then 0.0 else if f > 1.0 then 1.0 else f
  }

  /** The animated value `elapsed` seconds after a tween started from `start`. */
  function Sample(start: real, tw: Tween, elapsed: real, ease: real -> real): real
    requires tw.duration > 0.0
  {
    start + (tw.target - start) * ease(Clamp01(elapsed / tw.duration))
  }

  /**
    The reveal never overshoots: started from a progress in `[0, 1]`, the value
    stays between the start and 1.0 and reaches 1.0 once 3.5 seconds have passed.
  */
  lemma RevealStaysInRange(start: real, elapsed: real, ease: real -> real)
    requires IsEase(ease) && 0.0 <= start <= 1.0
    ensures start <= Sample(start, Reveal, elapsed, ease) <= 1.0
    ensures elapsed >= 3.5 ==> Sample(start, Reveal, elapsed, ease) == 1.0
  {
    var f := Clamp01(elapsed / 3.5);
    EaseInUnit(ease, f);
    var e := ease(f);
    assert Sample(start, Reveal, elapsed, ease) == start + (1.0 - start) * e;
    StepTowardsOne(start, e);
    if elapsed >= 3.5 {
      assert f == 1.0;
    }
  }

  lemma EaseInUnit(ease: real -> real, f: real)
    requires IsEase(ease) && 0.0 <= f <= 1.0
    ensures 0.0 <= ease(f) <= 1.0
  {
    assert ease(0.0) <= ease(f) <= ease(1.0);
  }

  /** Moving a fraction `e` of the way from `start` to 1.0 stays between the two. */
  lemma StepTowardsOne(start: real, e: real)
    requires 0.0 <= start <= 1.0 && 0.0 <= e <= 1.0
    ensures start <= start + (1.0 - start) * e
    ensures start + (1.0 - start) * e <= 1.0
  {
    var c := 1.0 - start;
    ScaleWithinUnit(c, e);
    assert (1.0 - start) * e == c * e;
    var x := start + (1.0 - start) * e;
    assert x == start + c * e;
    assert x <= 1.0;
  }

  lemma ScaleWithinUnit(c: real, e: real)
    requires 0.0 <= c && 0.0 <= e <= 1.0
    ensures 0.0 <= c * e <= c
  {
    assert c * e <= c * 1.0;
  }
}
