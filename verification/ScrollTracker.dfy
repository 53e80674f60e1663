/**
  The scroll handler of src/main.js as a state machine over
  `(currentSection, shift)`. Each scroll offset is rounded to a section
  (one viewport height each); only a change of that integer does anything.
*/
module ScrollTracker {
  import opened Wrappers

  /** `currentSection` and the cumulative signed section delta `shift`. */
  datatype Tracker = Tracker(current: int, shift: int)

  /** The module-level state before any scroll. */
  const Initial := Tracker(-1, 0)

  /**
    `Math.round(y / h)` on a positive section height: halves round up.
  */
  function Round(y: int, h: int): int
    requires h > 0
  {
    (2 * y + h) / (2 * h)
  }

  /** The rounded section lies within half a section of the offset (halves going up). */
  lemma RoundBracket(y: int, h: int)
    requires h > 0
    ensures 2 * Round(y, h) * h <= 2 * y + h < 2 * Round(y, h) * h + 2 * h
  {
    var s := Round(y, h);
    assert 2 * y + h == s * (2 * h) + (2 * y + h) % (2 * h);
  }

  /** The section is the unique integer within half a section of the offset. */
  lemma RoundUnique(y: int, h: int, s: int)
    requires h > 0
    requires 2 * s * h <= 2 * y + h < 2 * s * h + 2 * h
    ensures Round(y, h) == s
  {
    var r := Round(y, h);
    RoundBracket(y, h);
    assert (r - s - 1) * (2 * h) == 2 * r * h - (2 * s * h + 2 * h);
    NegativeFactor(r - s - 1, 2 * h);
    assert (s - r - 1) * (2 * h) == 2 * s * h - (2 * r * h + 2 * h);
    NegativeFactor(s - r - 1, 2 * h);
  }

  /** The rounding agrees with `floor(y / h + 1/2)` computed over the reals, which is `Math.round`. */
  lemma RoundIsRealRounding(y: int, h: int)
    requires h > 0
    ensures Round(y, h) == ((y as real) / (h as real) + 0.5).Floor
  {
    var s := Round(y, h);
    RoundBracket(y, h);
    BracketToReal(y, h, s);
    DivideBracket(y as real, h as real, s as real);
  }

  /** A product with a positive factor has the sign of the other factor. */
  lemma NegativeFactor(a: int, k: int)
    requires k > 0 && a * k < 0
    ensures a < 0
  {
  }

  lemma NegativeFactorReal(d: real, k: real)
    requires k > 0.0 && d * k < 0.0
    ensures d < 0.0
  {
  }

  lemma NonPositiveFactor(d: real, k: real)
    requires k > 0.0 && d * k <= 0.0
    ensures d <= 0.0
  {
  }

  /** Casting to real commutes with multiplication. */
  lemma CastProduct(a: int, b: int)
    ensures (a * b) as real == (a as real) * (b as real)
  {
  }

  /** The rounding bracket, read over the reals. */
  lemma BracketToReal(y: int, h: int, s: int)
    requires h > 0
    requires 2 * s * h <= 2 * y + h < 2 * s * h + 2 * h
    ensures var S, Y, H := s as real, y as real, h as real;
      2.0 * (S * H) <= 2.0 * Y + H < 2.0 * (S * H) + 2.0 * H
  {
    CastProduct(s, h);
    assert 2 * s * h == 2 * (s * h);
  }

  /** Dividing the bracket by the section height. */
  lemma DivideBracket(Y: real, H: real, S: real)
    requires H > 0.0
    requires 2.0 * (S * H) <= 2.0 * Y + H < 2.0 * (S * H) + 2.0 * H
    ensures S <= Y / H + 0.5 < S + 1.0
  {
    var Q := Y / H;
    assert Q * H == Y;
    var lo := S - Q - 0.5;
    assert lo * H == S * H - Q * H - 0.5 * H;
    NonPositiveFactor(lo, H);
    var hi := Q + 0.5 - S - 1.0;
    assert hi * H == Q * H + 0.5 * H - S * H - H;
    NegativeFactorReal(hi, H);
  }

  /** What one scroll event does: the new tracker and the section entered, if any. */
  datatype Step = Step(tracker: Tracker, entered: Option<int>)

  /** The scroll listener. */
  function OnScroll(t: Tracker, y: int, h: int): (r: Step)
    requires h > 0
    ensures r.entered.Some? <==> Round(y, h) != t.current
    ensures r.entered.Some? ==> r.entered.value == Round(y, h)
    ensures r.tracker.current == Round(y, h)
    ensures r.entered.None? ==> r.tracker == t
    ensures r.tracker.shift - r.tracker.current == t.shift - t.current
  {
    var section := Round(y, h);
    if t.current != section then
      Step(Tracker(section, t.shift + (section - t.current)), Some(section))
    else
      Step(t, None)
  }

  /** Repeated scroll events that round to the same section fire nothing and change nothing. */
  lemma OnScrollIdempotent(t: Tracker, y: int, y': int, h: int)
    requires h > 0 && Round(y', h) == Round(y, h)
    ensures OnScroll(OnScroll(t, y, h).tracker, y', h) == Step(OnScroll(t, y, h).tracker, None)
  {
  }

  /** The outcome of a run of scroll events: final tracker and the sections entered, in order. */
  datatype Run = Run(tracker: Tracker, entered: seq<int>)

  /** Feed the scroll offsets `ys` to the listener, collecting the section-enter events. */
  function Scrolls(t: Tracker, ys: seq<int>, h: int): (r: Run)
    requires h > 0
    decreases |ys|
  {
    if ys == [] then Run(t, [])
    else
      var step := OnScroll(t, ys[0], h);
      var rest := Scrolls(step.tracker, ys[1..], h);
      Run(rest.tracker, (if step.entered.Some? then [step.entered.value] else []) + rest.entered)
  }

  /**
    The shift deltas telescope: `shift - currentSection` never changes, so from
    the initial `(-1, 0)` the counter always equals `currentSection + 1`.
  */
  lemma {:induction false} ShiftTelescopes(t: Tracker, ys: seq<int>, h: int)
    requires h > 0
    ensures Scrolls(t, ys, h).tracker.shift - Scrolls(t, ys, h).tracker.current == t.shift - t.current
    decreases |ys|
  {
    if ys != [] {
      ShiftTelescopes(OnScroll(t, ys[0], h).tracker, ys[1..], h);
    }
  }

  lemma ShiftIsSectionPlusOne(ys: seq<int>, h: int)
    requires h > 0
    ensures Scrolls(Initial, ys, h).tracker.shift == Scrolls(Initial, ys, h).tracker.current + 1
  {
    ShiftTelescopes(Initial, ys, h);
  }

  /** The section of each scroll offset, in order. */
  function SectionsOf(ys: seq<int>, h: int): (ss: seq<int>)
    requires h > 0
    ensures |ss| == |ys| && forall j :: 0 <= j < |ys| ==> ss[j] == Round(ys[j], h)
  {
    if ys == [] then [] else [Round(ys[0], h)] + SectionsOf(ys[1..], h)
  }

  /**
    Every event of a run is the section of one of its scroll offsets, and
    there is at most one event per scroll.
  */
  lemma {:induction false} RunEventsAreSections(t: Tracker, ys: seq<int>, h: int)
    requires h > 0
    ensures |Scrolls(t, ys, h).entered| <= |ys|
    ensures forall k :: 0 <= k < |Scrolls(t, ys, h).entered| ==> Scrolls(t, ys, h).entered[k] in SectionsOf(ys, h)
    decreases |ys|
  {
    if ys != [] {
      var step := OnScroll(t, ys[0], h);
      RunEventsAreSections(step.tracker, ys[1..], h);
      assert SectionsOf(ys, h) == [Round(ys[0], h)] + SectionsOf(ys[1..], h);
    }
  }

  /**
    The events of a run never repeat a section back to back, the first differs
    from the starting section, the last names the final section, a run without
    events leaves the tracker as it was, and after a non-empty run the tracker
    sits at the last offset's section.
  */
  lemma {:induction false} RunEventsAlternate(t: Tracker, ys: seq<int>, h: int)
    requires h > 0
    ensures var r := Scrolls(t, ys, h);
      && (forall k :: 0 <= k < |r.entered| - 1 ==> r.entered[k] != r.entered[k + 1])
      && (r.entered != [] ==> r.entered[0] != t.current && r.entered[|r.entered| - 1] == r.tracker.current)
      && (r.entered == [] ==> r.tracker == t)
      && (ys != [] ==> r.tracker.current == Round(ys[|ys| - 1], h))
    decreases |ys|
  {
    if ys != [] {
      var step := OnScroll(t, ys[0], h);
      var tail := ys[1..];
      RunEventsAlternate(step.tracker, tail, h);
      if |ys| > 1 {
        assert tail[|tail| - 1] == ys[|ys| - 1];
      }
    }
  }

  /** A scroll repeated at the same offset adds no event and no state change. */
  lemma SecondScrollSameSectionIsQuiet(t: Tracker, y: int, h: int)
    requires h > 0
    ensures Scrolls(t, [y, y], h).entered == Scrolls(t, [y], h).entered
    ensures Scrolls(t, [y, y], h).tracker == Scrolls(t, [y], h).tracker
  {
    OnScrollIdempotent(t, y, y, h);
    assert [y, y][1..] == [y];
  }

  /** From section 0: 0.4 of a section fires nothing, 0.6 of a section enters section 1. */
  lemma HalfwayExample()
    ensures Scrolls(Tracker(0, 1), [0, 40], 100).entered == []
    ensures Scrolls(Tracker(0, 1), [0, 40, 60], 100).entered == [1]
  {
    var t := Tracker(0, 1);
    RoundUnique(0, 100, 0);
    RoundUnique(40, 100, 0);
    RoundUnique(60, 100, 1);
    assert OnScroll(t, 0, 100) == Step(t, None);
    assert OnScroll(t, 40, 100) == Step(t, None);
    assert OnScroll(t, 60, 100) == Step(Tracker(1, 2), Some(1));
    assert Scrolls(t, [], 100) == Run(t, []);
    assert Scrolls(t, [60], 100).entered == [1] by {
      assert [60][1..] == [];
    }
    assert Scrolls(t, [40], 100).entered == [] by {
      assert [40][1..] == [];
    }
    assert Scrolls(t, [40, 60], 100).entered == [1] by {
      assert [40, 60][1..] == [60];
    }
    assert [0, 40][1..] == [40];
    assert [0, 40, 60][1..] == [40, 60];
  }

}
