/** Choosing a reachable frame for the satellite window: placeGolemWindow of app_golem_window.go. */
module Placement {
  import opened Options
  import opened GolemWindow

  // A display work area.
  datatype Rect = Rect(x: int, y: int, width: int, height: int)

  datatype SavedWindow = SavedWindow(mode: string, frame: Frame)

  const MIN_WIDTH: int := 380
  const MIN_HEIGHT: int := 520
  const DEFAULT_WIDTH: int := 480
  const DEFAULT_HEIGHT: int := 720

  function Min(a: int, b: int): int { if a < b then a else b }

  function Max(a: int, b: int): int { if a < b then b else a }

  function Distance(a: int, b: int): nat { if a < b then b - a else a - b }

  predicate Usable(r: Rect) { r.width > 0 && r.height > 0 }

  predicate HasBounds(f: Frame) { f.width > 0 && f.height > 0 }

  predicate Inside(f: Frame, r: Rect) {
    && f.width > 0 && f.height > 0 && r.x <= f.x && f.x + f.width <= r.x + r.width
    && r.y <= f.y && f.y + f.height <= r.y + r.height
  }

  // ----- overlap --------------------------------------------------------------------------------

  // golemOverlapArea
  function Overlap(f: Frame, r: Rect): int {
    var left, top := Max(f.x, r.x), Max(f.y, r.y);
    var right, bottom := Min(f.x + f.width, r.x + r.width), Min(f.y + f.height, r.y + r.height);
    if right <= left || bottom <= top then 0 else (right - left) * (bottom - top)
  }

  // The unit cell at (px, py) belongs to both.
  ghost predicate Shares(f: Frame, r: Rect, px: int, py: int) {
    && f.x <= px < f.x + f.width && f.y <= py < f.y + f.height
    && r.x <= px < r.x + r.width && r.y <= py < r.y + r.height
  }

  /** The overlap is positive exactly when the frame and the area share something, and whole when it is inside. */
  lemma OverlapMeans(f: Frame, r: Rect)
    ensures Overlap(f, r) >= 0 && (Overlap(f, r) > 0 <==> exists px, py :: Shares(f, r, px, py))
    ensures Inside(f, r) ==> Overlap(f, r) == f.width * f.height > 0
  {
    var left, top := Max(f.x, r.x), Max(f.y, r.y);
    var right, bottom := Min(f.x + f.width, r.x + r.width), Min(f.y + f.height, r.y + r.height);
    if left < right && top < bottom {
      Positive(right - left, bottom - top);
      assert Shares(f, r, left, top);
    }
    if Inside(f, r) { assert right - left == f.width && bottom - top == f.height; }
  }

  lemma Positive(a: int, b: int)
    requires a > 0 && b > 0
    ensures a * b > 0
  {
  }

  // ----- the choice of area ---------------------------------------------------------------------

  function UsableOf(screens: seq<Rect>): seq<Rect> {
    if screens == [] then []
    else
      var last := screens[|screens| - 1];
      UsableOf(screens[..|screens| - 1]) + (if Usable(last) then [last] else [])
  }

  // The usable work areas, the fallback last.
  function Areas(screens: seq<Rect>, fallback: Rect): seq<Rect> {
    UsableOf(screens) + (if Usable(fallback) then [fallback] else [])
  }

  // The frame whose overlap is measured.
  function Wanted(saved: Frame): Frame {
    saved.(width := if saved.width <= 0 then DEFAULT_WIDTH else saved.width,
           height := if saved.height <= 0 then DEFAULT_HEIGHT else saved.height)
  }

  // The first area of largest overlap, when a saved frame overlaps any.
  ghost predicate BestAt(saved: Frame, areas: seq<Rect>, i: int) {
    && 0 <= i < |areas| && Overlap(Wanted(saved), areas[i]) > 0
    && (forall k :: 0 <= k < |areas| ==> Overlap(Wanted(saved), areas[k]) <= Overlap(Wanted(saved), areas[i]))
    && (forall k :: 0 <= k < i ==> Overlap(Wanted(saved), areas[k]) < Overlap(Wanted(saved), areas[i]))
  }

  ghost predicate NoOverlap(saved: Frame, areas: seq<Rect>) {
    !HasBounds(saved) || forall k :: 0 <= k < |areas| ==> Overlap(Wanted(saved), areas[k]) <= 0
  }

  ghost predicate Chosen(saved: Frame, screens: seq<Rect>, fallback: Rect, target: Rect, centred: bool) {
    var areas := Areas(screens, fallback);
    && areas != []
    && (if centred then NoOverlap(saved, areas) && target == (if Usable(fallback) then fallback else areas[0])
        else HasBounds(saved) && exists i :: BestAt(saved, areas, i) && target == areas[i])
  }

  // ----- the frame ------------------------------------------------------------------------------

  // A size as wanted, but at least the minimum and at most the area.
  ghost predicate Sized(size: int, wanted: int, least: int, room: int) {
    && Min(least, room) <= size <= room
    && (size < wanted ==> size == room) && (size > wanted ==> size == Min(least, room))
  }

  // The position nearest to the saved one that keeps the frame inside.
  ghost predicate Nearest(at: int, wanted: int, low: int, high: int) {
    low <= at <= high && forall p :: low <= p <= high ==> Distance(at, wanted) <= Distance(p, wanted)
  }

  ghost predicate Fits(f: Frame, saved: Frame, target: Rect, centred: bool) {
    && Inside(f, target)
    && Sized(f.width, Wanted(saved).width, MIN_WIDTH, target.width)
    && Sized(f.height, Wanted(saved).height, MIN_HEIGHT, target.height)
    && (if centred then f.x == target.x + (target.width - f.width) / 2 && f.y == target.y + (target.height - f.height) / 2
        else Nearest(f.x, saved.x, target.x, target.x + target.width - f.width)
             && Nearest(f.y, saved.y, target.y, target.y + target.height - f.height))
  }

  ghost predicate Placed(f: Frame, saved: Frame, screens: seq<Rect>, fallback: Rect) {
    exists target, centred :: Chosen(saved, screens, fallback, target, centred) && Fits(f, saved, target, centred)
  }

  function Clamp(value: int, low: int, high: int): int {
    var top := Max(low, high);
    if value < low then low else if value > top then top else value
  }

  lemma ClampIsNearest(value: int, low: int, high: int)
    requires low <= high
    ensures Nearest(Clamp(value, low, high), value, low, high)
  {
    var at := Clamp(value, low, high);
    forall p | low <= p <= high ensures Distance(at, value) <= Distance(p, value) {}
  }

  // A size in the source's three steps.
  function Size(wanted: int, least: int, room: int): int { Min(Max(wanted, Min(least, room)), room) }

  lemma FrameFits(saved: Frame, target: Rect, centred: bool)
    requires Usable(target)
    ensures var w := Size(Wanted(saved).width, MIN_WIDTH, target.width); var h := Size(Wanted(saved).height, MIN_HEIGHT, target.height);
            var x := if centred then target.x + (target.width - w) / 2 else Clamp(saved.x, target.x, target.x + target.width - w);
            var y := if centred then target.y + (target.height - h) / 2 else Clamp(saved.y, target.y, target.y + target.height - h);
            Fits(Frame(x, y, w, h), saved, target, centred)
  {
    var w := Size(Wanted(saved).width, MIN_WIDTH, target.width);
    var h := Size(Wanted(saved).height, MIN_HEIGHT, target.height);
    ClampIsNearest(saved.x, target.x, target.x + target.width - w);
    ClampIsNearest(saved.y, target.y, target.y + target.height - h);
    hide Nearest;
  }

  /** The frame is placed as specified, in the mode it was saved in, or there is no usable area at all. */
  method PlaceGolemWindow(window: SavedWindow, screens: seq<Rect>, fallback: Rect) returns (r: Option<SavedWindow>)
    ensures r.None? <==> Areas(screens, fallback) == []
    ensures r.Some? ==> r.value.mode == window.mode && Placed(r.value.frame, window.frame, screens, fallback)
  {
    var saved := window.frame;
    hide Overlap, Fits;
    var areas: seq<Rect> := [];
    for i := 0 to |screens|
      invariant areas == UsableOf(screens[..i])
    {
      assert screens[..i + 1][..i] == screens[..i];
      if Usable(screens[i]) {
        areas := areas + [screens[i]];
      }
    }
    assert screens[..|screens|] == screens;
    if Usable(fallback) {
      areas := areas + [fallback];
    }
    assert areas == Areas(screens, fallback);
    if |areas| == 0 {
      return None;
    }
    var target, centred := ChooseArea(saved, areas, screens, fallback);
    AreaUsable(saved, screens, fallback, target, centred);
    var wanted := Wanted(saved);
    var width := Min(Max(wanted.width, Min(MIN_WIDTH, target.width)), target.width);
    var height := Min(Max(wanted.height, Min(MIN_HEIGHT, target.height)), target.height);
    var x, y;
    if centred {
      x, y := target.x + (target.width - width) / 2, target.y + (target.height - height) / 2;
    } else {
      x, y := Clamp(saved.x, target.x, target.x + target.width - width), Clamp(saved.y, target.y, target.y + target.height - height);
    }
    FrameFits(saved, target, centred);
    return Some(SavedWindow(window.mode, Frame(x, y, width, height)));
  }

  // The loop over the areas.
  method ChooseArea(saved: Frame, areas: seq<Rect>, screens: seq<Rect>, fallback: Rect) returns (target: Rect, centred: bool)
    requires areas == Areas(screens, fallback) && areas != []
    ensures Chosen(saved, screens, fallback, target, centred)
  {
    hide Overlap, Areas;
    target, centred := if Usable(fallback) then fallback else areas[0], true;
    if HasBounds(saved) {
      var best := 0;
      for i := 0 to |areas|
        invariant best >= 0 && forall k :: 0 <= k < i ==> Overlap(Wanted(saved), areas[k]) <= best
        invariant centred ==> best == 0 && target == (if Usable(fallback) then fallback else areas[0])
        invariant !centred ==> best > 0 && exists j :: 0 <= j < i && Overlap(Wanted(saved), areas[j]) == best && target == areas[j]
                                                       && forall k :: 0 <= k < j ==> Overlap(Wanted(saved), areas[k]) < best
      {
        var overlap := Overlap(Wanted(saved), areas[i]);
        if overlap > best {
          best, target, centred := overlap, areas[i], false;
        }
      }
      if !centred {
        var j :| 0 <= j < |areas| && Overlap(Wanted(saved), areas[j]) == best && target == areas[j]
                 && forall k :: 0 <= k < j ==> Overlap(Wanted(saved), areas[k]) < best;
        assert BestAt(saved, areas, j);
      }
    }
  }

  lemma {:induction false} AllUsable(screens: seq<Rect>, k: nat)
    requires k < |UsableOf(screens)|
    ensures Usable(UsableOf(screens)[k])
  {
    if k < |UsableOf(screens[..|screens| - 1])| { AllUsable(screens[..|screens| - 1], k); }
  }

  lemma AreasUsable(screens: seq<Rect>, fallback: Rect)
    ensures forall k :: 0 <= k < |Areas(screens, fallback)| ==> Usable(Areas(screens, fallback)[k])
  {
    forall k | 0 <= k < |UsableOf(screens)| ensures Usable(UsableOf(screens)[k]) { AllUsable(screens, k); }
  }

  lemma AreaUsable(saved: Frame, screens: seq<Rect>, fallback: Rect, target: Rect, centred: bool)
    requires Chosen(saved, screens, fallback, target, centred)
    ensures Usable(target) && target in Areas(screens, fallback)
  {
    hide Overlap, UsableOf;
    AreasUsable(screens, fallback);
    var areas := Areas(screens, fallback);
    if centred && Usable(fallback) { assert areas[|areas| - 1] == fallback; }
  }

  // ----- placing again --------------------------------------------------------------------------

  lemma Monotone(a: int, b: int, c: int, d: int)
    requires 0 <= a <= c && 0 <= b <= d
    ensures a * b <= c * d
  {
    assert c * d - a * b == (c - a) * d + a * (d - b);
  }

  lemma StrictlyLess(a: int, b: int, c: int, d: int)
    requires 0 < a <= c && 0 < b <= d && (a < c || b < d)
    ensures a * b < c * d
  {
    assert c * d - a * b == (c - a) * d + a * (d - b);
    if a < c { Positive(c - a, d); Monotone(0, 0, a, d - b); } else { Positive(a, d - b); Monotone(0, 0, c - a, d); }
  }

  // An area overlaps the whole frame only if it contains it.
  lemma WholeIsInside(f: Frame, r: Rect)
    requires HasBounds(f)
    ensures Overlap(f, r) <= f.width * f.height && (Overlap(f, r) == f.width * f.height ==> Inside(f, r))
  {
    var left, top := Max(f.x, r.x), Max(f.y, r.y);
    var right, bottom := Min(f.x + f.width, r.x + r.width), Min(f.y + f.height, r.y + r.height);
    Positive(f.width, f.height);
    if left < right && top < bottom {
      Monotone(right - left, bottom - top, f.width, f.height);
      if right - left < f.width || bottom - top < f.height { StrictlyLess(right - left, bottom - top, f.width, f.height); }
    }
  }

  // The first area that contains the frame.
  ghost predicate FirstAround(f: Frame, areas: seq<Rect>, i: int) {
    0 <= i < |areas| && Inside(f, areas[i]) && forall k :: 0 <= k < i ==> !Inside(f, areas[k])
  }

  // A placed frame is placed again in the first area that contains it.
  lemma ChosenAgain(f: Frame, screens: seq<Rect>, fallback: Rect, i: int, next: Rect, centred: bool)
    requires FirstAround(f, Areas(screens, fallback), i) && Chosen(f, screens, fallback, next, centred)
    ensures next == Areas(screens, fallback)[i] && !centred
  {
    hide Overlap, Areas, Inside;
    var areas := Areas(screens, fallback);
    InsideBounds(f, areas[i]);
    assert Wanted(f) == f;
    OverlapMeans(f, areas[i]);
    if !centred {
      var j :| BestAt(f, areas, j) && next == areas[j];
      WholeIsInside(f, areas[j]);
      assert Overlap(f, areas[i]) <= Overlap(f, areas[j]);
    }
  }

  lemma InsideBounds(f: Frame, r: Rect)
    requires Inside(f, r)
    ensures HasBounds(f)
  {
  }

  // Placed inside an area, the frame keeps its position, and its size unless that is below the area's minimum.
  lemma FitsAgain(f: Frame, g: Frame, area: Rect)
    requires Inside(f, area) && Fits(g, f, area, false)
    ensures g == f <==> f.width >= Min(MIN_WIDTH, area.width) && f.height >= Min(MIN_HEIGHT, area.height)
  {
    assert Wanted(f) == f;
    assert Distance(f.x, f.x) == 0 && Distance(f.y, f.y) == 0;
  }

  /** Placing a placed frame again returns it unchanged exactly when it has the minimum sizes of the first area that contains it. */
  lemma PlacingAgain(f: Frame, g: Frame, saved: Frame, screens: seq<Rect>, fallback: Rect, i: int)
    requires Placed(f, saved, screens, fallback) && Placed(g, f, screens, fallback)
    requires FirstAround(f, Areas(screens, fallback), i)
    ensures var area := Areas(screens, fallback)[i];
            g == f <==> f.width >= Min(MIN_WIDTH, area.width) && f.height >= Min(MIN_HEIGHT, area.height)
  {
    hide Chosen, Areas, FirstAround;
    var next, again :| Chosen(f, screens, fallback, next, again) && Fits(g, f, next, again);
    ChosenAgain(f, screens, fallback, i, next, again);
    AroundIs(f, Areas(screens, fallback), i);
    FitsAgain(f, g, next);
  }

  lemma AroundIs(f: Frame, areas: seq<Rect>, i: int)
    requires FirstAround(f, areas, i)
    ensures 0 <= i < |areas| && Inside(f, areas[i])
  {
  }

  // Every placed frame has such an area: the one it was placed in contains it.
  lemma AroundExists(f: Frame, areas: seq<Rect>, j: int) returns (i: int)
    requires 0 <= j < |areas| && Inside(f, areas[j])
    ensures FirstAround(f, areas, i) && i <= j
  {
    i := 0;
    while !Inside(f, areas[i])
      invariant 0 <= i <= j && forall k :: 0 <= k < i ==> !Inside(f, areas[k])
      decreases j - i
    {
      i := i + 1;
    }
  }

  // ----- the program's own calls ----------------------------------------------------------------

  // createGolemWindow: the first display's work area, or nothing usable when there are no displays.
  function Fallback(screens: seq<Rect>): Rect { if screens == [] then Rect(0, 0, 0, 0) else screens[0] }

  // On one axis, what a wanted interval shares with an area is kept by the placed one.
  lemma AxisKept(wanted: int, size: int, low: int, room: int, least: int, at: int, placed: int)
    requires size > 0 && room > 0 && Sized(placed, size, least, room) && Nearest(at, wanted, low, low + room - placed)
    ensures at <= Max(wanted, low) || Min(wanted + size, low + room) <= Max(wanted, low)
    ensures Min(wanted + size, low + room) <= at + placed || Min(wanted + size, low + room) <= Max(wanted, low)
  {
    var high := low + room - placed;
    if wanted < low { assert Distance(at, wanted) <= Distance(low, wanted); }
    else if wanted > high { assert Distance(at, wanted) <= Distance(high, wanted); }
    else { assert Distance(at, wanted) <= Distance(wanted, wanted); }
  }

  // So an area that contains the placed frame overlaps the wanted one at least as much.
  lemma OverlapKept(f: Frame, saved: Frame, target: Rect, around: Rect)
    requires HasBounds(saved) && Usable(target) && Fits(f, saved, target, false) && Inside(f, around) && Overlap(saved, target) > 0
    ensures Overlap(saved, target) <= Overlap(saved, around)
  {
    assert Wanted(saved) == saved;
    AxisKept(saved.x, saved.width, target.x, target.width, MIN_WIDTH, f.x, f.width);
    AxisKept(saved.y, saved.height, target.y, target.height, MIN_HEIGHT, f.y, f.height);
    hide Sized, Nearest;
    var right, bottom := Min(saved.x + saved.width, target.x + target.width), Min(saved.y + saved.height, target.y + target.height);
    var left, top := Max(saved.x, target.x), Max(saved.y, target.y);
    var right', bottom' := Min(saved.x + saved.width, around.x + around.width), Min(saved.y + saved.height, around.y + around.height);
    var left', top' := Max(saved.x, around.x), Max(saved.y, around.y);
    assert left' <= left < right <= right' && top' <= top < bottom <= bottom';
    Monotone(right - left, bottom - top, right' - left', bottom' - top');
  }

  // A frame that overlapped a display stays on the area it was placed in.
  lemma BestIsFirst(f: Frame, saved: Frame, areas: seq<Rect>, j: int, i: int)
    requires HasBounds(saved) && BestAt(saved, areas, j) && Usable(areas[j]) && Fits(f, saved, areas[j], false)
    requires FirstAround(f, areas, i)
    ensures i == j
  {
    hide Overlap, Sized, Nearest;
    assert Wanted(saved) == saved;
    if i < j { OverlapKept(f, saved, areas[j], areas[i]); }
  }

  lemma FirstFallback(screens: seq<Rect>)
    requires Areas(screens, Fallback(screens)) != []
    ensures Usable(Fallback(screens)) ==> Areas(screens, Fallback(screens))[0] == Fallback(screens)
  {
    if screens != [] && Usable(screens[0]) { FirstUsable(screens); }
  }

  lemma {:induction false} FirstUsable(screens: seq<Rect>)
    requires screens != [] && Usable(screens[0])
    ensures UsableOf(screens) != [] && UsableOf(screens)[0] == screens[0]
  {
    if |screens| > 1 { FirstUsable(screens[..|screens| - 1]); }
  }

  /** With the fallback the program passes, placing a placed frame again always returns it unchanged. */
  lemma OwnCallsSettle(f: Frame, g: Frame, saved: Frame, screens: seq<Rect>)
    requires Placed(f, saved, screens, Fallback(screens)) && Placed(g, f, screens, Fallback(screens))
    ensures g == f
  {
    var fallback := Fallback(screens);
    var areas := Areas(screens, fallback);
    var target, centred :| Chosen(saved, screens, fallback, target, centred) && Fits(f, saved, target, centred);
    AreaUsable(saved, screens, fallback, target, centred);
    FirstFallback(screens);
    hide Overlap, UsableOf, Areas, NoOverlap, Sized, Nearest, Fallback, Placed;
    var j;
    if centred { j := 0; } else { j :| BestAt(saved, areas, j) && target == areas[j]; }
    var i := AroundExists(f, areas, j);
    if !centred { BestIsFirst(f, saved, areas, j, i); }
    PlacingAgain(f, g, saved, screens, fallback, i);
    SizedLeast(f, saved, target, centred);
  }

  lemma SizedLeast(f: Frame, saved: Frame, target: Rect, centred: bool)
    requires Fits(f, saved, target, centred)
    ensures Inside(f, target) && f.width >= Min(MIN_WIDTH, target.width) && f.height >= Min(MIN_HEIGHT, target.height)
  {
  }

  // ----- other callers --------------------------------------------------------------------------

  predicate Disjoint(a: Rect, b: Rect) {
    a.x + a.width <= b.x || b.x + b.width <= a.x || a.y + a.height <= b.y || b.y + b.height <= a.y
  }

  ghost predicate Separate(areas: seq<Rect>) { forall a, b :: a in areas && b in areas ==> a == b || Disjoint(a, b) }

  /** With any fallback, work areas that are pairwise disjoint or equal settle too: the frame lies in one area only. */
  lemma SeparateAreasSettle(f: Frame, g: Frame, saved: Frame, screens: seq<Rect>, fallback: Rect)
    requires Separate(Areas(screens, fallback)) && Placed(f, saved, screens, fallback) && Placed(g, f, screens, fallback)
    ensures g == f
  {
    var areas := Areas(screens, fallback);
    var target, centred :| Chosen(saved, screens, fallback, target, centred) && Fits(f, saved, target, centred);
    AreaUsable(saved, screens, fallback, target, centred);
    SizedLeast(f, saved, target, centred);
    hide Chosen, Areas, Fits, Placed;
    var j :| 0 <= j < |areas| && areas[j] == target;
    var i := AroundExists(f, areas, j);
    assert areas[i] == target || Disjoint(areas[i], target);
    PlacingAgain(f, g, saved, screens, fallback, i);
  }

  const SCREEN := Rect(0, 0, 1000, 1000)
  const NESTED := Rect(0, 0, 200, 200)

  /** A fallback the program never passes, inside a larger screen: a frame first centred on it then grows to the screen's minimum. */
  lemma NestedAreasCanGrow()
    ensures Placed(Frame(0, 0, 200, 200), Frame(0, 0, 0, 0), [SCREEN], NESTED)
    ensures Placed(Frame(0, 0, 380, 520), Frame(0, 0, 200, 200), [SCREEN], NESTED)
  {
    hide Fits, Chosen;
    CentredFits();
    GrownFits();
    NestedChosen(Frame(0, 0, 0, 0), Frame(0, 0, 200, 200));
  }

  lemma CentredFits()
    ensures Fits(Frame(0, 0, 200, 200), Frame(0, 0, 0, 0), NESTED, true)
  {
    FrameFits(Frame(0, 0, 0, 0), NESTED, true);
    hide Fits;
  }

  lemma GrownFits()
    ensures Fits(Frame(0, 0, 380, 520), Frame(0, 0, 200, 200), SCREEN, false)
  {
    FrameFits(Frame(0, 0, 200, 200), SCREEN, false);
    hide Fits;
  }

  lemma NestedChosen(saved: Frame, f: Frame)
    requires !HasBounds(saved) && f == Frame(0, 0, 200, 200)
    ensures Chosen(saved, [SCREEN], NESTED, NESTED, true) && Chosen(f, [SCREEN], NESTED, SCREEN, false)
  {
    assert [SCREEN][..0] == [] && UsableOf([]) == [];
    assert Areas([SCREEN], NESTED) == [SCREEN, NESTED];
    NestedBest(f);
    hide BestAt, Areas, UsableOf, Overlap;
  }

  lemma NestedBest(f: Frame)
    requires f == Frame(0, 0, 200, 200)
    ensures BestAt(f, [SCREEN, NESTED], 0)
  {
    assert Overlap(Wanted(f), SCREEN) == 40000 && Overlap(Wanted(f), NESTED) == 40000;
    hide Overlap, Wanted;
  }
}
