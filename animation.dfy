/** The per-window animation state machine.  A resize arms an animation
  * (start rectangle `animainitGeom`, target `current`), a commit starts it,
  * and every frame ticks it: the drawn rectangle `anim.drawn` moves from
  * `anim.initial` toward `current` by the eased progress
  * `passedFrames / totalFrames`, until the tick taken at progress 1.0
  * stops it. */
module Animation {
  import opened CNum
  import opened Opt
  import opened Geometry
  import opened Curve
  import opened State
  import opened Settings
  import opened Border

  /** One interpolated coordinate: `a + (b - a) * f` computed in floating
    * point, stored into an `unsigned int`, and from there into the
    * `int` field of the drawn box. */
  function Coord(a: int, b: int, f: real): int {
    I32(RealToU32(a as real + (b - a) as real * f))
  }

  /** The detour through `unsigned int` loses nothing: any interpolated
    * value that fits an `int`, negative ones included, is the truncated
    * value. */
  lemma CoordIsTrunc(a: int, b: int, f: real)
    requires InI32(Trunc(a as real + (b - a) as real * f))
    ensures Coord(a, b, f) == Trunc(a as real + (b - a) as real * f)
  {
    I32OfU32(Trunc(a as real + (b - a) as real * f));
  }

  lemma CoordAtOne(a: int, b: int)
    requires InI32(b)
    ensures Coord(a, b, 1.0) == b
  {
    assert a as real + (b - a) as real * 1.0 == b as real;
    CoordIsTrunc(a, b, 1.0);
  }

  lemma CoordAtZero(a: int, b: int)
    requires InI32(a)
    ensures Coord(a, b, 0.0) == a
  {
    assert a as real + (b - a) as real * 0.0 == a as real;
    CoordIsTrunc(a, b, 0.0);
  }

  predicate BoxInI32(b: Box) { InI32(b.x) && InI32(b.y) && InI32(b.width) && InI32(b.height) }

  /** The rectangle drawn at eased value `f`. */
  function Interpolate(init: Box, target: Box, f: real): Box {
    Box(Coord(init.x, target.x, f), Coord(init.y, target.y, f),
        Coord(init.width, target.width, f), Coord(init.height, target.height, f))
  }

  /** At eased value 1 the drawn rectangle is the target. */
  lemma InterpolateAtOne(init: Box, target: Box)
    requires BoxInI32(target)
    ensures Interpolate(init, target, 1.0) == target
  {
    CoordAtOne(init.x, target.x);
    CoordAtOne(init.y, target.y);
    CoordAtOne(init.width, target.width);
    CoordAtOne(init.height, target.height);
  }

  /** At eased value 0 it is the start rectangle. */
  lemma InterpolateAtZero(init: Box, target: Box)
    requires BoxInI32(init)
    ensures Interpolate(init, target, 0.0) == init
  {
    CoordAtZero(init.x, target.x);
    CoordAtZero(init.y, target.y);
    CoordAtZero(init.width, target.width);
    CoordAtZero(init.height, target.height);
  }

  /** `(double)passed_frames / total_frames`. */
  function Progress(a: Anim): Double { Ratio(a.passedFrames, a.totalFrames) }

  /** The tick about to be taken is the last: progress is exactly 1.0. */
  predicate AtLastFrame(a: Anim) { a.totalFrames != 0 && a.passedFrames == a.totalFrames }

  lemma AtLastFrameIff(a: Anim)
    ensures IsOne(Progress(a)) <==> AtLastFrame(a)
  {
    RatioIsOneIff(a.passedFrames, a.totalFrames);
  }

  /** The curve a tick eases by: NONE eases like MOVE. */
  function TickAction(a: Action): Action { if a.NoAction? then Move else a }

  /** The animation after one tick of `client_animation_next_tick` with
    * eased value `factor`.  `fadeIn` says the client fades in (it is not
    * being killed, fade-in is configured and the client does not opt out);
    * `isOpen` is `is_open_animation`. */
  function TickAnim(a: Anim, target: Box, geom: Box, factor: real, fadeIn: bool, isOpen: bool): (r: Anim)
    ensures r.initial == a.initial && r.totalFrames == a.totalFrames && r.duration == a.duration
    ensures r.shouldAnimate == a.shouldAnimate && r.fromRule == a.fromRule
    ensures IsOne(Progress(a)) ==>
      !r.running && r.action == Move && !r.tagining && !r.tagouting && !r.beginFadeIn
      && r.tagouted == (a.tagouted || a.tagouting) && r.passedFrames == a.passedFrames
    ensures !IsOne(Progress(a)) ==>
      r.passedFrames == a.passedFrames + 1 && r.running == a.running && r.action == a.action
      && r.tagining == a.tagining && r.tagouting == a.tagouting && r.tagouted == a.tagouted
      && (r.beginFadeIn <==> a.beginFadeIn || (fadeIn && isOpen))
    ensures r.drawn == if IsOne(Progress(a)) && a.tagouting then geom else Interpolate(a.initial, target, factor)
  {
    var drawn := Interpolate(a.initial, target, factor);
    var fading := a.beginFadeIn || (fadeIn && (isOpen || a.beginFadeIn));
    if IsOne(Progress(a)) then
      a.(drawn := if a.tagouting then geom else drawn, beginFadeIn := false, action := Move,
         tagining := false, running := false, tagouting := false, tagouted := a.tagouted || a.tagouting)
    else
      a.(drawn := drawn, beginFadeIn := fading, passedFrames := a.passedFrames + 1)
  }

  /** `k` ticks toward `target`, eased through the table `xs`.  Only the
    * first tick sees `is_open_animation`: the tick clears it.  The table
    * stays the one of the running action, which changes only at the
    * finishing tick. */
  function Ticks(a: Anim, target: Box, geom: Box, xs: seq<Vec2>, fadeIn: bool, isOpen: bool, k: nat): Anim
    requires |xs| == BAKED_POINTS_COUNT
    decreases k
  {
    if k == 0 then a
    else Ticks(TickAnim(a, target, geom, Lookup(xs, Progress(a)), fadeIn, isOpen), target, geom, xs, fadeIn, false, k - 1)
  }

  /** The tick taken at `passed == total` with a table that eases 1.0 to
    * exactly 1 stops the animation and draws the window at its target (a
    * tag-out at its layout rectangle). */
  lemma FinalTickEased(a: Anim, target: Box, geom: Box, xs: seq<Vec2>, fadeIn: bool, isOpen: bool)
    requires |xs| == BAKED_POINTS_COUNT && Lookup(xs, Finite(1.0)) == 1.0
    requires 0 < a.totalFrames && a.passedFrames == a.totalFrames
    requires BoxInI32(target)
    ensures var e := TickAnim(a, target, geom, Lookup(xs, Progress(a)), fadeIn, isOpen);
            !e.running && e.action == Move && !e.tagining && !e.tagouting
            && e.passedFrames == a.totalFrames && e.totalFrames == a.totalFrames && e.initial == a.initial
            && e.tagouted == (a.tagouted || a.tagouting)
            && e.drawn == (if a.tagouting then geom else target)
  {
    RatioIsOneIff(a.passedFrames, a.totalFrames);
    assert Progress(a) == Finite(1.0);
    InterpolateAtOne(a.initial, target);
  }

  /** The tick taken at `passed == total` stops the animation and draws the
    * window at its target (a tag-out at its layout rectangle). */
  lemma FinalTick(a: Anim, target: Box, geom: Box, xs: seq<Vec2>, c: Control, fadeIn: bool, isOpen: bool)
    requires |xs| == BAKED_POINTS_COUNT && IsBaked(xs, c) && 0.0 <= c.c0 <= 1.0 && 0.0 <= c.c2 <= 1.0
    requires 0 < a.totalFrames && a.passedFrames == a.totalFrames
    requires BoxInI32(target)
    ensures var e := TickAnim(a, target, geom, Lookup(xs, Progress(a)), fadeIn, isOpen);
            !e.running && e.action == Move && !e.tagining && !e.tagouting
            && e.passedFrames == a.totalFrames && e.totalFrames == a.totalFrames && e.initial == a.initial
            && e.tagouted == (a.tagouted || a.tagouting)
            && e.drawn == (if a.tagouting then geom else target)
  {
    LookupAtEndIsOne(xs, c, Finite(1.0));
    FinalTickEased(a, target, geom, xs, fadeIn, isOpen);
  }

  /** An animation with at least one frame ticks `passed < total` frames by
    * one each, and the tick taken at `passed == total` stops it: the
    * action returns to MOVE, a tag-out becomes tagged out and is drawn at
    * its layout rectangle, and every other window is drawn exactly at the
    * target. */
  lemma {:induction false} TickFinishes(a: Anim, target: Box, geom: Box, xs: seq<Vec2>, c: Control, fadeIn: bool, isOpen: bool)
    requires |xs| == BAKED_POINTS_COUNT && IsBaked(xs, c) && 0.0 <= c.c0 <= 1.0 && 0.0 <= c.c2 <= 1.0
    requires 0 < a.totalFrames && a.passedFrames <= a.totalFrames
    requires BoxInI32(target)
    ensures var e := Ticks(a, target, geom, xs, fadeIn, isOpen, a.totalFrames - a.passedFrames + 1);
            !e.running && e.action == Move && !e.tagining && !e.tagouting
            && e.passedFrames == a.totalFrames && e.totalFrames == a.totalFrames && e.initial == a.initial
            && e.tagouted == (a.tagouted || a.tagouting)
            && e.drawn == (if a.tagouting then geom else target)
    decreases a.totalFrames - a.passedFrames
  {
    var a1 := TickAnim(a, target, geom, Lookup(xs, Progress(a)), fadeIn, isOpen);
    if a.passedFrames == a.totalFrames {
      FinalTick(a, target, geom, xs, c, fadeIn, isOpen);
      assert Ticks(a1, target, geom, xs, fadeIn, false, 0) == a1;
    } else {
      RatioIsOneIff(a.passedFrames, a.totalFrames);
      TickFinishes(a1, target, geom, xs, c, fadeIn, false);
    }
  }

  /** With `total_frames == 0` the progress is NaN and then +inf, never
    * 1.0, so the animation never stops however many frames are drawn. */
  lemma {:induction false} ZeroFramesNeverFinish(a: Anim, target: Box, geom: Box, xs: seq<Vec2>, fadeIn: bool, isOpen: bool, k: nat)
    requires |xs| == BAKED_POINTS_COUNT
    requires a.totalFrames == 0 && a.running
    ensures Ticks(a, target, geom, xs, fadeIn, isOpen, k).running
    ensures Ticks(a, target, geom, xs, fadeIn, isOpen, k).totalFrames == 0
    decreases k
  {
    if k > 0 {
      RatioIsOneIff(a.passedFrames, a.totalFrames);
      var a1 := TickAnim(a, target, geom, Lookup(xs, Progress(a)), fadeIn, isOpen);
      ZeroFramesNeverFinish(a1, target, geom, xs, fadeIn, false, k - 1);
    }
  }

  /** `output_frame_duration_ms` divides by the refresh rates (mHz) of all
    * enabled monitors added together: every monitor's frame ticks every
    * client, so frames arrive at the combined rate. */
  function RefreshSum(mons: seq<Monitor>): int
    reads mons
  {
    if |mons| == 0 then 0
    else RefreshSum(mons[..|mons| - 1]) + (if mons[|mons| - 1].enabled then mons[|mons| - 1].refresh else 0)
  }

  method RefreshTotal(mons: seq<Monitor>) returns (total: int)
    ensures total == RefreshSum(mons)
  {
    total := 0;
    var i := 0;
    while i < |mons|
      invariant 0 <= i <= |mons|
      invariant total == RefreshSum(mons[..i])
    {
      assert mons[..i + 1][..i] == mons[..i];
      if mons[i].enabled {
        total := total + mons[i].refresh;
      }
      i := i + 1;
    }
    assert mons[..|mons|] == mons;
  }

  /** `duration / output_frame_duration_ms()` stored into the unsigned
    * `total_frames`: `duration * refresh / 10^6` truncated; with no
    * refresh the frame duration is +inf and the quotient 0. */
  function TotalFramesAsWritten(duration: nat, refreshTotal: int): nat {
    if refreshTotal == 0 then 0
    else RealToU32(duration as real * refreshTotal as real / 1000000.0)
  }

  /** A duration shorter than one frame yields no frames at all: 10 ms at
    * 60 Hz. */
  lemma ShortDurationHasNoFrames()
    ensures TotalFramesAsWritten(10, 60000) == 0
  {
    assert 10 as real * 60000 as real / 1000000.0 == 0.6;
  }

  /** The intended frame count: at least one frame, so that the tick at
    * progress 1.0 is reached. */
  function TotalFrames(duration: nat, refreshTotal: int): (r: nat)
    ensures r >= 1
    ensures TotalFramesAsWritten(duration, refreshTotal) >= 1 ==> r == TotalFramesAsWritten(duration, refreshTotal)
  {
    Max(1, TotalFramesAsWritten(duration, refreshTotal))
  }

  /** The frames at the combined refresh rate last the duration, less
    * under one frame. */
  lemma TotalFramesCoverDuration(duration: nat, refreshTotal: int)
    requires refreshTotal > 0 && duration * refreshTotal < 1000000 * TWO_32
    ensures var n := TotalFramesAsWritten(duration, refreshTotal);
            n as real * 1000000.0 <= duration as real * refreshTotal as real < (n + 1) as real * 1000000.0
  {
    var v := duration as real * refreshTotal as real / 1000000.0;
    assert v < TWO_32 as real;
    assert Trunc(v) as real <= v < Trunc(v) as real + 1.0;
  }

  /** `client_set_pending_state`'s choice: animate when animations are on
    * and the window tags in, or it is not grabbed and either opens or has
    * a new target. */
  function ShouldAnimate(animations: bool, tagining: bool, grabbed: bool, isOpen: bool, sameTarget: bool): (r: bool)
    ensures r <==> animations && (tagining || (!grabbed && (isOpen || !sameTarget)))
  {
    if !animations then false
    else if tagining then true
    else if grabbed || (!isOpen && sameTarget) then false
    else true
  }

  /** `client_commit` on the animation record: a pending animation starts
    * from `init` at frame 0 of `TotalFrames`, and the drawn rectangle
    * jumps to `init` only when nothing is running. */
  function CommitAnim(a: Anim, init: Box, refreshTotal: int): (r: Anim)
    ensures !a.shouldAnimate ==> r == a
    ensures a.shouldAnimate ==>
      r.running && !r.shouldAnimate && r.passedFrames == 0 && r.initial == init
      && r.totalFrames == TotalFrames(a.duration, refreshTotal) && r.totalFrames >= 1
      && r.drawn == (if a.running then a.drawn else init)
      && r.action == a.action && r.duration == a.duration
      && r.tagining == a.tagining && r.tagouting == a.tagouting && r.tagouted == a.tagouted
  {
    if a.shouldAnimate then
      a.(drawn := if a.running then a.drawn else init, initial := init, passedFrames := 0,
         totalFrames := TotalFrames(a.duration, refreshTotal), running := true, shouldAnimate := false)
    else a
  }

  /** A committed animation ends after `TotalFrames + 1` ticks with the
    * window drawn at its target (or, for a tag-out, at its layout
    * rectangle). */
  lemma CommittedAnimationFinishes(a: Anim, init: Box, refreshTotal: int, target: Box, geom: Box,
                                   xs: seq<Vec2>, c: Control, fadeIn: bool, isOpen: bool)
    requires a.shouldAnimate
    requires |xs| == BAKED_POINTS_COUNT && IsBaked(xs, c) && 0.0 <= c.c0 <= 1.0 && 0.0 <= c.c2 <= 1.0
    requires BoxInI32(target)
    ensures var e := Ticks(CommitAnim(a, init, refreshTotal), target, geom, xs, fadeIn, isOpen, TotalFrames(a.duration, refreshTotal) + 1);
            !e.running && e.drawn == (if a.tagouting then geom else target)
  {
    TickFinishes(CommitAnim(a, init, refreshTotal), target, geom, xs, c, fadeIn, isOpen);
  }

  /** The rectangle `resize` settles on.  `free` holds for a non-floating
    * (or grabbed) window under the scroller layout, which only gets the
    * minimum size; every other window is bounded by `bbox`. */
  function ResizeGeom(geo: Box, bw: nat, free: bool, bbox: Box): (r: Box)
    ensures r.width >= MinSide(bw) && r.height >= MinSide(bw)
    ensures free ==> r.x == geo.x && r.y == geo.y
    ensures !free && bbox.width > 0 && bbox.height > 0 ==> OverlapsX(r, bbox) && OverlapsY(r, bbox)
  {
    if free then geo.(width := Max(MinSide(bw), geo.width), height := Max(MinSide(bw), geo.height))
    else if bbox.width > 0 && bbox.height > 0 then ApplyBoundsOverlaps(geo, bw, bbox); ApplyBounds(geo, bw, bbox)
    else ApplyBounds(geo, bw, bbox)
  }

  /** `resize`'s choice of action and duration: an opening window whose
    * geometry did not change keeps OPEN; tag-outs and tag-ins are TAG;
    * otherwise an opening window is OPEN and everything else MOVE. */
  function Classify(a: Anim, geomIsCurrent: bool, isOpen: bool, cfg: Config): (r: Anim)
    ensures r == a.(action := r.action, duration := r.duration)
    ensures a.action.Open? && !a.tagining && !a.tagouting && geomIsCurrent ==> r == a
    ensures !(a.action.Open? && !a.tagining && !a.tagouting && geomIsCurrent) ==>
      (a.tagouting || a.tagining ==> r.action == Tag && r.duration == U32(cfg.durationTag))
      && (!a.tagouting && !a.tagining && isOpen ==> r.action == Open && r.duration == U32(cfg.durationOpen))
      && (!a.tagouting && !a.tagining && !isOpen ==> r.action == Move && r.duration == U32(cfg.durationMove))
  {
    if a.action.Open? && !a.tagining && !a.tagouting && geomIsCurrent then a
    else if a.tagouting then a.(duration := U32(cfg.durationTag), action := Tag)
    else if a.tagining then a.(duration := U32(cfg.durationTag), action := Tag)
    else if isOpen then a.(duration := U32(cfg.durationOpen), action := Open)
    else a.(duration := U32(cfg.durationMove), action := Move)
  }

  /** `is_special_animaiton_rule`: the slide direction some layouts force
    * on an opening tiled window, from the selected monitor's layout and
    * its count of visible tiled windows. */
  function SpecialDirection(selIsScroller: bool, floating: bool, visible: nat, newIsMaster: bool): Direction {
    if selIsScroller && !floating then Down
    else if visible < 2 && !floating then Down
    else if visible == 2 && !floating && !newIsMaster then Right
    else if !floating && newIsMaster then Left
    else Undir
  }

  /** Distance from the window's centre to a monitor edge. */
  function EdgeDistance(d: Direction, geom: Box, w: Box): int {
    var cx := geom.x + CDiv(geom.width, 2);
    var cy := geom.y + CDiv(geom.height, 2);
    match d
    case Up => cy - w.y
    case Down => w.y + w.height - cy
    case Left => cx - w.x
    case Right => w.x + w.width - cx
    case Undir => 0
  }

  /** The slide direction of an unconstrained opening window: toward the
    * nearer side horizontally and vertically, then the nearer of the two
    * (vertical on a tie). */
  function NearestEdge(geom: Box, w: Box): Direction {
    var cx := geom.x + CDiv(geom.width, 2);
    var cy := geom.y + CDiv(geom.height, 2);
    var horizontal := if w.x + w.width - cx < cx - w.x then Right else Left;
    var horizontalValue := if horizontal == Left then cx - w.x else w.x + w.width - cx;
    var vertical := if w.y + w.height - cy < cy - w.y then Down else Up;
    var verticalValue := if vertical == Up then cy - w.y else w.y + w.height - cy;
    if horizontalValue < verticalValue then horizontal else vertical
  }

  /** The window slides in from the monitor edge nearest its centre. */
  lemma NearestEdgeIsNearest(geom: Box, w: Box, d: Direction)
    requires d != Undir
    ensures NearestEdge(geom, w) != Undir
    ensures EdgeDistance(NearestEdge(geom, w), geom, w) <= EdgeDistance(d, geom, w)
  {
  }

  /** The start rectangle of a slide-in: the window's size, placed just
    * beyond the monitor edge of `dir`. */
  function SlideStart(dir: Direction, geom: Box, m: Box): Box {
    match dir
    case Up => Box(geom.x, m.y - geom.height, geom.width, geom.height)
    case Down => Box(geom.x, geom.y + m.height - (geom.y - m.y), geom.width, geom.height)
    case Left => Box(m.x - geom.width, geom.y, geom.width, geom.height)
    case Right => Box(geom.x + m.width - (geom.x - m.x), geom.y, geom.width, geom.height)
    case Undir => Box(geom.x, 0 - geom.height, geom.width, geom.height)
  }

  /** A slide starts touching the monitor's edge from outside, so it does
    * not overlap the monitor, and moves along one axis only. */
  lemma SlideStartsOffMonitor(dir: Direction, geom: Box, m: Box)
    requires dir != Undir
    ensures var s := SlideStart(dir, geom, m);
            s.width == geom.width && s.height == geom.height
            && !(OverlapsX(s, m) && OverlapsY(s, m))
            && (dir == Up ==> s.x == geom.x && s.y + s.height == m.y)
            && (dir == Down ==> s.x == geom.x && s.y == m.y + m.height)
            && (dir == Left ==> s.y == geom.y && s.x + s.width == m.x)
            && (dir == Right ==> s.y == geom.y && s.x == m.x + m.width)
  {
  }

  /** A length scaled by `ratio` (truncated); a ratio in (0, 1] never
    * makes it longer. */
  function Scaled(n: int, ratio: real): (r: int)
    ensures 0 <= n && 0.0 < ratio <= 1.0 ==> 0 <= r <= n
  {
    assert 0 <= n && 0.0 < ratio <= 1.0 ==> n as real * ratio <= n as real * 1.0;
    Trunc(n as real * ratio)
  }

  /** A length `s` centred in a span of length `len` at `x`: its start. */
  function Centred(x: int, len: int, s: int): (r: int)
    ensures 0 <= s <= len ==> x <= r && r + s <= x + len
  {
    x + CDiv(len - s, 2)
  }

  /** The start rectangle of a zoom-in: the window scaled by `ratio` and
    * centred on it. */
  function ZoomStart(geo: Box, ratio: real): Box {
    var w := Scaled(geo.width, ratio);
    var h := Scaled(geo.height, ratio);
    Box(Centred(geo.x, geo.width, w), Centred(geo.y, geo.height, h), w, h)
  }

  /** A zoom with a ratio in (0, 1] starts inside the window. */
  lemma ZoomStartInside(geo: Box, ratio: real)
    requires 0.0 < ratio <= 1.0 && geo.width >= 0 && geo.height >= 0
    ensures var s := ZoomStart(geo, ratio);
            0 <= s.width <= geo.width && 0 <= s.height <= geo.height
            && geo.x <= s.x && s.x + s.width <= geo.x + geo.width
            && geo.y <= s.y && s.y + s.height <= geo.y + geo.height
  {
  }

  /** The window's own open animation type, else the configured one. */
  function AnimationType(own: Option<string>, configured: string): string {
    match own
    case Some(t) => t
    case None => configured
  }

  /** `set_open_animaiton`. `geom` is the settled rectangle, `m` and `w`
    * the monitor's full and window areas. */
  function OpenStart(geom: Box, m: Box, w: Box, zoom: bool, ratio: real, special: Direction): Box {
    if zoom then ZoomStart(geom, ratio)
    else SlideStart(if special == Undir then NearestEdge(geom, w) else special, geom, m)
  }

  /** An opening window never takes the fallback branch of the slide: its
    * direction is always one of the four edges. */
  lemma OpenStartSlides(geom: Box, m: Box, w: Box, ratio: real, special: Direction)
    ensures exists d :: d != Undir && OpenStart(geom, m, w, false, ratio, special) == SlideStart(d, geom, m)
  {
    var d := if special == Undir then NearestEdge(geom, w) else special;
    NearestEdgeIsNearest(geom, w, Up);
    assert d != Undir && OpenStart(geom, m, w, false, ratio, special) == SlideStart(d, geom, m);
  }

  /** The start rectangle `resize` arms: a tag-out starts where it is
    * drawn; a tag-in keeps the position `arrange` chose and takes the drawn
    * size; an opening window starts at `openStart`; a move starts where it
    * is drawn. */
  function StartRect(a: Anim, init: Box, isOpen: bool, openStart: Box): Box {
    if a.tagouting then a.drawn
    else if a.tagining then init.(width := a.drawn.width, height := a.drawn.height)
    else if isOpen then openStart
    else a.drawn
  }

  /** The start overrides applied after the pending target is set: a
    * swallowed window opens from its swallower's drawn rectangle, a
    * swallowing one and floating global windows changing tag start at their
    * layout rectangle, and an open animation of type "none" starts there
    * too. */
  function OverrideStart(start: Box, action: Action, geom: Box, swallowedDrawn: Option<Box>, swallowing: bool,
                         globalFloating: bool, openNone: bool): Box {
    var s1 := if swallowedDrawn.Some? && action.Open? then swallowedDrawn.value else start;
    var s2 := if swallowing then geom else s1;
    var s3 := if globalFloating && action.Tag? then geom else s2;
    if openNone && action.Open? then geom else s3
  }
}
