/** The fade-out ghost of a closing window: `init_fadeout_client` copies the
  * window's scene into a snapshot that slides or zooms out on its own, and
  * `fadeout_client_animation_next_tick` advances it every frame until the
  * tick at progress 1.0 frees it. The snapshot's coordinates are offsets
  * from where the window was drawn, so the ghost starts at (0, 0). */
module FadeOut {
  import opened CNum
  import opened Opt
  import opened Geometry
  import opened Curve
  import opened State
  import opened Settings
  import opened Animation

  /** One tick of a ghost: the drawn rectangle moves along the eased
    * progress; the frame counter advances unless this is the last tick. */
  function FadeStep(a: Anim, target: Box, xs: seq<Vec2>): (r: Anim)
    requires |xs| == BAKED_POINTS_COUNT
    ensures r == a.(drawn := r.drawn, passedFrames := r.passedFrames)
    ensures r.passedFrames == if IsOne(Progress(a)) then a.passedFrames else a.passedFrames + 1
  {
    a.(drawn := Interpolate(a.initial, target, Lookup(xs, Progress(a))),
       passedFrames := if IsOne(Progress(a)) then a.passedFrames else a.passedFrames + 1)
  }

  /** `k` ghost ticks in a row. */
  function FadeSteps(a: Anim, target: Box, xs: seq<Vec2>, k: nat): Anim
    requires |xs| == BAKED_POINTS_COUNT
    decreases k
  {
    if k == 0 then a else FadeSteps(FadeStep(a, target, xs), target, xs, k - 1)
  }

  /** Before its last tick a ghost with frames to play advances one frame
    * per tick. */
  lemma {:induction false} FadeStepsAdvance(a: Anim, target: Box, xs: seq<Vec2>, k: nat)
    requires |xs| == BAKED_POINTS_COUNT
    requires a.totalFrames > 0 && a.passedFrames + k <= a.totalFrames
    ensures var e := FadeSteps(a, target, xs, k);
            e.passedFrames == a.passedFrames + k && e.totalFrames == a.totalFrames && e.initial == a.initial
    decreases k
  {
    if k > 0 {
      RatioIsOneIff(a.passedFrames, a.totalFrames);
      var b := FadeStep(a, target, xs);
      assert b.passedFrames == a.passedFrames + 1 && b.totalFrames == a.totalFrames && b.initial == a.initial;
      FadeStepsAdvance(b, target, xs, k - 1);
    }
  }

  /** A ghost whose frame count is positive is freed by the tick taken
    * after the `n = totalFrames - passedFrames` ticks still to play, and
    * that tick draws it at its target (`GhostNotFreedEarly`: not before). */
  lemma GhostFreedOnTime(a: Anim, target: Box, xs: seq<Vec2>, c: Control, n: nat)
    requires |xs| == BAKED_POINTS_COUNT && IsBaked(xs, c) && 0.0 <= c.c0 <= 1.0 && 0.0 <= c.c2 <= 1.0
    requires a.totalFrames > 0 && a.passedFrames + n == a.totalFrames && BoxInI32(target)
    ensures var e := FadeSteps(a, target, xs, n);
            IsOne(Progress(e)) && FadeStep(e, target, xs).drawn == target
  {
    LookupAtEndIsOne(xs, c, Finite(1.0));
    FadeStepsAdvance(a, target, xs, n);
    FinalFadeStep(FadeSteps(a, target, xs, n), target, xs);
  }

  /** Every tick before that one leaves the ghost in place. */
  lemma GhostNotFreedEarly(a: Anim, target: Box, xs: seq<Vec2>, j: nat)
    requires |xs| == BAKED_POINTS_COUNT
    requires a.totalFrames > 0 && a.passedFrames + j < a.totalFrames
    ensures !IsOne(Progress(FadeSteps(a, target, xs, j)))
  {
    FadeStepsAdvance(a, target, xs, j);
    var e := FadeSteps(a, target, xs, j);
    RatioIsOneIff(e.passedFrames, e.totalFrames);
  }

  /** The tick at frame `totalFrames` is the last and lands on the target. */
  lemma FinalFadeStep(e: Anim, target: Box, xs: seq<Vec2>)
    requires |xs| == BAKED_POINTS_COUNT && Lookup(xs, Finite(1.0)) == 1.0
    requires e.totalFrames > 0 && e.passedFrames == e.totalFrames && BoxInI32(target)
    ensures IsOne(Progress(e)) && FadeStep(e, target, xs).drawn == target
  {
    RatioIsOneIff(e.passedFrames, e.totalFrames);
    assert Progress(e) == Finite(1.0);
    InterpolateAtOne(e.initial, target);
  }

  /** A ghost with no frames to play is never freed: once `TotalFrames`
    * yields 0 the snapshot stays on screen forever. */
  lemma {:induction false} GhostWithoutFramesLingers(a: Anim, target: Box, xs: seq<Vec2>, k: nat)
    requires |xs| == BAKED_POINTS_COUNT && a.totalFrames == 0
    ensures FadeSteps(a, target, xs, k).totalFrames == 0
    ensures !IsOne(Progress(FadeSteps(a, target, xs, k)))
    decreases k
  {
    if k > 0 {
      var b := FadeStep(a, target, xs);
      assert b.totalFrames == 0;
      GhostWithoutFramesLingers(b, target, xs, k - 1);
      assert FadeSteps(a, target, xs, k) == FadeSteps(b, target, xs, k - 1);
    } else {
      RatioIsOneIff(a.passedFrames, a.totalFrames);
    }
  }

  /** `fadeout_client_animation_next_tick`: `freed` says the tick was the
    * last one, after which the source unlinks and frees the ghost. The
    * opacity and scale effects on its buffers are not modelled. */
  method FadeoutTick(f: Client, bt: BakedTables) returns (freed: bool)
    requires bt.Sized()
    modifies f`anim, f`scene
    ensures freed == IsOne(Progress(old(f.anim)))
    ensures f.anim == FadeStep(old(f.anim), f.current, bt.TableFor(old(f.anim.action))[..])
    ensures f.scene == old(f.scene).(x := f.anim.drawn.x, y := f.anim.drawn.y)
  {
    var p := Progress(f.anim);
    var factor := bt.FindAnimationCurveAt(p, f.anim.action);
    var drawn := Interpolate(f.anim.initial, f.current, factor);
    f.scene := f.scene.(x := drawn.x, y := drawn.y);
    f.anim := f.anim.(drawn := drawn);
    if IsOne(p) {
      freed := true;
    } else {
      freed := false;
      f.anim := f.anim.(passedFrames := f.anim.passedFrames + 1);
    }
  }

  /** The zoom-out target: the ghost shrunk by `ratio`, centred on where it
    * was drawn; each value goes through `double` into an `int`. */
  function ZoomOutTarget(g: Box, ratio: real): Box {
    ZoomTo(g, g.width as real * ratio, g.height as real * ratio)
  }

  /** The ghost shrunk to the (floating point) size `sw` by `sh`, centred. */
  function ZoomTo(g: Box, sw: real, sh: real): Box {
    Box(Trunc((g.width as real - sw) / 2.0), Trunc((g.height as real - sh) / 2.0), Trunc(sw), Trunc(sh))
  }

  /** Whether the window slides out downward: its layout centre lies below
    * the monitor's. */
  predicate SlidesDown(geom: Box, m: Box) {
    geom.y + CDiv(geom.height, 2) > m.y + CDiv(m.height, 2)
  }

  /** The ghost's target as the source computes it: `drawn` is where the
    * window was drawn, `geom` its layout rectangle, `m` the monitor area.
    * The upward target is the absolute `m.y - geom.height`. */
  function FadeTargetAsWritten(drawn: Box, geom: Box, m: Box, slide: bool, ratio: real): Box {
    if slide then
      drawn.(x := 0, y := if SlidesDown(geom, m) then m.height - (drawn.y - m.y) else m.y - geom.height)
    else ZoomOutTarget(drawn, ratio)
  }

  /** The ghost's target with the upward offset taken from where the
    * window was drawn, like the downward one. */
  function FadeTarget(drawn: Box, geom: Box, m: Box, slide: bool, ratio: real): Box {
    if slide then
      drawn.(x := 0, y := if SlidesDown(geom, m) then m.height - (drawn.y - m.y) else m.y - drawn.y - geom.height)
    else ZoomOutTarget(drawn, ratio)
  }

  /** A sliding ghost of a settled window ends just outside the monitor:
    * its top on the bottom edge when it slides down, its bottom on the top
    * edge when it slides up; it moves vertically only and keeps its
    * size. */
  lemma FadeSlideLeavesMonitor(drawn: Box, geom: Box, m: Box, ratio: real)
    requires drawn.height == geom.height
    ensures var t := FadeTarget(drawn, geom, m, true, ratio);
            t.x == 0 && t.width == drawn.width && t.height == drawn.height
            && (SlidesDown(geom, m) ==> drawn.y + t.y == m.y + m.height)
            && (!SlidesDown(geom, m) ==> drawn.y + t.y + t.height == m.y)
  {
  }

  /** A ratio in (0, 1] scales a size to between 0 and the size, so
    * `ZoomOutTarget(g, ratio)` is a `ZoomTo` that `ZoomToInside` covers. */
  lemma ScaledBetween(n: nat, ratio: real)
    requires 0.0 < ratio <= 1.0
    ensures 0.0 <= n as real * ratio <= n as real
  {
    assert n as real * ratio <= n as real * 1.0;
  }

  /** A ghost shrunk to any size no larger than its own ends inside the
    * rectangle it was drawn in. */
  lemma ZoomToInside(g: Box, sw: real, sh: real)
    requires 0.0 <= sw <= g.width as real && 0.0 <= sh <= g.height as real
    ensures var t := ZoomTo(g, sw, sh);
            0 <= t.width <= g.width && 0 <= t.height <= g.height
            && 0 <= t.x && t.x + t.width <= g.width && 0 <= t.y && t.y + t.height <= g.height
  {
  }

  /** On a monitor below another one (top edge at 1080), a window in the
    * upper half of it slides "up out" by the absolute offset +540: the
    * ghost moves down and ends on the monitor, where the corrected target
    * moves it up by its own height. */
  lemma FadeUpOutMovesDown()
    ensures var m := Box(0, 1080, 1920, 1080);
            var w := Box(0, 1080, 960, 540);
            !SlidesDown(w, m)
            && FadeTargetAsWritten(w, w, m, true, 0.5).y == 540
            && OverlapsY(Box(0, w.y + 540, 960, 540), m)
            && FadeTarget(w, w, m, true, 0.5).y == -540
  {
  }

  /** `init_fadeout_client`. `snapshotOk` says the scene snapshot could
    * be taken and `refreshTotal` is the summed refresh rate. The window's
    * own node ends disabled once a snapshot was attempted. */
  method InitFadeoutClient(c: Client, cfg: Config, refreshTotal: int, snapshotOk: bool) returns (f: Client?)
    modifies c`scene
    ensures c.mon == null || c.props.unmanaged || c.props.animationTypeClose == Some("none") ==>
      f == null && unchanged(c)
    ensures !(c.mon == null || c.props.unmanaged || c.props.animationTypeClose == Some("none")) ==>
      c.scene == old(c.scene).(enabled := false) && (f == null <==> !snapshotOk)
    ensures f != null ==>
      fresh(f) && f.mon == c.mon && f.bw == c.bw && f.scene == Scene(true, 0, 0, false)
      && f.props == NoProps.(nofadeout := c.props.nofadeout, animationTypeClose := c.props.animationTypeClose)
      && f.geom == c.anim.drawn && f.animainitGeom == c.anim.drawn
      && f.current == FadeTarget(c.anim.drawn, c.geom, c.mon.m,
                                 AnimationType(c.props.animationTypeClose, cfg.animationTypeClose) == "slide",
                                 cfg.zoomInitialRatio)
      && f.anim == Anim(false, false, false, false, false, false, false,
                        TotalFrames(U32(cfg.durationClose), refreshTotal), 0, U32(cfg.durationClose),
                        c.anim.drawn.(x := 0, y := 0), Box(0, 0, 0, 0), Close)
  {
    if c.mon == null || c.props.unmanaged {
      return null;
    }
    if c.props.animationTypeClose == Some("none") {
      return null;
    }
    c.scene := c.scene.(enabled := true);
    c.scene := c.scene.(enabled := false);
    if !snapshotOk {
      return null;
    }
    var d := c.anim.drawn;
    var duration := U32(cfg.durationClose);
    var slide := AnimationType(c.props.animationTypeClose, cfg.animationTypeClose) == "slide";
    var target := FadeTarget(d, c.geom, c.mon.m, slide, cfg.zoomInitialRatio);
    var total := TotalFrames(duration, refreshTotal);
    f := new Client.Blank();
    FillGhost(f, c.mon, c.bw, c.props, d, target, total, duration);
  }

  /** The fields `init_fadeout_client` gives a fresh ghost: the window's
    * monitor, border width and close-animation properties, the drawn
    * rectangle as geometry and start, the exit target, and a close
    * animation of `total` frames starting at offset (0, 0). */
  method FillGhost(f: Client, mon: Monitor?, bw: nat, p: Props, d: Box, target: Box, total: nat, duration: nat)
    requires f.props == NoProps && f.scene == Scene(false, 0, 0, false)
    requires f.anim == Anim(false, false, false, false, false, false, false, 0, 0, 0, Box(0, 0, 0, 0), Box(0, 0, 0, 0), NoAction)
    modifies f
    ensures f.mon == mon && f.bw == bw && f.scene == Scene(true, 0, 0, false)
    ensures f.props == NoProps.(nofadeout := p.nofadeout, animationTypeClose := p.animationTypeClose)
    ensures f.geom == d && f.animainitGeom == d && f.current == target
    ensures f.anim == Anim(false, false, false, false, false, false, false, total, 0, duration,
                           d.(x := 0, y := 0), Box(0, 0, 0, 0), Close)
  {
    f.geom, f.current, f.animainitGeom := d, d, d;
    f.anim := f.anim.(duration := duration, initial := d, action := Close);
    f.mon := mon;
    f.props := f.props.(animationTypeClose := p.animationTypeClose, nofadeout := p.nofadeout);
    f.bw := bw;
    f.anim := f.anim.(initial := f.anim.initial.(x := 0, y := 0));
    f.current := target;
    f.anim := f.anim.(passedFrames := 0, totalFrames := total);
    f.scene := f.scene.(enabled := true);
  }
}
