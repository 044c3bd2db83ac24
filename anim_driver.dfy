/** The animation state machine on the client objects: the per-frame tick,
  * the commit that starts an animation, the arming in `resize`, the frame
  * driver of a monitor and the fade-out ghost of a closing window. */
module AnimationDriver {
  import opened CNum
  import opened Opt
  import opened Geometry
  import opened Curve
  import opened State
  import opened Settings
  import opened Border
  import opened Animation

  /** Whether a client fades in while it animates: it is not being
    * killed, fade-in is configured and the client does not opt out. */
  predicate FadesIn(p: Props, cfg: Config) {
    !p.iskilling && cfg.animationFadeIn != 0 && !p.nofadein
  }

  /** One frame of `client_animation_next_tick` on a client's state: the
    * animation advances along the table of its action, the node moves to
    * the interpolated position, the first tick clears the open flag, and
    * the last one stops the flush and hides a window that tagged out. */
  function TickSpec(v: ClientView, cfg: Config, tb: Tables, s: Snap): (r: Snap)
    requires tb.Sized()
    ensures r == s.(anim := r.anim, isOpenAnimation := false, needOutputFlush := r.needOutputFlush, scene := r.scene)
    ensures r.needOutputFlush <==> s.needOutputFlush && !IsOne(Progress(s.anim))
  {
    FinishSpec(s.anim, MoveSpec(v, cfg, tb, s))
  }

  /** The frame itself: the animation ticks, the node moves to the
    * interpolated position and the open flag is cleared. */
  function MoveSpec(v: ClientView, cfg: Config, tb: Tables, s: Snap): (r: Snap)
    requires tb.Sized()
    ensures r == s.(anim := r.anim, isOpenAnimation := false, scene := r.scene)
  {
    var a := s.anim;
    var f := Lookup(tb.For(TickAction(a.action)), Progress(a));
    var d := Interpolate(a.initial, s.current, f);
    s.(anim := TickAnim(a, s.current, s.geom, f, FadesIn(v.p, cfg), s.isOpenAnimation),
       isOpenAnimation := false,
       scene := s.scene.(x := d.x, y := d.y))
  }

  /** The end of the frame that began from animation state `a`: when it
    * was the last one the flush stops and a window that tagged out has
    * its node disabled and its surface suspended. */
  function FinishSpec(a: Anim, s: Snap): (r: Snap)
    ensures r == s.(needOutputFlush := r.needOutputFlush, scene := r.scene)
    ensures r.needOutputFlush <==> s.needOutputFlush && !IsOne(Progress(a))
  {
    if !IsOne(Progress(a)) then s
    else s.(needOutputFlush := false, scene := if a.tagouting then s.scene.(enabled := false, suspended := true) else s.scene)
  }

  /** `client_animation_next_tick`: one frame of the running animation. The
    * pointer re-enter at the end of an animation is not modelled. */
  method AnimationNextTick(c: Client, bt: BakedTables, cfg: Config)
    requires bt.Sized()
    modifies c`anim, c`isOpenAnimation, c`needOutputFlush, c`scene
    ensures c.Snapshot() == TickSpec(old(c.ViewOf()), cfg, bt.Values(), old(c.Snapshot()))
  {
    ghost var v, s, tb := c.ViewOf(), c.Snapshot(), bt.Values();
    var a := c.anim;
    var p := Progress(a);
    var factor := bt.FindAnimationCurveAt(p, TickAction(a.action));
    assert factor == Lookup(tb.For(TickAction(a.action)), p);
    var drawn := Interpolate(a.initial, c.current, factor);
    c.scene := c.scene.(x := drawn.x, y := drawn.y);
    c.anim := TickAnim(a, c.current, c.geom, factor, FadesIn(c.props, cfg), c.isOpenAnimation);
    c.isOpenAnimation := false;
    assert c.Snapshot() == MoveSpec(v, cfg, tb, s);
    FinishTick(c, a);
    assert bt.Values() == tb;
  }

  /** The end of a frame begun from animation state `a`. */
  method FinishTick(c: Client, a: Anim)
    modifies c`needOutputFlush, c`scene
    ensures c.Snapshot() == FinishSpec(a, old(c.Snapshot()))
  {
    if IsOne(Progress(a)) {
      if a.tagouting {
        c.scene := c.scene.(enabled := false, suspended := true);
      }
      c.needOutputFlush := false;
    }
  }

  /** `client_commit`: the target becomes the pending rectangle, a pending
    * animation starts, and the monitor is asked for a frame. */
  method Commit(c: Client, refreshTotal: int)
    requires c.mon != null
    modifies c`current, c`anim, {c.mon}`frameScheduled
    ensures c.current == old(c.pending)
    ensures c.anim == CommitAnim(old(c.anim), old(c.animainitGeom), refreshTotal)
    ensures c.mon.frameScheduled
  {
    c.current := c.pending;
    if c.anim.shouldAnimate {
      if !c.anim.running {
        c.anim := c.anim.(drawn := c.animainitGeom);
      }
      c.anim := c.anim.(initial := c.animainitGeom);
      c.anim := c.anim.(passedFrames := 0);
      c.anim := c.anim.(totalFrames := TotalFrames(c.anim.duration, refreshTotal));
      c.anim := c.anim.(running := true, shouldAnimate := false);
    }
    c.mon.frameScheduled := true;
  }

  /** `client_set_pending_state`: decide whether to animate, then commit.
    * `grabbed` says the client is the one being moved or resized with the
    * pointer. */
  method SetPendingState(c: Client, cfg: Config, grabbed: bool, refreshTotal: int)
    requires c.mon != null
    modifies c`current, c`anim, {c.mon}`frameScheduled
    ensures c.Snapshot() == PendingSpec(cfg, grabbed, refreshTotal, old(c.Snapshot()))
    ensures c.mon.frameScheduled
  {
    var s: bool;
    if cfg.animations == 0 {
      s := false;
    } else if c.anim.tagining {
      s := true;
    } else if grabbed || (!c.isOpenAnimation && c.current == c.pending) {
      s := false;
    } else {
      s := true;
    }
    c.anim := c.anim.(shouldAnimate := s);
    Commit(c, refreshTotal);
  }

  /** A window counted by `is_special_animaiton_rule`: visible on the
    * selected monitor, not minimised, not being killed, not floating. */
  predicate CountsForSlide(c: Client, selmon: Monitor)
    reads c, selmon
  {
    c.VisibleOn(selmon) && !c.props.isminied && !c.props.iskilling && !c.props.isfloating
  }

  function VisibleTiledCount(clients: seq<Client>, selmon: Monitor): nat
    reads clients, selmon
  {
    if |clients| == 0 then 0
    else VisibleTiledCount(clients[..|clients| - 1], selmon)
         + (if CountsForSlide(clients[|clients| - 1], selmon) then 1 else 0)
  }

  method CountVisibleTiled(clients: seq<Client>, selmon: Monitor) returns (n: nat)
    ensures n == VisibleTiledCount(clients, selmon)
  {
    n := 0;
    var i := 0;
    while i < |clients|
      invariant 0 <= i <= |clients|
      invariant n == VisibleTiledCount(clients[..i], selmon)
    {
      assert clients[..i + 1][..i] == clients[..i];
      if CountsForSlide(clients[i], selmon) {
        n := n + 1;
      }
      i := i + 1;
    }
    assert clients[..|clients|] == clients;
  }

  /** Whether the current layout of a monitor is the scroller. */
  predicate IsScroller(m: Monitor)
    reads m`seltags, m`curtag, m`prevtag, m`nmasters, m`mfacts, m`smfacts, m`lts
  {
    m.Valid() && m.CurrentLayout().name == "scroller"
  }

  /** What `resize` takes from outside the window: whether the request is
    * interactive, whether the window is the one grabbed by the pointer,
    * the box bounding interactive and floating windows, whether the
    * selected monitor runs the scroller and how many of its windows count
    * for the open slide, the swallower's drawn rectangle, and the summed
    * refresh rate of the enabled outputs. */
  datatype ResizeCtx = ResizeCtx(interact: bool, grabbed: bool, sgeom: Box, selScroller: bool, visible: nat,
                                 swallowed: Option<Box>, refreshTotal: int)

  /** The open-animation start (`set_open_animaiton`) of a window with
    * properties `p` and settled geometry `geom` on the monitor `mv`. */
  function OpenStartOf(p: Props, geom: Box, mv: MonView, cfg: Config, selScroller: bool, visible: nat): Box {
    OpenStart(geom, mv.m, mv.w, AnimationType(p.animationTypeOpen, cfg.animationTypeOpen) == "zoom",
              cfg.zoomInitialRatio, SpecialDirection(selScroller, p.isfloating, visible, cfg.newIsMaster != 0))
  }

  /** The first arming step of `resize`: the window needs a flush, its
    * geometry is the requested one bounded by the layout (or left free by
    * the scroller), and a window that is not opening stops fading in. */
  function ArmGeomSpec(v: ClientView, geo: Box, rc: ResizeCtx, s: Snap): (r: Snap)
    requires v.mon.Some?
    ensures r == s.(needOutputFlush := true, geom := r.geom,
                    anim := s.anim.(beginFadeIn := s.anim.beginFadeIn && s.isOpenAnimation))
  {
    var mv := v.mon.value;
    var bbox := if rc.interact || v.p.isfloating || v.p.isfullscreen then rc.sgeom else mv.w;
    var free := mv.layoutName == Some("scroller") && (!v.p.isfloating || rc.grabbed);
    var g := ResizeGeom(geo, s.bw, free, bbox);
    s.(needOutputFlush := true, geom := g,
       anim := s.anim.(beginFadeIn := s.anim.beginFadeIn && s.isOpenAnimation))
  }

  /** The second arming step of `resize`: the action is classified, the
    * start rectangle follows the tag-out, tag-in, open or move rule, and a
    * borderless or dying window loses its border. */
  function ArmStartSpec(v: ClientView, cfg: Config, rc: ResizeCtx, s: Snap): (r: Snap)
    requires v.mon.Some?
    ensures r == s.(anim := r.anim, animainitGeom := r.animainitGeom, bw := r.bw)
    ensures r.anim.drawn == s.anim.drawn && r.anim.running == s.anim.running
    ensures r.bw == if v.p.isnoborder || v.p.iskilling then 0 else s.bw
  {
    var a := Classify(s.anim, s.geom == s.current, s.isOpenAnimation, cfg);
    s.(anim := a,
       animainitGeom := StartRect(a, s.animainitGeom, s.isOpenAnimation,
                                  OpenStartOf(v.p, s.geom, v.mon.value, cfg, rc.selScroller, rc.visible)),
       bw := if v.p.isnoborder || v.p.iskilling then 0 else s.bw)
  }

  /** The arming half of `resize`, both steps in order. */
  function ArmSpec(v: ClientView, cfg: Config, geo: Box, rc: ResizeCtx, s: Snap): (r: Snap)
    requires v.mon.Some?
    ensures r == s.(needOutputFlush := true, geom := r.geom, anim := r.anim, animainitGeom := r.animainitGeom, bw := r.bw)
    ensures r.anim.drawn == s.anim.drawn && r.anim.running == s.anim.running
  {
    ArmStartSpec(v, cfg, rc, ArmGeomSpec(v, geo, rc, s))
  }

  /** The tail of `resize` without animation or for the grabbed window: the
    * window settles on its geometry, the node moves there, the border is
    * laid out and the clip is the surface's own. */
  function JumpSpec(v: ClientView, cfg: Config, s: Snap): (r: Snap)
    requires v.mon.Some?
    ensures !r.anim.running && !r.needOutputFlush && r.anim.drawn == s.geom
    ensures r.geom == s.geom && r.animainitGeom == s.geom && r.current == s.geom && r.pending == s.geom
    ensures r.scene == s.scene.(x := s.geom.x, y := s.geom.y) && r.decor.clip == v.surfaceClip
    ensures r.tags == s.tags && r.isOpenAnimation == s.isOpenAnimation && r.isClipToHide == s.isClipToHide
  {
    var t := SettledSnap(s);
    var b := BorderSpec(v, cfg, t.(scene := t.scene.(x := s.geom.x, y := s.geom.y)));
    b.(decor := b.decor.(clip := v.surfaceClip))
  }

  /** The animated tail of `resize`: the layout rectangle becomes the
    * pending target (a tag-out or a dying window keeps its own), the start
    * overrides apply, and `client_set_pending_state` decides whether to
    * animate and commits. */
  function AnimateSpec(v: ClientView, cfg: Config, rc: ResizeCtx, s: Snap): (r: Snap)
    ensures r == s.(pending := r.pending, current := r.current, animainitGeom := r.animainitGeom, anim := r.anim)
    ensures r.current == r.pending
    ensures r.pending == if s.anim.tagouting || v.p.iskilling then s.pending else s.geom
  {
    PendingSpec(cfg, rc.grabbed, rc.refreshTotal, StartSpec(v, rc, s))
  }

  /** The start of the animated tail: the new pending target and the start
    * rectangle after its overrides. */
  function StartSpec(v: ClientView, rc: ResizeCtx, s: Snap): (r: Snap)
    ensures r == s.(pending := r.pending, animainitGeom := r.animainitGeom)
  {
    s.(pending := if s.anim.tagouting || v.p.iskilling then s.pending else s.geom,
       animainitGeom := OverrideStart(s.animainitGeom, s.anim.action, s.geom, rc.swallowed, v.swallowing,
                                      (v.p.isglobal || v.p.isunglobal) && v.p.isfloating,
                                      v.p.animationTypeOpen == Some("none")))
  }

  /** `client_set_pending_state` on a client's state: the target becomes
    * the pending rectangle and the animation record is committed, after
    * which no animation is left pending. */
  function PendingSpec(cfg: Config, grabbed: bool, refreshTotal: int, s: Snap): (r: Snap)
    ensures r == s.(current := s.pending, anim := r.anim)
    ensures !r.anim.shouldAnimate
  {
    var go := ShouldAnimate(cfg.animations != 0, s.anim.tagining, grabbed, s.isOpenAnimation, s.current == s.pending);
    s.(current := s.pending, anim := CommitAnim(s.anim.(shouldAnimate := go), s.animainitGeom, refreshTotal))
  }

  /** `resize` on a client's state: nothing happens to a window without a
    * monitor or not mapped; otherwise it is armed and then either settles
    * or commits its animation. */
  function ResizeSpec(v: ClientView, cfg: Config, geo: Box, rc: ResizeCtx, s: Snap): (r: Snap)
    ensures r.tags == s.tags && r.isOpenAnimation == s.isOpenAnimation
    ensures v.mon.None? || !v.p.mapped ==> r == s
  {
    if v.mon.None? || !v.p.mapped then s
    else if cfg.animations == 0 || rc.grabbed then JumpSpec(v, cfg, ArmSpec(v, cfg, geo, rc, s))
    else AnimateSpec(v, cfg, rc, ArmSpec(v, cfg, geo, rc, s))
  }

  /** The first step of `resize`: the window needs a frame, and its
    * geometry is the requested one, kept at least the minimum size and,
    * unless the scroller lets it go free, overlapping its bounding box. */
  method ArmGeometry(c: Client, geo: Box, rc: ResizeCtx)
    requires c.mon != null
    modifies c`needOutputFlush, c`geom, c`anim
    ensures c.Snapshot() == ArmGeomSpec(old(c.ViewOf()), geo, rc, old(c.Snapshot()))
  {
    ghost var v, s := c.ViewOf(), c.Snapshot();
    assert IsScroller(c.mon) <==> v.mon.value.layoutName == Some("scroller");
    var bbox := if rc.interact || c.props.isfloating || c.props.isfullscreen then rc.sgeom else c.mon.w;
    c.needOutputFlush := true;
    c.geom := ResizeGeom(geo, c.bw, IsScroller(c.mon) && (!c.props.isfloating || rc.grabbed), bbox);
    if !c.isOpenAnimation {
      c.anim := c.anim.(beginFadeIn := false);
    }
    assert c.Snapshot() == ArmGeomSpec(v, geo, rc, s);
  }

  /** The second step of `resize`: classify the action, arm the start
    * rectangle and drop the border of a borderless or dying window. */
  method ArmStart(c: Client, cfg: Config, rc: ResizeCtx)
    requires c.mon != null
    modifies c`anim, c`animainitGeom, c`bw
    ensures c.Snapshot() == ArmStartSpec(old(c.ViewOf()), cfg, rc, old(c.Snapshot()))
  {
    ghost var v, s := c.ViewOf(), c.Snapshot();
    c.anim := Classify(c.anim, c.geom == c.current, c.isOpenAnimation, cfg);
    if c.anim.tagouting {
      c.animainitGeom := c.anim.drawn;
    } else if c.anim.tagining {
      c.animainitGeom := c.animainitGeom.(width := c.anim.drawn.width, height := c.anim.drawn.height);
    } else if c.isOpenAnimation {
      c.animainitGeom := OpenStartOf(c.props, c.geom, c.mon.View(), cfg, rc.selScroller, rc.visible);
    } else {
      c.animainitGeom := c.anim.drawn;
    }
    if c.props.isnoborder || c.props.iskilling {
      c.bw := 0;
    }
    assert c.Snapshot() == ArmStartSpec(v, cfg, rc, s);
  }

  /** The first half of `resize`: settle the geometry, classify the
    * action, arm the start rectangle and drop the border of a borderless
    * or dying window.  Size hints sent to the client are not modelled. */
  method ArmResize(c: Client, geo: Box, cfg: Config, rc: ResizeCtx)
    requires c.mon != null
    modifies c`needOutputFlush, c`geom, c`anim, c`animainitGeom, c`bw
    ensures c.Snapshot() == ArmSpec(old(c.ViewOf()), cfg, geo, rc, old(c.Snapshot()))
    ensures c.ViewOf() == old(c.ViewOf())
  {
    ghost var v := c.ViewOf();
    ArmGeometry(c, geo, rc);
    assert c.ViewOf() == v;
    ArmStart(c, cfg, rc);
  }

  /** `resize` without animations, or for the grabbed window: the window
    * jumps to its layout rectangle, and its clip is the surface's own. */
  method SettleResize(c: Client, cfg: Config)
    requires c.mon != null
    modifies c`anim, c`needOutputFlush, c`animainitGeom, c`current, c`pending, c`scene, c`bw, c`fakeNoBorder, c`decor
    ensures c.Snapshot() == JumpSpec(old(c.ViewOf()), cfg, old(c.Snapshot()))
  {
    ghost var v := c.ViewOf();
    Settle(c);
    c.scene := c.scene.(x := c.geom.x, y := c.geom.y);
    assert c.ViewOf() == v;
    ApplyBorder(c, cfg);
    c.decor := c.decor.(clip := c.surfaceClip);
  }

  /** The drawn rectangle of the swallower, when there is one. */
  function SwallowedDrawn(c: Client): Option<Box>
    reads c, c.swallowedby
  {
    if c.swallowedby == null then None else Some(c.swallowedby.anim.drawn)
  }

  /** The animated tail of `resize`: the layout rectangle becomes the
    * target (a tag-out or a dying window keeps its own), the start
    * overrides apply, and the pending state is committed. */
  method AnimateResize(c: Client, cfg: Config, rc: ResizeCtx)
    requires c.mon != null
    modifies c`pending, c`animainitGeom, c`current, c`anim, {c.mon}`frameScheduled
    ensures c.Snapshot() == AnimateSpec(old(c.ViewOf()), cfg, rc, old(c.Snapshot()))
    ensures c.mon.frameScheduled
  {
    ghost var v, s := c.ViewOf(), c.Snapshot();
    if !c.anim.tagouting && !c.props.iskilling {
      c.pending := c.geom;
    }
    c.animainitGeom := OverrideStart(c.animainitGeom, c.anim.action, c.geom, rc.swallowed, c.swallowing != null,
                                     (c.props.isglobal || c.props.isunglobal) && c.props.isfloating,
                                     c.props.animationTypeOpen == Some("none"));
    assert c.Snapshot() == StartSpec(v, rc, s);
    SetPendingState(c, cfg, rc.grabbed, rc.refreshTotal);
  }

  /** `resize`: nothing happens to a window without a monitor or not
    * mapped. `sgeom` is the whole layout box, `grabbed` says the window is
    * the one moved or resized with the pointer, `scroller` says the
    * current layout of the selected monitor `selmon` is the scroller, and
    * `clients` is the client list. */
  method Resize(c: Client, geo: Box, interact: bool, cfg: Config, grabbed: bool, sgeom: Box, scroller: bool,
                selmon: Monitor, clients: seq<Client>, refreshTotal: int)
    modifies c`needOutputFlush, c`geom, c`anim, c`animainitGeom, c`bw, c`current, c`pending
    modifies c`scene, c`fakeNoBorder, c`decor, {c.mon}`frameScheduled
    ensures c.Snapshot() == ResizeSpec(old(c.ViewOf()), cfg, geo,
                                       ResizeCtx(interact, grabbed, sgeom, scroller,
                                                 old(VisibleTiledCount(clients, selmon)), old(SwallowedDrawn(c)), refreshTotal),
                                       old(c.Snapshot()))
    ensures c.mon == null || !c.props.mapped ==> unchanged(c)
    ensures c.mon != null && c.props.mapped && cfg.animations != 0 && !grabbed ==> c.mon.frameScheduled
  {
    if c.mon == null || !c.props.mapped {
      return;
    }
    var visible := CountVisibleTiled(clients, selmon);
    var rc := ResizeCtx(interact, grabbed, sgeom, scroller, visible, SwallowedDrawn(c), refreshTotal);
    assert rc == ResizeCtx(interact, grabbed, sgeom, scroller, old(VisibleTiledCount(clients, selmon)),
                           old(SwallowedDrawn(c)), refreshTotal);
    ghost var v, s := c.ViewOf(), c.Snapshot();
    assert v == old(c.ViewOf()) && s == old(c.Snapshot());
    ArmResize(c, geo, cfg, rc);
    ghost var armed := c.Snapshot();
    assert armed == ArmSpec(v, cfg, geo, rc, s);
    if cfg.animations == 0 || grabbed {
      SettleResize(c, cfg);
      assert c.Snapshot() == JumpSpec(v, cfg, armed);
    } else {
      AnimateResize(c, cfg, rc);
      assert c.Snapshot() == AnimateSpec(v, cfg, rc, armed);
    }
    assert c.Snapshot() == ResizeSpec(v, cfg, geo, rc, s);
  }

  /** The window has a frame to draw: it is mapped and flagged for output. */
  predicate WantsFrame(c: Client)
    reads c
  {
    c.props.mapped && c.needOutputFlush
  }

  /** The still branch of `client_draw_frame` before the clip: the node
    * goes to the pending position and every rectangle collapses onto the
    * layout one. */
  function StillSnap(s: Snap): (r: Snap)
    ensures r.animainitGeom == s.geom && r.current == s.geom && r.pending == s.geom && r.anim.initial == s.geom
    ensures r.scene == s.scene.(x := s.pending.x, y := s.pending.y)
  {
    s.(scene := s.scene.(x := s.pending.x, y := s.pending.y), animainitGeom := s.geom, current := s.geom,
       pending := s.geom, anim := s.anim.(initial := s.geom))
  }

  /** `client_draw_frame` on a client's state: a window flagged for output
    * either ticks its running animation or is drawn at its pending
    * position and settles on its layout rectangle; either way its clip is
    * applied. */
  function DrawSpec(v: ClientView, cfg: Config, tb: Tables, s: Snap): (r: Snap)
    requires tb.Sized()
    requires v.p.mapped && s.needOutputFlush ==> v.mon.Some?
    ensures r.geom == s.geom && r.tags == s.tags
    ensures !v.p.mapped || !s.needOutputFlush ==> r == s
  {
    if !v.p.mapped || !s.needOutputFlush then s
    else if cfg.animations != 0 && s.anim.running then ApplyClipSpec(v, cfg, TickSpec(v, cfg, tb, s))
    else ApplyClipSpec(v, cfg, StillSnap(s)).(needOutputFlush := false)
  }

  /** The animated branch of `client_draw_frame`: one tick, then the clip. */
  method DrawTick(c: Client, cfg: Config, bt: BakedTables)
    requires bt.Sized() && c.mon != null
    modifies c`anim, c`isOpenAnimation, c`needOutputFlush, c`scene, c`animainitGeom, c`current, c`pending
    modifies c`isClipToHide, c`bw, c`fakeNoBorder, c`decor
    ensures c.Snapshot() == ApplyClipSpec(old(c.ViewOf()), cfg, TickSpec(old(c.ViewOf()), cfg, bt.Values(), old(c.Snapshot())))
  {
    ghost var v := c.ViewOf();
    AnimationNextTick(c, bt, cfg);
    assert c.ViewOf() == v;
    ApplyClip(c, cfg);
  }

  /** The still branch of `client_draw_frame`: the window is placed at its
    * pending position and every rectangle collapses onto its layout one. */
  method DrawStill(c: Client, cfg: Config)
    requires c.mon != null
    modifies c`anim, c`needOutputFlush, c`scene, c`animainitGeom, c`current, c`pending
    modifies c`isClipToHide, c`bw, c`fakeNoBorder, c`decor
    ensures c.Snapshot() == ApplyClipSpec(old(c.ViewOf()), cfg, StillSnap(old(c.Snapshot()))).(needOutputFlush := false)
  {
    ghost var v, s := c.ViewOf(), c.Snapshot();
    c.scene := c.scene.(x := c.pending.x, y := c.pending.y);
    c.animainitGeom, c.current, c.pending := c.geom, c.geom, c.geom;
    c.anim := c.anim.(initial := c.geom);
    assert c.Snapshot() == StillSnap(s);
    assert c.ViewOf() == v;
    ApplyClip(c, cfg);
    c.needOutputFlush := false;
  }

  /** `client_draw_frame`.  `drew` is the value that keeps the monitor
    * asking for frames. */
  method DrawFrame(c: Client, cfg: Config, bt: BakedTables) returns (drew: bool)
    requires bt.Sized()
    requires WantsFrame(c) ==> c.mon != null
    modifies c`anim, c`isOpenAnimation, c`needOutputFlush, c`scene, c`animainitGeom, c`current, c`pending
    modifies c`isClipToHide, c`bw, c`fakeNoBorder, c`decor
    ensures drew == old(WantsFrame(c))
    ensures !drew ==> unchanged(c)
    ensures c.Snapshot() == DrawSpec(old(c.ViewOf()), cfg, bt.Values(), old(c.Snapshot()))
  {
    if !c.props.mapped || !c.needOutputFlush {
      return false;
    }
    if cfg.animations != 0 && c.anim.running {
      DrawTick(c, cfg, bt);
    } else {
      DrawStill(c, cfg);
    }
    return true;
  }

  /** Without animation, or for the grabbed window, `resize` leaves the
    * window settled on its bounded geometry: nothing runs or needs a
    * flush, every rectangle is the geometry, the node sits at it and the
    * clip is the surface's own. */
  lemma ResizeJumpSettles(v: ClientView, cfg: Config, geo: Box, rc: ResizeCtx, s: Snap)
    requires v.mon.Some? && v.p.mapped && (cfg.animations == 0 || rc.grabbed)
    ensures var r := ResizeSpec(v, cfg, geo, rc, s);
            var bbox := if rc.interact || v.p.isfloating || v.p.isfullscreen then rc.sgeom else v.mon.value.w;
            r.geom == ResizeGeom(geo, s.bw, v.mon.value.layoutName == Some("scroller") && (!v.p.isfloating || rc.grabbed), bbox)
            && !r.anim.running && !r.needOutputFlush && r.anim.drawn == r.geom
            && r.current == r.geom && r.pending == r.geom && r.animainitGeom == r.geom
            && r.scene.x == r.geom.x && r.scene.y == r.geom.y && r.decor.clip == v.surfaceClip
  {
  }

  /** With animation, `resize` of a window that is not grabbed keeps its
    * bounded geometry as the new target (a tag-out or a dying window keeps
    * its old one), needs a flush, and either starts the classified
    * animation from its start rectangle at frame 0 or, when there is
    * nothing to animate, leaves the armed animation as it is, no longer
    * pending. */
  lemma ResizeAnimates(v: ClientView, cfg: Config, geo: Box, rc: ResizeCtx, s: Snap)
    requires v.mon.Some? && v.p.mapped && cfg.animations != 0 && !rc.grabbed
    ensures var armed := ArmSpec(v, cfg, geo, rc, s);
            var r := ResizeSpec(v, cfg, geo, rc, s);
            var go := ShouldAnimate(true, s.anim.tagining, false, s.isOpenAnimation, s.current == r.pending);
            r.geom == armed.geom && r.needOutputFlush && r.current == r.pending
            && r.pending == (if s.anim.tagouting || v.p.iskilling then s.pending else r.geom)
            && (go ==> r.anim.running && r.anim.passedFrames == 0 && r.anim.initial == r.animainitGeom
                       && r.anim.action == armed.anim.action
                       && r.anim.totalFrames == TotalFrames(armed.anim.duration, rc.refreshTotal))
            && (!go ==> r.anim == armed.anim.(shouldAnimate := false))
  {
  }

  /** `k` frames drawn one after another. */
  function Draws(v: ClientView, cfg: Config, tb: Tables, s: Snap, k: nat): Snap
    requires tb.Sized() && v.mon.Some?
    decreases k
  {
    if k == 0 then s else Draws(v, cfg, tb, DrawSpec(v, cfg, tb, s), k - 1)
  }

  /** A frame drawn while animating is one tick of the animation along the
    * table of its action; the target and the geometry stay, and the
    * window asks for more frames unless this was the tick at
    * `passed == total`. */
  lemma DrawIsTick(v: ClientView, cfg: Config, tb: Tables, s: Snap)
    requires tb.Sized() && v.mon.Some? && v.p.mapped && cfg.animations != 0
    requires s.anim.running && s.needOutputFlush
    ensures var r := DrawSpec(v, cfg, tb, s);
            r.anim == TickAnim(s.anim, s.current, s.geom, Lookup(tb.For(TickAction(s.anim.action)), Progress(s.anim)),
                               FadesIn(v.p, cfg), s.isOpenAnimation)
            && r.current == s.current && r.geom == s.geom && !r.isOpenAnimation
            && r.needOutputFlush == !IsOne(Progress(s.anim))
  {
    var t := TickSpec(v, cfg, tb, s);
    assert DrawSpec(v, cfg, tb, s) == ApplyClipSpec(v, cfg, t);
  }

  /** A frame drawn before the tick at `passed == total` advances the
    * animation by one frame and keeps it running, in the same action,
    * toward the same target; the window asks for the next frame. */
  lemma DrawAdvances(v: ClientView, cfg: Config, tb: Tables, s: Snap)
    requires tb.Sized() && v.mon.Some? && v.p.mapped && cfg.animations != 0
    requires s.anim.running && s.needOutputFlush && s.anim.passedFrames < s.anim.totalFrames
    ensures var r := DrawSpec(v, cfg, tb, s);
            r.anim.running && r.needOutputFlush && r.anim.action == s.anim.action
            && r.anim.tagouting == s.anim.tagouting
            && r.anim.passedFrames == s.anim.passedFrames + 1 && r.anim.totalFrames == s.anim.totalFrames
            && r.current == s.current && r.geom == s.geom
  {
    DrawIsTick(v, cfg, tb, s);
    RatioIsOneIff(s.anim.passedFrames, s.anim.totalFrames);
  }

  /** The frame drawn at `passed == total`, with a table that eases 1.0 to
    * exactly 1, stops the animation, ends the requests for frames and
    * draws the window at its target (a tag-out at its layout rectangle). */
  lemma DrawLast(v: ClientView, cfg: Config, tb: Tables, s: Snap)
    requires tb.Sized() && v.mon.Some? && v.p.mapped && cfg.animations != 0
    requires s.anim.running && s.needOutputFlush && 0 < s.anim.totalFrames && s.anim.passedFrames == s.anim.totalFrames
    requires EasesToOne(tb.For(TickAction(s.anim.action)))
    requires BoxInI32(s.current)
    ensures var r := DrawSpec(v, cfg, tb, s);
            !r.anim.running && !r.needOutputFlush && r.anim.action == Move && r.current == s.current
            && r.anim.drawn == (if s.anim.tagouting then s.geom else s.current)
  {
    DrawIsTick(v, cfg, tb, s);
    RatioIsOneIff(s.anim.passedFrames, s.anim.totalFrames);
    FinalTickEased(s.anim, s.current, s.geom, tb.For(TickAction(s.anim.action)), FadesIn(v.p, cfg), s.isOpenAnimation);
  }

  /** `DrawLast` as a run of one frame. */
  lemma DrawLastIsFinal(v: ClientView, cfg: Config, tb: Tables, s: Snap, k: nat)
    requires tb.Sized() && v.mon.Some? && v.p.mapped && cfg.animations != 0 && k == 1
    requires s.anim.running && s.needOutputFlush && 0 < s.anim.totalFrames && s.anim.passedFrames == s.anim.totalFrames
    requires EasesToOne(tb.For(TickAction(s.anim.action)))
    requires BoxInI32(s.current)
    ensures Finished(Draws(v, cfg, tb, s, k), s)
  {
    var s1 := DrawSpec(v, cfg, tb, s);
    assert Draws(v, cfg, tb, s, k) == Draws(v, cfg, tb, s1, k - 1) == s1;
    DrawLast(v, cfg, tb, s);
  }

  /** What a finished animation looks like after starting from `s`: it has
    * stopped, the window no longer asks for frames, the target is kept and
    * the window is drawn at it (a tag-out at its layout rectangle). */
  predicate Finished(e: Snap, s: Snap)
  {
    !e.anim.running && !e.needOutputFlush && e.anim.action == Move && e.current == s.current
    && e.anim.drawn == (if s.anim.tagouting then s.geom else s.current)
  }

  /** A running animation with at least one frame, eased by a table that
    * takes 1.0 to 1 and aimed at a target inside `int`, is over after the
    * remaining frames plus one (`k` of them). */
  lemma {:induction false} DrawsFinish(v: ClientView, cfg: Config, tb: Tables, s: Snap, k: nat)
    requires tb.Sized() && v.mon.Some? && v.p.mapped && cfg.animations != 0
    requires s.anim.running && s.needOutputFlush && 0 < s.anim.totalFrames
    requires s.anim.passedFrames <= s.anim.totalFrames && s.anim.passedFrames + k == s.anim.totalFrames + 1
    requires EasesToOne(tb.For(TickAction(s.anim.action)))
    requires BoxInI32(s.current)
    ensures Finished(Draws(v, cfg, tb, s, k), s)
    decreases k, 1
  {
    if k == 1 {
      DrawLastIsFinal(v, cfg, tb, s, k);
    } else {
      DrawsFinishStep(v, cfg, tb, s, k);
    }
  }

  /** The inductive step of `DrawsFinish`: one frame that is not the last
    * keeps the animation running with one frame fewer to go. */
  lemma {:induction false} DrawsFinishStep(v: ClientView, cfg: Config, tb: Tables, s: Snap, k: nat)
    requires tb.Sized() && v.mon.Some? && v.p.mapped && cfg.animations != 0
    requires s.anim.running && s.needOutputFlush && 0 < s.anim.totalFrames
    requires s.anim.passedFrames <= s.anim.totalFrames && s.anim.passedFrames + k == s.anim.totalFrames + 1
    requires EasesToOne(tb.For(TickAction(s.anim.action)))
    requires BoxInI32(s.current)
    requires k > 1
    ensures Finished(Draws(v, cfg, tb, s, k), s)
    decreases k, 0
  {
    var s1 := DrawSpec(v, cfg, tb, s);
    DrawAdvances(v, cfg, tb, s);
    DrawsFinishNext(v, cfg, tb, s, s1, k);
    DrawsFirst(v, cfg, tb, s, k);
  }

  /** The rest of the run after the first frame `s1` of `DrawsFinishStep`,
    * which keeps the target, the geometry and the tag-out flag of `s`. */
  lemma {:induction false} DrawsFinishNext(v: ClientView, cfg: Config, tb: Tables, s: Snap, s1: Snap, k: nat)
    requires tb.Sized() && v.mon.Some? && v.p.mapped && cfg.animations != 0 && k > 1
    requires s1.anim.running && s1.needOutputFlush && 0 < s1.anim.totalFrames
    requires s1.anim.passedFrames <= s1.anim.totalFrames && s1.anim.passedFrames + (k - 1) == s1.anim.totalFrames + 1
    requires EasesToOne(tb.For(TickAction(s1.anim.action)))
    requires BoxInI32(s1.current)
    requires s1.current == s.current && s1.geom == s.geom && s1.anim.tagouting == s.anim.tagouting
    ensures Finished(Draws(v, cfg, tb, s1, k - 1), s)
    decreases k - 1, 2
  {
    DrawsFinish(v, cfg, tb, s1, k - 1);
    FinishedFrom(Draws(v, cfg, tb, s1, k - 1), s, s1);
  }

  /** `Finished` depends only on the target, the geometry and the tag-out
    * flag of the state the run started from. */
  lemma FinishedFrom(e: Snap, s: Snap, s1: Snap)
    requires Finished(e, s1)
    requires s1.current == s.current && s1.geom == s.geom && s1.anim.tagouting == s.anim.tagouting
    ensures Finished(e, s)
  {
  }

  /** The first of `k` frames comes first. */
  lemma DrawsFirst(v: ClientView, cfg: Config, tb: Tables, s: Snap, k: nat)
    requires tb.Sized() && v.mon.Some? && k > 0
    ensures Draws(v, cfg, tb, s, k) == Draws(v, cfg, tb, DrawSpec(v, cfg, tb, s), k - 1)
  {
  }

  /** An animated `resize` followed by its frames: once `TotalFrames + 1`
    * frames are drawn the animation is `Finished` at the target `resize`
    * chose, which is the new geometry except for a dying or tagging-out
    * window, which keeps the target it had. */
  lemma ResizeArrives(v: ClientView, cfg: Config, geo: Box, rc: ResizeCtx, s: Snap, tb: Tables)
    requires v.mon.Some? && v.p.mapped && cfg.animations != 0 && !rc.grabbed && tb.Sized()
    requires ShouldAnimate(true, s.anim.tagining, false, s.isOpenAnimation,
                           s.current == ResizeSpec(v, cfg, geo, rc, s).pending)
    requires EasesToOne(tb.For(TickAction(ResizeSpec(v, cfg, geo, rc, s).anim.action)))
    requires BoxInI32(ResizeSpec(v, cfg, geo, rc, s).pending)
    ensures var r := ResizeSpec(v, cfg, geo, rc, s);
            Finished(Draws(v, cfg, tb, r, r.anim.totalFrames + 1), r)
            && r.anim.tagouting == s.anim.tagouting
            && r.current == (if s.anim.tagouting || v.p.iskilling then s.pending else r.geom)
  {
    ResizeAnimates(v, cfg, geo, rc, s);
    StartedFinishes(v, cfg, tb, ResizeSpec(v, cfg, geo, rc, s));
  }

  /** `DrawsFinish` from the first frame of a freshly started animation. */
  lemma StartedFinishes(v: ClientView, cfg: Config, tb: Tables, r: Snap)
    requires tb.Sized() && v.mon.Some? && v.p.mapped && cfg.animations != 0
    requires r.anim.running && r.needOutputFlush && 0 < r.anim.totalFrames && r.anim.passedFrames == 0
    requires EasesToOne(tb.For(TickAction(r.anim.action)))
    requires BoxInI32(r.current)
    ensures Finished(Draws(v, cfg, tb, r, r.anim.totalFrames + 1), r)
  {
    DrawsFinish(v, cfg, tb, r, r.anim.totalFrames + 1);
  }

  /** A window drawn with nothing to animate settles: the node goes to the
    * pending position, the target and start become the layout rectangle,
    * and it stops asking for frames, so the next frame leaves it alone. */
  lemma DrawStillSettles(v: ClientView, cfg: Config, tb: Tables, s: Snap)
    requires tb.Sized() && v.mon.Some? && v.p.mapped && s.needOutputFlush && !v.p.iskilling
    requires !(cfg.animations != 0 && s.anim.running)
    ensures var r := DrawSpec(v, cfg, tb, s);
            !r.needOutputFlush && r.current == s.geom && r.pending == s.geom && r.animainitGeom == s.geom
            && r.scene.x == s.pending.x && r.scene.y == s.pending.y
            && DrawSpec(v, cfg, tb, r) == r
  {
  }
}
