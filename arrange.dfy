/** The per-window pass of `arrange`: windows on the monitor's selected
  * tags are shown, counted and, on a tag switch, started off the monitor
  * edge so they slide in; windows that were on the previous tag slide out
  * past the opposite edge; the rest are hidden. */
module Arrange {
  import opened CNum
  import opened Opt
  import opened Geometry
  import opened State
  import opened Settings
  import opened Tags
  import opened Animation
  import opened AnimationDriver

  /** The start position of a window entering on a tag switch.  `forward`
    * says the new tag is to the right of the previous one (`curtag >
    * prevtag`); a window whose animation is still running starts where it
    * is drawn. */
  function TagInStart(init: Box, drawn: Box, geom: Box, m: Box, forward: bool, running: bool, vertical: bool): (r: Box)
    ensures r.width == init.width && r.height == init.height
  {
    if running then init.(x := drawn.x, y := drawn.y)
    else if forward then
      init.(x := if vertical then drawn.x else m.x + m.width,
            y := if vertical then m.y + m.height else drawn.y)
    else
      init.(x := if vertical then drawn.x else m.x - geom.width,
            y := if vertical then m.y - geom.height else drawn.y)
  }

  /** The target of a window leaving on a tag switch. */
  function TagOutTarget(geom: Box, drawn: Box, m: Box, forward: bool, vertical: bool): (r: Box)
    ensures r.width == geom.width && r.height == geom.height
  {
    if forward then
      geom.(x := if vertical then drawn.x else m.x - geom.width,
            y := if vertical then m.y - geom.height else drawn.y)
    else
      geom.(x := if vertical then drawn.x else m.x + m.width,
            y := if vertical then m.y + m.height else drawn.y)
  }

  /** A window of size `geom` at `r` lies wholly off the monitor `m` along
    * the axis of the animation. */
  predicate OffMonitor(r: Box, geom: Box, m: Box, vertical: bool) {
    if vertical then r.y + geom.height <= m.y || r.y >= m.y + m.height
    else r.x + geom.width <= m.x || r.x >= m.x + m.width
  }

  /** On a switch the windows leaving go out past the edge opposite to the
    * one the entering windows come in from: an entering window that is not
    * already moving starts at the position a leaving window of the same
    * size would reach on a switch in the other direction. */
  lemma TagInMirrorsTagOut(init: Box, drawn: Box, geom: Box, m: Box, forward: bool, vertical: bool)
    ensures var s := TagInStart(init, drawn, geom, m, forward, false, vertical);
            var t := TagOutTarget(geom, drawn, m, !forward, vertical);
            s.x == t.x && s.y == t.y
  {
  }

  /** Both ends of the slide lie off the monitor, for a window of
    * non-negative size on a monitor of non-negative size. */
  lemma TagSlideIsOffMonitor(init: Box, drawn: Box, geom: Box, m: Box, forward: bool, vertical: bool)
    requires geom.width >= 0 && geom.height >= 0 && m.width >= 0 && m.height >= 0
    ensures OffMonitor(TagInStart(init, drawn, geom, m, forward, false, vertical), geom, m, vertical)
    ensures OffMonitor(TagOutTarget(geom, drawn, m, forward, vertical), geom, m, vertical)
  {
  }

  /** A window whose animation is running continues from where it is. */
  lemma TagInWhileRunningStaysPut(init: Box, drawn: Box, geom: Box, m: Box, forward: bool, vertical: bool)
    ensures var s := TagInStart(init, drawn, geom, m, forward, true, vertical);
            s.x == drawn.x && s.y == drawn.y
  {
  }

  /** The tags a window has after the global/unglobal rule: a global window
    * of the monitor follows its selected tags. */
  function ArrangedTags(p: Props, onMonitor: bool, tags: bv32, selected: bv32): bv32 {
    if onMonitor && (p.isglobal || p.isunglobal) then selected else tags
  }

  /** The window counts towards `visible_clients`. */
  predicate CountsVisible(p: Props, onMonitor: bool, tags: bv32, selected: bv32) {
    !p.iskilling && onMonitor && Meets(ArrangedTags(p, onMonitor, tags, selected), selected)
    && !p.unmanaged && !p.ignoreFocus
  }

  /** The tag switch animates: `prevtag` and `curtag` are real tags and
    * animations are on. */
  predicate SwitchAnimates(prevtag: nat, curtag: nat, cfg: Config) {
    prevtag != 0 && curtag != 0 && cfg.animations != 0
  }

  /** The window's clip is dropped and its node shown, unless it is a
    * tiled window hidden by its clip in the scroller layout. */
  predicate DropsClip(clipped: bool, tiled: bool, scroller: bool) {
    !clipped || !tiled || !scroller
  }

  /** The visible branch, first step: the clip rule, then the surface is
    * resumed. */
  function ShowSpec(v: ClientView, s: Snap): (r: Snap)
    requires v.mon.Some?
  {
    var drop := DropsClip(s.isClipToHide, Tiled(v.p, s.anim), v.mon.value.layoutName == Some("scroller"));
    s.(isClipToHide := s.isClipToHide && !drop,
       scene := s.scene.(enabled := drop || s.scene.enabled, suspended := false))
  }

  /** The visible branch, second step: a window that slides in on the tag
    * switch starts at `TagInStart`; any other starts where it is drawn.
    * `fromRule` marks windows placed by a rule, which do not slide in. */
  function TagInSpec(v: ClientView, want: bool, cfg: Config, s: Snap): (r: Snap)
    requires v.mon.Some?
  {
    var mv := v.mon.value;
    var tagIn := !s.anim.fromRule && want && SwitchAnimates(mv.prevtag, mv.curtag, cfg);
    s.(anim := s.anim.(tagining := tagIn || s.anim.tagining, fromRule := false, tagouting := false, tagouted := false),
       animainitGeom := if tagIn then
                          TagInStart(s.animainitGeom, s.anim.drawn, s.geom, mv.m, mv.curtag > mv.prevtag,
                                     s.anim.running, cfg.tagAnimationDirection == VERTICAL)
                        else s.animainitGeom.(x := s.anim.drawn.x, y := s.anim.drawn.y))
  }

  /** The window was on the previous tag and slides out. */
  predicate SlidesOut(tags: bv32, prevtag: nat, curtag: nat, cfg: Config)
    requires prevtag <= TAG_COUNT
  {
    prevtag != 0 && HasBit(tags, prevtag - 1) && curtag != 0 && cfg.animations != 0
  }

  /** The hidden branch before `resize`: a window that was on the previous
    * tag starts tagging out towards `TagOutTarget`; any other window is
    * disabled and suspended. */
  function HideSpec(v: ClientView, cfg: Config, s: Snap): (r: Snap)
    requires v.mon.Some? && v.mon.value.prevtag <= TAG_COUNT
  {
    var mv := v.mon.value;
    if SlidesOut(s.tags, mv.prevtag, mv.curtag, cfg) then
      s.(anim := s.anim.(tagouting := true, tagining := false),
         pending := TagOutTarget(s.geom, s.anim.drawn, mv.m, mv.curtag > mv.prevtag, cfg.tagAnimationDirection == VERTICAL))
    else s.(scene := s.scene.(enabled := false, suspended := true))
  }

  /** `reset_maxmizescreen_size`: the window area less the outer gaps.
    * The left and right margins are `gappov`, the top margin `gappoh`,
    * and the height, like the width, loses `2 * gappov`. */
  function MaxBox(w: Box, cfg: Config): (r: Box)
  {
    Box(w.x + cfg.gappov, w.y + cfg.gappoh, w.width - 2 * cfg.gappov, w.height - 2 * cfg.gappov)
  }

  /** The margins `MaxBox` leaves inside the window area. */
  lemma MaxBoxMargins(w: Box, cfg: Config)
    ensures var r := MaxBox(w, cfg);
            r.x - w.x == cfg.gappov && (w.x + w.width) - (r.x + r.width) == cfg.gappov
            && r.y - w.y == cfg.gappoh && (w.y + w.height) - (r.y + r.height) == 2 * cfg.gappov - cfg.gappoh
  {
  }

  /** `visible_clients` as `resize` reads it on the monitor's view once the
    * pass has counted `n` windows. */
  function WithCount(v: ClientView, n: nat): (r: ClientView)
    ensures r.p == v.p && r.mon.Some? == v.mon.Some?
  {
    v.(mon := if v.mon.Some? then Some(v.mon.value.(visibleClients := n)) else None)
  }

  /** `visible_clients` once a window of the monitor is counted: managed
    * windows that take focus add one. */
  function CountOf(v: ClientView): nat
    requires v.mon.Some?
  {
    v.mon.value.visibleClients + (if !v.p.unmanaged && !v.p.ignoreFocus then 1 else 0)
  }

  /** A context of a `resize` call made by `arrange`: not interactive, with
    * the pass's grab, bounding box, scroller flag and refresh total. The
    * count of tiled windows and the swallower's drawn rectangle are those
    * `resize` read when it ran. */
  predicate ArrangeCtx(rc: ResizeCtx, grabbed: bool, sgeom: Box, scroller: bool, refreshTotal: int) {
    !rc.interact && rc.grabbed == grabbed && rc.sgeom == sgeom && rc.selScroller == scroller
    && rc.refreshTotal == refreshTotal
  }

  /** The visible branch: counted, shown, started for a tag-in and resized
    * to its layout geometry; a maximised window that is not tagging out is
    * then reset to `MaxBox` and resized again. */
  function VisibleSpec(v: ClientView, want: bool, cfg: Config, rc1: ResizeCtx, rc2: ResizeCtx, s: Snap): (r: Snap)
    requires v.mon.Some?
    ensures r.tags == s.tags
  {
    MaxSpec(v, cfg, rc2, ResizeSpec(v, cfg, s.geom, rc1, TagInSpec(v, want, cfg, ShowSpec(v, s))))
  }

  /** The end of the pass over a visible window: a maximised window that
    * is not tagging out is reset to `MaxBox` and resized again. */
  function MaxSpec(v: ClientView, cfg: Config, rc: ResizeCtx, s: Snap): (r: Snap)
    requires v.mon.Some?
    ensures r.tags == s.tags
  {
    if v.p.ismaxmizescreen && !s.anim.tagouted && !s.anim.tagouting then
      var b := MaxBox(v.mon.value.w, cfg);
      ResizeSpec(v, cfg, b, rc, s.(geom := b))
    else s
  }

  /** `arrange` on one window, from the view it had when the pass reached
    * it: a dying window or one on another monitor is left alone; a global
    * window takes the selected tags; a window on them is counted and takes
    * the visible branch; any other the hidden branch, which resizes it
    * along its slide-out. */
  function ArrangeSpec(v: ClientView, onM: bool, want: bool, cfg: Config, rc1: ResizeCtx, rc2: ResizeCtx, s: Snap): (r: Snap)
    requires onM ==> v.mon.Some? && v.mon.value.prevtag <= TAG_COUNT
    ensures v.p.iskilling || !onM ==> r == s
    ensures !v.p.iskilling && onM ==> r.tags == ArrangedTags(v.p, true, s.tags, v.mon.value.selected)
  {
    if v.p.iskilling || !onM then s
    else
      var mv := v.mon.value;
      var t := s.(tags := ArrangedTags(v.p, true, s.tags, mv.selected));
      if Meets(t.tags, mv.selected) then
        VisibleSpec(WithCount(v, CountOf(v)), want, cfg, rc1, rc2, t)
      else
        var h := HideSpec(v, cfg, t);
        if SlidesOut(t.tags, mv.prevtag, mv.curtag, cfg) then ResizeSpec(v, cfg, h.geom, rc1, h) else h
  }

  /** A hidden window that did not slide out is disabled and suspended at
    * once, and nothing else about it changes but its tags. */
  lemma ArrangeHidesAtOnce(v: ClientView, want: bool, cfg: Config, rc1: ResizeCtx, rc2: ResizeCtx, s: Snap)
    requires v.mon.Some? && v.mon.value.prevtag <= TAG_COUNT && !v.p.iskilling
    requires var tags := ArrangedTags(v.p, true, s.tags, v.mon.value.selected);
             !Meets(tags, v.mon.value.selected) && !SlidesOut(tags, v.mon.value.prevtag, v.mon.value.curtag, cfg)
    ensures ArrangeSpec(v, true, want, cfg, rc1, rc2, s)
         == s.(tags := ArrangedTags(v.p, true, s.tags, v.mon.value.selected),
               scene := s.scene.(enabled := false, suspended := true))
  {
  }

  /** A mapped window that slides out, unless it is the grabbed one, is
    * animated towards `TagOutTarget`, which lies off the monitor. */
  lemma ArrangeSlidesOut(v: ClientView, want: bool, cfg: Config, rc1: ResizeCtx, rc2: ResizeCtx, s: Snap)
    requires v.mon.Some? && v.mon.value.prevtag <= TAG_COUNT && !v.p.iskilling && v.p.mapped && !rc1.grabbed
    requires var tags := ArrangedTags(v.p, true, s.tags, v.mon.value.selected);
             !Meets(tags, v.mon.value.selected) && SlidesOut(tags, v.mon.value.prevtag, v.mon.value.curtag, cfg)
    requires s.geom.width >= 0 && s.geom.height >= 0 && v.mon.value.m.width >= 0 && v.mon.value.m.height >= 0
    ensures var mv := v.mon.value;
            var r := ArrangeSpec(v, true, want, cfg, rc1, rc2, s);
            var vertical := cfg.tagAnimationDirection == VERTICAL;
            r.needOutputFlush
            && r.pending == TagOutTarget(s.geom, s.anim.drawn, mv.m, mv.curtag > mv.prevtag, vertical)
            && OffMonitor(r.pending, s.geom, mv.m, vertical)
  {
    var mv := v.mon.value;
    var t := s.(tags := ArrangedTags(v.p, true, s.tags, mv.selected));
    var h := HideSpec(v, cfg, t);
    ResizeAnimates(v, cfg, h.geom, rc1, h);
    TagSlideIsOffMonitor(s.animainitGeom, s.anim.drawn, s.geom, mv.m, mv.curtag > mv.prevtag,
                         cfg.tagAnimationDirection == VERTICAL);
  }

  /** The visible branch before `resize` resumes the window, clears the
    * tag-out flags and, on an animated switch, starts a window that is not
    * moving off the monitor. */
  lemma ShownStartsOff(v: ClientView, want: bool, cfg: Config, s: Snap)
    requires v.mon.Some? && !s.anim.fromRule && want && SwitchAnimates(v.mon.value.prevtag, v.mon.value.curtag, cfg)
    requires !s.anim.running
    requires s.geom.width >= 0 && s.geom.height >= 0 && v.mon.value.m.width >= 0 && v.mon.value.m.height >= 0
    ensures var r := TagInSpec(v, want, cfg, ShowSpec(v, s));
            !r.scene.suspended && r.anim.tagining && !r.anim.tagouting && !r.anim.tagouted
            && OffMonitor(r.animainitGeom, s.geom, v.mon.value.m, cfg.tagAnimationDirection == VERTICAL)
  {
    TagSlideIsOffMonitor(s.animainitGeom, s.anim.drawn, s.geom, v.mon.value.m, v.mon.value.curtag > v.mon.value.prevtag,
                         cfg.tagAnimationDirection == VERTICAL);
  }

  /** The visible branch, first step. */
  method ShowVisible(c: Client, m: Monitor)
    requires m.Valid() && c.mon == m
    modifies c`isClipToHide, c`scene
    ensures c.Snapshot() == ShowSpec(old(c.ViewOf()), old(c.Snapshot()))
  {
    ghost var v, s := c.ViewOf(), c.Snapshot();
    if DropsClip(c.isClipToHide, c.IsTiled(), m.CurrentLayout().name == "scroller") {
      c.isClipToHide := false;
      c.scene := c.scene.(enabled := true);
    }
    c.scene := c.scene.(suspended := false);
    assert c.Snapshot() == ShowSpec(v, s);
  }

  /** The visible branch, second step. */
  method StartTagIn(c: Client, m: Monitor, want: bool, cfg: Config)
    requires c.mon == m
    modifies c`anim, c`animainitGeom
    ensures c.Snapshot() == TagInSpec(old(c.ViewOf()), want, cfg, old(c.Snapshot()))
  {
    ghost var v, s := c.ViewOf(), c.Snapshot();
    var a := c.anim;
    if !a.fromRule && want && SwitchAnimates(m.prevtag, m.curtag, cfg) {
      c.animainitGeom := TagInStart(c.animainitGeom, a.drawn, c.geom, m.m, m.curtag > m.prevtag,
                                    a.running, cfg.tagAnimationDirection == VERTICAL);
      c.anim := a.(tagining := true, fromRule := false, tagouting := false, tagouted := false);
    } else {
      c.animainitGeom := c.animainitGeom.(x := a.drawn.x, y := a.drawn.y);
      c.anim := a.(fromRule := false, tagouting := false, tagouted := false);
    }
    assert c.Snapshot() == TagInSpec(v, want, cfg, s);
  }

  /** The hidden branch before `resize`; `slides` says the window slides
    * out. */
  method PrepareHidden(c: Client, m: Monitor, cfg: Config) returns (slides: bool)
    requires m.Valid() && c.mon == m
    modifies c`anim, c`pending, c`scene
    ensures slides == SlidesOut(c.tags, m.prevtag, m.curtag, cfg)
    ensures c.Snapshot() == HideSpec(old(c.ViewOf()), cfg, old(c.Snapshot()))
  {
    ghost var v, s := c.ViewOf(), c.Snapshot();
    slides := SlidesOut(c.tags, m.prevtag, m.curtag, cfg);
    if slides {
      c.anim := c.anim.(tagouting := true, tagining := false);
      c.pending := TagOutTarget(c.geom, c.anim.drawn, m.m, m.curtag > m.prevtag,
                                cfg.tagAnimationDirection == VERTICAL);
    } else {
      c.scene := c.scene.(enabled := false, suspended := true);
    }
    assert c.Snapshot() == HideSpec(v, cfg, s);
  }

  /** One window of the pass.  `grabbed` says it is the window being moved
    * or resized with the pointer, `sgeom` is the layout box and `all` is
    * the client list; `rc1` and `rc2` are the contexts of the `resize`
    * calls it makes. */
  method ArrangeClient(c: Client, m: Monitor, want: bool, cfg: Config, grabbed: bool, sgeom: Box, scroller: bool,
                       selmon: Monitor, all: seq<Client>, refreshTotal: int)
    returns (ghost rc1: ResizeCtx, ghost rc2: ResizeCtx)
    requires m.Valid()
    modifies c`tags, c`isClipToHide, c`scene, c`anim, c`animainitGeom, c`pending
    modifies c`needOutputFlush, c`geom, c`bw, c`current, c`fakeNoBorder, c`decor
    modifies m`frameScheduled, m`visibleClients
    ensures m.visibleClients == old(m.visibleClients)
              + (if CountsVisible(c.props, c.mon == m, old(c.tags), old(m.SelectedTags())) then 1 else 0)
    ensures ArrangeCtx(rc1, grabbed, sgeom, scroller, refreshTotal)
    ensures ArrangeCtx(rc2, grabbed, sgeom, scroller, refreshTotal)
    ensures c.Snapshot() == ArrangeSpec(old(c.ViewOf()), c.mon == m, want, cfg, rc1, rc2, old(c.Snapshot()))
    ensures c.props.iskilling || c.mon != m ==> unchanged(c)
  {
    rc1 := ResizeCtx(false, grabbed, sgeom, scroller, 0, None, refreshTotal);
    rc2 := rc1;
    if c.props.iskilling || c.mon != m {
      return;
    }
    rc1, rc2 := ArrangeOwn(c, m, want, cfg, grabbed, sgeom, scroller, selmon, all, refreshTotal);
  }

  /** A live window of the monitor: its tags follow the global rule, then it
    * takes the visible or the hidden branch. */
  method ArrangeOwn(c: Client, m: Monitor, want: bool, cfg: Config, grabbed: bool, sgeom: Box, scroller: bool,
                    selmon: Monitor, all: seq<Client>, refreshTotal: int)
    returns (ghost rc1: ResizeCtx, ghost rc2: ResizeCtx)
    requires m.Valid() && c.mon == m && !c.props.iskilling
    modifies c`tags, c`isClipToHide, c`scene, c`anim, c`animainitGeom, c`pending
    modifies c`needOutputFlush, c`geom, c`bw, c`current, c`fakeNoBorder, c`decor
    modifies m`frameScheduled, m`visibleClients
    ensures m.visibleClients == old(m.visibleClients)
              + (if CountsVisible(c.props, true, old(c.tags), old(m.SelectedTags())) then 1 else 0)
    ensures ArrangeCtx(rc1, grabbed, sgeom, scroller, refreshTotal)
    ensures ArrangeCtx(rc2, grabbed, sgeom, scroller, refreshTotal)
    ensures c.Snapshot() == ArrangeSpec(old(c.ViewOf()), true, want, cfg, rc1, rc2, old(c.Snapshot()))
  {
    ghost var v, s := c.ViewOf(), c.Snapshot();
    var sel := m.SelectedTags();
    c.tags := ArrangedTags(c.props, true, c.tags, sel);
    assert c.Snapshot() == s.(tags := ArrangedTags(v.p, true, s.tags, v.mon.value.selected));
    assert c.ViewOf() == v;
    if Meets(c.tags, sel) {
      rc1, rc2 := ArrangeShown(c, m, want, cfg, grabbed, sgeom, scroller, selmon, all, refreshTotal, v, s);
    } else {
      rc1 := ArrangeMissed(c, m, want, cfg, grabbed, sgeom, scroller, selmon, all, refreshTotal, v, s);
      rc2 := rc1;
    }
  }

  /** The visible branch of a live window of the monitor, whose view was
    * `v` and stored state `s` before its tags were arranged. */
  method ArrangeShown(c: Client, m: Monitor, want: bool, cfg: Config, grabbed: bool, sgeom: Box, scroller: bool,
                      selmon: Monitor, all: seq<Client>, refreshTotal: int, ghost v: ClientView, ghost s: Snap)
    returns (ghost rc1: ResizeCtx, ghost rc2: ResizeCtx)
    requires m.Valid() && c.mon == m && !c.props.iskilling && c.ViewOf() == v
    requires c.Snapshot() == s.(tags := ArrangedTags(v.p, true, s.tags, v.mon.value.selected))
    requires Meets(c.tags, m.SelectedTags())
    modifies c`isClipToHide, c`scene, c`anim, c`animainitGeom, c`pending
    modifies c`needOutputFlush, c`geom, c`bw, c`current, c`fakeNoBorder, c`decor
    modifies m`frameScheduled, m`visibleClients
    ensures m.visibleClients == old(m.visibleClients) + (if !c.props.unmanaged && !c.props.ignoreFocus then 1 else 0)
    ensures ArrangeCtx(rc1, grabbed, sgeom, scroller, refreshTotal)
    ensures ArrangeCtx(rc2, grabbed, sgeom, scroller, refreshTotal)
    ensures c.Snapshot() == ArrangeSpec(v, true, want, cfg, rc1, rc2, s)
  {
    assert m.visibleClients == v.mon.value.visibleClients;
    ghost var t := c.Snapshot();
    rc1, rc2 := CountAndShow(c, m, want, cfg, grabbed, sgeom, scroller, selmon, all, refreshTotal);
    ArrangeSpecShown(v, want, cfg, rc1, rc2, s, t, m.visibleClients);
  }

  /** The hidden branch of a live window of the monitor, whose view was
    * `v` and stored state `s` before its tags were arranged. */
  method ArrangeMissed(c: Client, m: Monitor, want: bool, cfg: Config, grabbed: bool, sgeom: Box, scroller: bool,
                       selmon: Monitor, all: seq<Client>, refreshTotal: int, ghost v: ClientView, ghost s: Snap)
    returns (ghost rc: ResizeCtx)
    requires m.Valid() && c.mon == m && !c.props.iskilling && c.ViewOf() == v
    requires c.Snapshot() == s.(tags := ArrangedTags(v.p, true, s.tags, v.mon.value.selected))
    requires !Meets(c.tags, m.SelectedTags())
    modifies c`isClipToHide, c`scene, c`anim, c`animainitGeom, c`pending
    modifies c`needOutputFlush, c`geom, c`bw, c`current, c`fakeNoBorder, c`decor
    modifies m`frameScheduled
    ensures ArrangeCtx(rc, grabbed, sgeom, scroller, refreshTotal)
    ensures c.Snapshot() == ArrangeSpec(v, true, want, cfg, rc, rc, s)
  {
    rc := ArrangeHidden(c, m, cfg, grabbed, sgeom, scroller, selmon, all, refreshTotal);
    ArrangeSpecHidden(v, want, cfg, rc, s);
  }

  /** `ArrangeSpec` on a live window of the monitor whose stored state
    * `s`, with its tags arranged, is `t` and meets the selected tags. */
  lemma ArrangeSpecShown(v: ClientView, want: bool, cfg: Config, rc1: ResizeCtx, rc2: ResizeCtx, s: Snap, t: Snap, n: nat)
    requires v.mon.Some? && v.mon.value.prevtag <= TAG_COUNT && !v.p.iskilling
    requires t == s.(tags := ArrangedTags(v.p, true, s.tags, v.mon.value.selected))
    requires Meets(t.tags, v.mon.value.selected)
    requires n == CountOf(v)
    ensures ArrangeSpec(v, true, want, cfg, rc1, rc2, s) == VisibleSpec(WithCount(v, n), want, cfg, rc1, rc2, t)
  {
  }

  /** `ArrangeSpec` on a live window of the monitor that misses the
    * selected tags once they are arranged. */
  lemma ArrangeSpecHidden(v: ClientView, want: bool, cfg: Config, rc: ResizeCtx, s: Snap)
    requires v.mon.Some? && v.mon.value.prevtag <= TAG_COUNT && !v.p.iskilling
    requires !Meets(ArrangedTags(v.p, true, s.tags, v.mon.value.selected), v.mon.value.selected)
    ensures var t := s.(tags := ArrangedTags(v.p, true, s.tags, v.mon.value.selected));
            var h := HideSpec(v, cfg, t);
            ArrangeSpec(v, true, want, cfg, rc, rc, s)
            == if SlidesOut(t.tags, v.mon.value.prevtag, v.mon.value.curtag, cfg) then ResizeSpec(v, cfg, h.geom, rc, h) else h
  {
  }

  /** `visible_clients++` when `inc`. */
  method Count(m: Monitor, inc: bool)
    modifies m`visibleClients
    ensures m.visibleClients == old(m.visibleClients) + (if inc then 1 else 0)
  {
    if inc {
      m.visibleClients := m.visibleClients + 1;
    }
  }

  /** The visible branch with the count of `visible_clients` before it. */
  method CountAndShow(c: Client, m: Monitor, want: bool, cfg: Config, grabbed: bool, sgeom: Box, scroller: bool,
                      selmon: Monitor, all: seq<Client>, refreshTotal: int)
    returns (ghost rc1: ResizeCtx, ghost rc2: ResizeCtx)
    requires m.Valid() && c.mon == m
    modifies c`isClipToHide, c`scene, c`anim, c`animainitGeom, c`pending
    modifies c`needOutputFlush, c`geom, c`bw, c`current, c`fakeNoBorder, c`decor
    modifies m`frameScheduled, m`visibleClients
    ensures m.visibleClients == old(m.visibleClients) + (if !c.props.unmanaged && !c.props.ignoreFocus then 1 else 0)
    ensures ArrangeCtx(rc1, grabbed, sgeom, scroller, refreshTotal)
    ensures ArrangeCtx(rc2, grabbed, sgeom, scroller, refreshTotal)
    ensures c.Snapshot() == VisibleSpec(WithCount(old(c.ViewOf()), m.visibleClients), want, cfg, rc1, rc2, old(c.Snapshot()))
  {
    ghost var v := c.ViewOf();
    Count(m, !c.props.unmanaged && !c.props.ignoreFocus);
    assert c.ViewOf() == WithCount(v, m.visibleClients);
    rc1, rc2 := ArrangeVisible(c, m, want, cfg, grabbed, sgeom, scroller, selmon, all, refreshTotal);
  }

  /** A window on the selected tags. */
  method ArrangeVisible(c: Client, m: Monitor, want: bool, cfg: Config, grabbed: bool, sgeom: Box, scroller: bool,
                        selmon: Monitor, all: seq<Client>, refreshTotal: int)
    returns (ghost rc1: ResizeCtx, ghost rc2: ResizeCtx)
    requires m.Valid() && c.mon == m
    modifies c`isClipToHide, c`scene, c`anim, c`animainitGeom, c`pending
    modifies c`needOutputFlush, c`geom, c`bw, c`current, c`fakeNoBorder, c`decor, m`frameScheduled
    ensures ArrangeCtx(rc1, grabbed, sgeom, scroller, refreshTotal)
    ensures ArrangeCtx(rc2, grabbed, sgeom, scroller, refreshTotal)
    ensures c.Snapshot() == VisibleSpec(old(c.ViewOf()), want, cfg, rc1, rc2, old(c.Snapshot()))
  {
    ghost var v, s := c.ViewOf(), c.Snapshot();
    ShowAndTagIn(c, m, want, cfg);
    rc1 := ResizeInPlace(c, m, cfg, grabbed, sgeom, scroller, selmon, all, refreshTotal);
    ghost var a := c.Snapshot();
    assert a == ResizeSpec(v, cfg, s.geom, rc1, TagInSpec(v, want, cfg, ShowSpec(v, s)));
    rc2 := ResetIfMaximised(c, m, cfg, grabbed, sgeom, scroller, selmon, all, refreshTotal);
    assert c.Snapshot() == MaxSpec(v, cfg, rc2, a);
  }

  /** The first two steps of the visible branch. */
  method ShowAndTagIn(c: Client, m: Monitor, want: bool, cfg: Config)
    requires m.Valid() && c.mon == m
    modifies c`isClipToHide, c`scene, c`anim, c`animainitGeom
    ensures c.ViewOf() == old(c.ViewOf())
    ensures c.Snapshot() == TagInSpec(old(c.ViewOf()), want, cfg, ShowSpec(old(c.ViewOf()), old(c.Snapshot())))
  {
    ghost var v, s := c.ViewOf(), c.Snapshot();
    ShowVisible(c, m);
    StartTagIn(c, m, want, cfg);
    assert c.ViewOf() == v;
  }

  /** `resize(c, c->geom, 0)` as the pass calls it. */
  method ResizeInPlace(c: Client, m: Monitor, cfg: Config, grabbed: bool, sgeom: Box, scroller: bool,
                       selmon: Monitor, all: seq<Client>, refreshTotal: int)
    returns (ghost rc: ResizeCtx)
    requires c.mon == m
    modifies c`needOutputFlush, c`geom, c`anim, c`animainitGeom, c`bw, c`current, c`pending
    modifies c`scene, c`fakeNoBorder, c`decor, m`frameScheduled
    ensures ArrangeCtx(rc, grabbed, sgeom, scroller, refreshTotal)
    ensures c.ViewOf() == old(c.ViewOf())
    ensures c.Snapshot() == ResizeSpec(old(c.ViewOf()), cfg, old(c.geom), rc, old(c.Snapshot()))
  {
    ghost var v := c.ViewOf();
    rc := ResizeCtx(false, grabbed, sgeom, scroller, VisibleTiledCount(all, selmon), SwallowedDrawn(c), refreshTotal);
    Resize(c, c.geom, false, cfg, grabbed, sgeom, scroller, selmon, all, refreshTotal);
    assert c.ViewOf() == v;
  }

  /** The test for `reset_maxmizescreen_size` at the end of the pass over
    * a visible window, and the reset. */
  method ResetIfMaximised(c: Client, m: Monitor, cfg: Config, grabbed: bool, sgeom: Box, scroller: bool,
                          selmon: Monitor, all: seq<Client>, refreshTotal: int)
    returns (ghost rc: ResizeCtx)
    requires c.mon == m
    modifies c`scene, c`anim, c`animainitGeom, c`pending, c`isClipToHide
    modifies c`needOutputFlush, c`geom, c`bw, c`current, c`fakeNoBorder, c`decor, m`frameScheduled
    ensures ArrangeCtx(rc, grabbed, sgeom, scroller, refreshTotal)
    ensures c.Snapshot() == MaxSpec(old(c.ViewOf()), cfg, rc, old(c.Snapshot()))
  {
    ghost var v, s := c.ViewOf(), c.Snapshot();
    rc := ResizeCtx(false, grabbed, sgeom, scroller, 0, None, refreshTotal);
    if c.props.ismaxmizescreen && !c.anim.tagouted && !c.anim.tagouting {
      rc := ResetMaxSize(c, m, cfg, grabbed, sgeom, scroller, selmon, all, refreshTotal);
    }
    assert c.Snapshot() == MaxSpec(v, cfg, rc, s);
  }

  /** `reset_maxmizescreen_size`. */
  method ResetMaxSize(c: Client, m: Monitor, cfg: Config, grabbed: bool, sgeom: Box, scroller: bool,
                      selmon: Monitor, all: seq<Client>, refreshTotal: int)
    returns (ghost rc: ResizeCtx)
    requires c.mon == m
    modifies c`scene, c`anim, c`animainitGeom, c`pending, c`isClipToHide
    modifies c`needOutputFlush, c`geom, c`bw, c`current, c`fakeNoBorder, c`decor, m`frameScheduled
    ensures ArrangeCtx(rc, grabbed, sgeom, scroller, refreshTotal)
    ensures c.Snapshot() == ResizeSpec(old(c.ViewOf()), cfg, MaxBox(m.w, cfg), rc,
                                       old(c.Snapshot()).(geom := MaxBox(m.w, cfg)))
  {
    ghost var v := c.ViewOf();
    c.geom := MaxBox(m.w, cfg);
    assert c.ViewOf() == v;
    rc := ResizeCtx(false, grabbed, sgeom, scroller, VisibleTiledCount(all, selmon), SwallowedDrawn(c), refreshTotal);
    Resize(c, c.geom, false, cfg, grabbed, sgeom, scroller, selmon, all, refreshTotal);
  }

  /** A window off the selected tags. */
  method ArrangeHidden(c: Client, m: Monitor, cfg: Config, grabbed: bool, sgeom: Box, scroller: bool,
                       selmon: Monitor, all: seq<Client>, refreshTotal: int)
    returns (ghost rc: ResizeCtx)
    requires m.Valid() && c.mon == m
    modifies c`scene, c`anim, c`animainitGeom, c`pending
    modifies c`needOutputFlush, c`geom, c`bw, c`current, c`fakeNoBorder, c`decor, m`frameScheduled
    ensures ArrangeCtx(rc, grabbed, sgeom, scroller, refreshTotal)
    ensures var v, s := old(c.ViewOf()), old(c.Snapshot());
            var h := HideSpec(v, cfg, s);
            c.Snapshot() == if SlidesOut(s.tags, m.prevtag, m.curtag, cfg) then ResizeSpec(v, cfg, h.geom, rc, h) else h
  {
    ghost var v := c.ViewOf();
    var slides := PrepareHidden(c, m, cfg);
    assert c.ViewOf() == v;
    rc := ResizeCtx(false, grabbed, sgeom, scroller, VisibleTiledCount(all, selmon), SwallowedDrawn(c), refreshTotal);
    if slides {
      Resize(c, c.geom, false, cfg, grabbed, sgeom, scroller, selmon, all, refreshTotal);
    }
  }

  /** The windows among the first `k` that count towards
    * `visible_clients`, from their properties, monitors and tags. */
  function VisibleCount(ps: seq<Props>, onM: seq<bool>, tags: seq<bv32>, selected: bv32, k: nat): nat
    requires k <= |ps| == |onM| == |tags|
  {
    if k == 0 then 0
    else VisibleCount(ps, onM, tags, selected, k - 1)
         + (if CountsVisible(ps[k - 1], onM[k - 1], tags[k - 1], selected) then 1 else 0)
  }

  /** What the pass does to window `i` of `cs`, whose view and stored
    * state were `v` and `s` when the pass began: `ArrangeSpec` on the view
    * with `visible_clients` as counted over the windows before it. */
  function NthSpec(cs: seq<Client>, ps: seq<Props>, onM: seq<bool>, ts: seq<bv32>, sel: bv32, i: nat,
                   v: ClientView, want: bool, cfg: Config, rc: (ResizeCtx, ResizeCtx), s: Snap): Snap
    requires i < |ps| == |onM| == |ts|
    requires onM[i] ==> v.mon.Some? && v.mon.value.prevtag <= TAG_COUNT
  {
    ArrangeSpec(WithCount(v, VisibleCount(ps, onM, ts, sel, i)), onM[i], want, cfg, rc.0, rc.1, s)
  }

  /** `arrange`: nothing happens for an absent or disabled output;
    * otherwise `visible_clients` is recounted from zero over the client
    * list and every window takes `ArrangeSpec`.  `grab` is the window
    * being moved or resized with the pointer, if any. */
  method ArrangeMon(m: Monitor?, clients: seq<Client>, want: bool, cfg: Config, grab: Client?, sgeom: Box,
                    selmon: Monitor, refreshTotal: int)
    returns (ghost rcs: seq<(ResizeCtx, ResizeCtx)>)
    requires m != null ==> m.Valid()
    requires Distinct(clients)
    modifies set c | c in clients, {m}`visibleClients, {m}`frameScheduled
    ensures m == null || !old(m.enabled) ==> forall c :: c in clients ==> unchanged(c)
    ensures m != null && old(m.enabled) ==>
      |rcs| == |clients|
      && m.visibleClients == VisibleCount(old(PropsOf(clients)), old(OnMonitor(clients, m)), old(TagsOf(clients)),
                                          old(m.SelectedTags()), |clients|)
      && (forall i :: 0 <= i < |clients| ==>
            ArrangeCtx(rcs[i].0, clients[i] == grab, sgeom, old(IsScroller(selmon)), refreshTotal)
            && ArrangeCtx(rcs[i].1, clients[i] == grab, sgeom, old(IsScroller(selmon)), refreshTotal))
      && (forall i :: 0 <= i < |clients| ==>
            clients[i].Snapshot()
            == NthSpec(clients, old(PropsOf(clients)), old(OnMonitor(clients, m)), old(TagsOf(clients)),
                       old(m.SelectedTags()), i, old(clients[i].ViewOf()), want, cfg, rcs[i], old(clients[i].Snapshot())))
  {
    rcs := [];
    if m == null || !m.enabled {
      return;
    }
    rcs := ArrangeEnabled(m, clients, want, cfg, grab, sgeom, selmon, refreshTotal, ViewsOf(clients));
  }

  /** The window pass of `arrange` over an enabled output. */
  method ArrangeEnabled(m: Monitor, clients: seq<Client>, want: bool, cfg: Config, grab: Client?, sgeom: Box,
                        selmon: Monitor, refreshTotal: int, ghost views: seq<ClientView>)
    returns (ghost rcs: seq<(ResizeCtx, ResizeCtx)>)
    requires m.Valid() && Distinct(clients)
    requires |views| == |clients| && forall j :: 0 <= j < |clients| ==> views[j] == clients[j].ViewOf()
    modifies set c | c in clients
    modifies m`visibleClients, m`frameScheduled
    ensures |rcs| == |clients|
    ensures m.visibleClients == VisibleCount(old(PropsOf(clients)), old(OnMonitor(clients, m)), old(TagsOf(clients)),
                                             m.SelectedTags(), |clients|)
    ensures forall i :: 0 <= i < |clients| ==>
              ArrangeCtx(rcs[i].0, clients[i] == grab, sgeom, old(IsScroller(selmon)), refreshTotal)
              && ArrangeCtx(rcs[i].1, clients[i] == grab, sgeom, old(IsScroller(selmon)), refreshTotal)
    ensures forall i :: 0 <= i < |clients| ==>
              clients[i].Snapshot()
              == NthSpec(clients, old(PropsOf(clients)), old(OnMonitor(clients, m)), old(TagsOf(clients)),
                         m.SelectedTags(), i, old(clients[i].ViewOf()), want, cfg, rcs[i], old(clients[i].Snapshot()))
  {
    ghost var ps, onM, ts := PropsOf(clients), OnMonitor(clients, m), TagsOf(clients);
    ghost var snaps := SnapsOf(clients);
    var scroller := IsScroller(selmon);
    ghost var sel := m.SelectedTags();
    m.visibleClients := 0;
    ghost var step := StepOf(want, cfg);
    ghost var cnts, outs;
    cnts, rcs, outs := ArrangeLoop(m, clients, want, cfg, grab, sgeom, scroller, selmon, refreshTotal,
                                   ps, onM, ts, sel, views, snaps, m.ViewAt(0), step);
    PassedAll(clients, onM, views, snaps, grab, sgeom, scroller, refreshTotal, step, cnts, rcs, outs);
    forall k | 0 <= k < |clients|
      ensures clients[k].Snapshot() == NthSpec(clients, ps, onM, ts, sel, k, views[k], want, cfg, rcs[k], snaps[k])
    {
      StepIsNth(clients, ps, onM, ts, sel, k, views, snaps, want, cfg, cnts[k], rcs[k]);
    }
  }

  /** The loop of the window pass; the ghost parameters are what the pass
    * began with. */
  method ArrangeLoop(m: Monitor, clients: seq<Client>, want: bool, cfg: Config, grab: Client?, sgeom: Box, scroller: bool,
                     selmon: Monitor, refreshTotal: int,
                     ghost ps: seq<Props>, ghost onM: seq<bool>, ghost ts: seq<bv32>, ghost sel: bv32,
                     ghost views: seq<ClientView>, ghost snaps: seq<Snap>, ghost mv: MonView,
                     ghost step: (ClientView, bool, nat, (ResizeCtx, ResizeCtx), Snap) -> Snap)
    returns (ghost cnts: seq<nat>, ghost rcs: seq<(ResizeCtx, ResizeCtx)>, ghost outs: seq<Snap>)
    requires m.Valid() && Distinct(clients) && step == StepOf(want, cfg)
    requires m.visibleClients == 0 && m.SelectedTags() == sel
    requires Ready(clients, m, mv, 0, ps, onM, ts, views, snaps)
    modifies set c | c in clients
    modifies m`visibleClients, m`frameScheduled
    ensures |rcs| == |outs| == |clients|
    ensures m.visibleClients == VisibleCount(ps, onM, ts, sel, |clients|) && m.SelectedTags() == sel
    ensures Done(clients, outs) && Counted(ps, onM, ts, sel, cnts)
    ensures Passed(clients, onM, views, snaps, grab, sgeom, scroller, refreshTotal, step, cnts, rcs, outs)
  {
    cnts, rcs, outs := [], [], [];
    var i := 0;
    while i < |clients|
      invariant i <= |clients| && |cnts| == |rcs| == |outs| == i
      invariant m.visibleClients == VisibleCount(ps, onM, ts, sel, i)
      invariant m.SelectedTags() == sel
      invariant Ready(clients, m, mv, i, ps, onM, ts, views, snaps)
      invariant Done(clients, outs) && Counted(ps, onM, ts, sel, cnts)
      invariant Passed(clients, onM, views, snaps, grab, sgeom, scroller, refreshTotal, step, cnts, rcs, outs)
    {
      cnts, rcs, outs := LoopStep(m, clients, i, want, cfg, grab, sgeom, scroller, selmon, refreshTotal,
                                  ps, onM, ts, sel, views, snaps, mv, step, cnts, rcs, outs);
      i := i + 1;
    }
  }

  /** One turn of the pass's loop: window `i` is arranged and joins the
    * windows done. */
  method LoopStep(m: Monitor, clients: seq<Client>, i: nat, want: bool, cfg: Config, grab: Client?, sgeom: Box, scroller: bool,
                  selmon: Monitor, refreshTotal: int,
                  ghost ps: seq<Props>, ghost onM: seq<bool>, ghost ts: seq<bv32>, ghost sel: bv32,
                  ghost views: seq<ClientView>, ghost snaps: seq<Snap>, ghost mv: MonView,
                  ghost step: (ClientView, bool, nat, (ResizeCtx, ResizeCtx), Snap) -> Snap,
                  ghost cnts: seq<nat>, ghost rcs: seq<(ResizeCtx, ResizeCtx)>, ghost outs: seq<Snap>)
    returns (ghost cnts': seq<nat>, ghost rcs': seq<(ResizeCtx, ResizeCtx)>, ghost outs': seq<Snap>)
    requires m.Valid() && Distinct(clients) && i < |clients| && step == StepOf(want, cfg)
    requires |cnts| == |rcs| == |outs| == i
    requires Ready(clients, m, mv, i, ps, onM, ts, views, snaps)
    requires m.visibleClients == VisibleCount(ps, onM, ts, sel, i) && m.SelectedTags() == sel
    requires Done(clients, outs) && Counted(ps, onM, ts, sel, cnts)
    requires Passed(clients, onM, views, snaps, grab, sgeom, scroller, refreshTotal, step, cnts, rcs, outs)
    modifies clients[i], m`visibleClients, m`frameScheduled
    ensures |cnts'| == |rcs'| == |outs'| == i + 1
    ensures m.visibleClients == VisibleCount(ps, onM, ts, sel, i + 1) && m.SelectedTags() == sel
    ensures Ready(clients, m, mv, i + 1, ps, onM, ts, views, snaps)
    ensures Done(clients, outs') && Counted(ps, onM, ts, sel, cnts')
    ensures Passed(clients, onM, views, snaps, grab, sgeom, scroller, refreshTotal, step, cnts', rcs', outs')
  {
    ghost var cnt := m.visibleClients;
    ghost var rc := PassStep(m, clients, i, want, cfg, grab, sgeom, scroller, selmon, refreshTotal,
                             ps, onM, ts, sel, views, snaps, mv, outs);
    StepIsNth(clients, ps, onM, ts, sel, i, views, snaps, want, cfg, cnt, rc);
    PassedSnoc(clients, onM, views, snaps, grab, sgeom, scroller, refreshTotal, step,
               cnts, rcs, outs, cnt, rc, clients[i].Snapshot());
    CountedSnoc(ps, onM, ts, sel, cnts, cnt);
    cnts', rcs', outs' := cnts + [cnt], rcs + [rc], outs + [clients[i].Snapshot()];
  }

  /** The windows from the `i`th on are still to be arranged: each has the
    * properties, monitor test, tags and stored state the pass began
    * with, and a window of `m` has the view it began with, with the count
    * left out. */
  ghost predicate Ready(cs: seq<Client>, m: Monitor, mv: MonView, i: nat, ps: seq<Props>, onM: seq<bool>, ts: seq<bv32>,
                        views: seq<ClientView>, snaps: seq<Snap>)
    reads (set c | c in cs), m
  {
    |ps| == |onM| == |ts| == |views| == |snaps| == |cs| && i <= |cs| && m.ViewAt(0) == mv
    && forall j :: i <= j < |cs| ==>
         cs[j].props == ps[j] && (cs[j].mon == m) == onM[j] && cs[j].tags == ts[j]
         && cs[j].Snapshot() == snaps[j]
         && (onM[j] ==> views[j].mon.Some? && views[j].mon.value.prevtag <= TAG_COUNT
                        && WithCount(views[j], 0)
                           == ClientView(cs[j].props, Some(mv), cs[j].surfaceClip, cs[j].surfaceGeom,
                                         cs[j].isX11, cs[j].swallowing != null, cs[j].swallowedby == cs[j]))
  }

  /** The first `|outs|` windows have the stored states `outs`. */
  ghost predicate Done(cs: seq<Client>, outs: seq<Snap>)
    reads set c | c in cs
  {
    |outs| <= |cs| && forall j :: 0 <= j < |outs| ==> cs[j].Snapshot() == outs[j]
  }

  /** The pass's step on one window, as a value: `ArrangeSpec` on the
    * window's view `v`, counted to `n`, with the contexts `rc`, from the
    * stored state `s`.  A view that `ArrangeSpec` does not accept is left
    * as it is; the pass never meets one. */
  ghost function StepOf(want: bool, cfg: Config): (ClientView, bool, nat, (ResizeCtx, ResizeCtx), Snap) -> Snap {
    (v: ClientView, on: bool, n: nat, rc: (ResizeCtx, ResizeCtx), s: Snap) =>
      if on ==> v.mon.Some? && v.mon.value.prevtag <= TAG_COUNT
      then ArrangeSpec(WithCount(v, n), on, want, cfg, rc.0, rc.1, s)
      else s
  }

  /** The step on window `i`, reached with the count of the windows before
    * it, is `NthSpec`. */
  lemma StepIsNth(cs: seq<Client>, ps: seq<Props>, onM: seq<bool>, ts: seq<bv32>, sel: bv32, i: nat,
                  views: seq<ClientView>, snaps: seq<Snap>, want: bool, cfg: Config, n: nat, rc: (ResizeCtx, ResizeCtx))
    requires i < |ps| == |onM| == |ts| && i < |views| && i < |snaps|
    requires onM[i] ==> views[i].mon.Some? && views[i].mon.value.prevtag <= TAG_COUNT
    requires n == VisibleCount(ps, onM, ts, sel, i)
    ensures StepOf(want, cfg)(views[i], onM[i], n, rc, snaps[i])
         == NthSpec(cs, ps, onM, ts, sel, i, views[i], want, cfg, rc, snaps[i])
  {
  }

  /** The first `|outs|` windows of the pass are done: each took `step`
    * with `visible_clients` at the count in `cnts` and the contexts in
    * `rcs`, and those contexts are the pass's.  Stated window by window
    * from the last one back, so that each step of the pass adds one
    * window. */
  ghost predicate Passed(cs: seq<Client>, onM: seq<bool>, views: seq<ClientView>, snaps: seq<Snap>,
                         grab: Client?, sgeom: Box, scroller: bool, refreshTotal: int,
                         step: (ClientView, bool, nat, (ResizeCtx, ResizeCtx), Snap) -> Snap,
                         cnts: seq<nat>, rcs: seq<(ResizeCtx, ResizeCtx)>, outs: seq<Snap>)
    decreases |outs|
  {
    |cnts| == |rcs| == |outs| <= |cs| && |onM| == |views| == |snaps| == |cs|
    && (|outs| > 0 ==>
          var j := |outs| - 1;
          Passed(cs, onM, views, snaps, grab, sgeom, scroller, refreshTotal, step, cnts[..j], rcs[..j], outs[..j])
          && ArrangeCtx(rcs[j].0, cs[j] == grab, sgeom, scroller, refreshTotal)
          && ArrangeCtx(rcs[j].1, cs[j] == grab, sgeom, scroller, refreshTotal)
          && (onM[j] ==> views[j].mon.Some? && views[j].mon.value.prevtag <= TAG_COUNT)
          && outs[j] == step(views[j], onM[j], cnts[j], rcs[j], snaps[j]))
  }

  /** Every window a finished pass prefix covers took the step in the
    * pass's contexts. */
  lemma {:induction false} PassedAll(cs: seq<Client>, onM: seq<bool>, views: seq<ClientView>, snaps: seq<Snap>,
                                     grab: Client?, sgeom: Box, scroller: bool, refreshTotal: int,
                                     step: (ClientView, bool, nat, (ResizeCtx, ResizeCtx), Snap) -> Snap,
                                     cnts: seq<nat>, rcs: seq<(ResizeCtx, ResizeCtx)>, outs: seq<Snap>)
    requires Passed(cs, onM, views, snaps, grab, sgeom, scroller, refreshTotal, step, cnts, rcs, outs)
    ensures |cnts| == |rcs| == |outs| <= |cs| && |onM| == |views| == |snaps| == |cs|
    ensures forall j :: 0 <= j < |outs| ==>
              ArrangeCtx(rcs[j].0, cs[j] == grab, sgeom, scroller, refreshTotal)
              && ArrangeCtx(rcs[j].1, cs[j] == grab, sgeom, scroller, refreshTotal)
              && (onM[j] ==> views[j].mon.Some? && views[j].mon.value.prevtag <= TAG_COUNT)
              && outs[j] == step(views[j], onM[j], cnts[j], rcs[j], snaps[j])
    decreases |outs|
  {
    if |outs| > 0 {
      var n := |outs| - 1;
      PassedAll(cs, onM, views, snaps, grab, sgeom, scroller, refreshTotal, step, cnts[..n], rcs[..n], outs[..n]);
      forall j | 0 <= j < n
        ensures cnts[..n][j] == cnts[j] && rcs[..n][j] == rcs[j] && outs[..n][j] == outs[j]
      {
      }
    }
  }

  /** A finished prefix grows by one window that took the step in the
    * pass's contexts. */
  lemma PassedSnoc(cs: seq<Client>, onM: seq<bool>, views: seq<ClientView>, snaps: seq<Snap>,
                   grab: Client?, sgeom: Box, scroller: bool, refreshTotal: int,
                   step: (ClientView, bool, nat, (ResizeCtx, ResizeCtx), Snap) -> Snap,
                   cnts: seq<nat>, rcs: seq<(ResizeCtx, ResizeCtx)>, outs: seq<Snap>,
                   cnt: nat, rc: (ResizeCtx, ResizeCtx), out: Snap)
    requires Passed(cs, onM, views, snaps, grab, sgeom, scroller, refreshTotal, step, cnts, rcs, outs)
    requires |outs| < |cs|
    requires ArrangeCtx(rc.0, cs[|outs|] == grab, sgeom, scroller, refreshTotal)
    requires ArrangeCtx(rc.1, cs[|outs|] == grab, sgeom, scroller, refreshTotal)
    requires onM[|outs|] ==> views[|outs|].mon.Some? && views[|outs|].mon.value.prevtag <= TAG_COUNT
    requires out == step(views[|outs|], onM[|outs|], cnt, rc, snaps[|outs|])
    ensures Passed(cs, onM, views, snaps, grab, sgeom, scroller, refreshTotal, step,
                   cnts + [cnt], rcs + [rc], outs + [out])
  {
    var n := |outs|;
    assert (cnts + [cnt])[..n] == cnts;
    assert (rcs + [rc])[..n] == rcs;
    assert (outs + [out])[..n] == outs;
  }

  /** `cnts` holds, for each window the pass has reached, the count of the
    * windows before it. */
  ghost predicate Counted(ps: seq<Props>, onM: seq<bool>, ts: seq<bv32>, sel: bv32, cnts: seq<nat>) {
    |cnts| <= |ps| == |onM| == |ts|
    && forall j :: 0 <= j < |cnts| ==> cnts[j] == VisibleCount(ps, onM, ts, sel, j)
  }

  /** The next window's count joins the counts. */
  lemma CountedSnoc(ps: seq<Props>, onM: seq<bool>, ts: seq<bv32>, sel: bv32, cnts: seq<nat>, cnt: nat)
    requires Counted(ps, onM, ts, sel, cnts) && |cnts| < |ps|
    requires cnt == VisibleCount(ps, onM, ts, sel, |cnts|)
    ensures Counted(ps, onM, ts, sel, cnts + [cnt])
  {
  }

  /** One step of the pass: window `i` takes the step from the view and
    * stored state it had when the pass began, and is done; the windows
    * after it are still to be arranged. */
  method PassStep(m: Monitor, clients: seq<Client>, i: nat, want: bool, cfg: Config, grab: Client?, sgeom: Box, scroller: bool,
                  selmon: Monitor, refreshTotal: int,
                  ghost ps: seq<Props>, ghost onM: seq<bool>, ghost ts: seq<bv32>, ghost sel: bv32,
                  ghost views: seq<ClientView>, ghost snaps: seq<Snap>, ghost mv: MonView, ghost outs: seq<Snap>)
    returns (ghost rc: (ResizeCtx, ResizeCtx))
    requires m.Valid() && Distinct(clients) && i < |clients|
    requires Ready(clients, m, mv, i, ps, onM, ts, views, snaps) && Done(clients, outs) && |outs| == i
    requires m.visibleClients == VisibleCount(ps, onM, ts, sel, i) && m.SelectedTags() == sel
    modifies clients[i], m`visibleClients, m`frameScheduled
    ensures m.visibleClients == VisibleCount(ps, onM, ts, sel, i + 1) && m.SelectedTags() == sel
    ensures ArrangeCtx(rc.0, clients[i] == grab, sgeom, scroller, refreshTotal)
    ensures ArrangeCtx(rc.1, clients[i] == grab, sgeom, scroller, refreshTotal)
    ensures onM[i] ==> views[i].mon.Some? && views[i].mon.value.prevtag <= TAG_COUNT
    ensures clients[i].Snapshot() == NthSpec(clients, ps, onM, ts, sel, i, views[i], want, cfg, rc, snaps[i])
    ensures Ready(clients, m, mv, i + 1, ps, onM, ts, views, snaps) && Done(clients, outs + [clients[i].Snapshot()])
  {
    if onM[i] {
      ViewIsAt(clients[i]);
    }
    rc := ArrangeNth(m, clients, i, want, cfg, grab, sgeom, scroller, selmon, refreshTotal,
                     ps, onM, ts, sel, views, snaps);
    PassFrame(Progress(clients, m, mv, i, ps, onM, ts, views, snaps, outs));
  }

  /** Where the pass stands before window `i`: the windows and the monitor,
    * what the windows began the pass with, and the stored states of the
    * windows done. */
  datatype Progress = Progress(cs: seq<Client>, m: Monitor, mv: MonView, i: nat, ps: seq<Props>, onM: seq<bool>,
                               ts: seq<bv32>, views: seq<ClientView>, snaps: seq<Snap>, outs: seq<Snap>)

  /** Once the pass over window `i` has left the other windows and the
    * monitor's fields but `visible_clients` alone, the windows after it are
    * still to be arranged, those before it are still done and it joins
    * them, and the selected tags are as they were. */
  twostate lemma PassFrame(w: Progress)
    requires w.i < |w.cs| && |w.outs| == w.i
    requires forall j :: 0 <= j < |w.cs| && j != w.i ==> unchanged(w.cs[j])
    requires w.m.ViewAt(0) == old(w.m.ViewAt(0))
    ensures old(Ready(w.cs, w.m, w.mv, w.i, w.ps, w.onM, w.ts, w.views, w.snaps))
            ==> Ready(w.cs, w.m, w.mv, w.i + 1, w.ps, w.onM, w.ts, w.views, w.snaps)
    ensures old(Done(w.cs, w.outs)) ==> Done(w.cs, w.outs + [w.cs[w.i].Snapshot()])
    ensures w.m.SelectedTags() == old(w.m.SelectedTags())
  {
  }

  /** A window's view is built from its own fields and its monitor's view
    * with the count left out, with the monitor's `visible_clients` put
    * back. */
  lemma ViewIsAt(c: Client)
    requires c.mon != null
    ensures c.ViewOf()
         == WithCount(ClientView(c.props, Some(c.mon.ViewAt(0)), c.surfaceClip, c.surfaceGeom,
                                 c.isX11, c.swallowing != null, c.swallowedby == c), c.mon.visibleClients)
  {
  }

  /** The pass over the `i`th window, which leaves the others alone.  The
    * ghost parameters are what the pass began with: the windows'
    * properties, monitors, tags, views and stored states, and the
    * selected tags. */
  method ArrangeNth(m: Monitor, clients: seq<Client>, i: nat, want: bool, cfg: Config, grab: Client?, sgeom: Box, scroller: bool,
                    selmon: Monitor, refreshTotal: int,
                    ghost ps: seq<Props>, ghost onM: seq<bool>, ghost ts: seq<bv32>, ghost sel: bv32,
                    ghost views: seq<ClientView>, ghost snaps: seq<Snap>)
    returns (ghost rc: (ResizeCtx, ResizeCtx))
    requires m.Valid() && Distinct(clients) && i < |clients|
    requires |ps| == |onM| == |ts| == |views| == |snaps| == |clients|
    requires m.visibleClients == VisibleCount(ps, onM, ts, sel, i) && m.SelectedTags() == sel
    requires clients[i].props == ps[i] && (clients[i].mon == m) == onM[i] && clients[i].tags == ts[i]
    requires clients[i].Snapshot() == snaps[i]
    requires onM[i] ==> views[i].mon.Some? && views[i].mon.value.prevtag <= TAG_COUNT
    requires onM[i] ==> clients[i].ViewOf() == WithCount(views[i], m.visibleClients)
    modifies clients[i], m`visibleClients, m`frameScheduled
    ensures m.visibleClients == VisibleCount(ps, onM, ts, sel, i + 1)
    ensures ArrangeCtx(rc.0, clients[i] == grab, sgeom, scroller, refreshTotal)
    ensures ArrangeCtx(rc.1, clients[i] == grab, sgeom, scroller, refreshTotal)
    ensures clients[i].Snapshot() == NthSpec(clients, ps, onM, ts, sel, i, views[i], want, cfg, rc, snaps[i])
    ensures forall j :: 0 <= j < |clients| && j != i ==> unchanged(clients[j])
  {
    var c := clients[i];
    var rc1, rc2 := ArrangeClient(c, m, want, cfg, c == grab, sgeom, scroller, selmon, clients, refreshTotal);
    rc := (rc1, rc2);
    if !onM[i] {
      assert c.Snapshot() == snaps[i];
    }
  }

  /** The stored state of every window. */
  function SnapsOf(cs: seq<Client>): (r: seq<Snap>)
    reads set c | c in cs
    ensures |r| == |cs| && forall i :: 0 <= i < |cs| ==> r[i] == cs[i].Snapshot()
  {
    seq(|cs|, i requires 0 <= i < |cs| reads cs => cs[i].Snapshot())
  }

  /** What every window's pass reads and leaves alone. */
  function ViewsOf(cs: seq<Client>): (r: seq<ClientView>)
    reads set c | c in cs, set c | c in cs && c.mon != null :: c.mon
    ensures |r| == |cs| && forall i :: 0 <= i < |cs| ==> r[i] == cs[i].ViewOf()
  {
    seq(|cs|, i requires 0 <= i < |cs| reads (set c | c in cs), (set c | c in cs && c.mon != null :: c.mon) => cs[i].ViewOf())
  }

  function PropsOf(cs: seq<Client>): (r: seq<Props>)
    reads set c | c in cs
    ensures |r| == |cs| && forall i :: 0 <= i < |cs| ==> r[i] == cs[i].props
  {
    seq(|cs|, i requires 0 <= i < |cs| reads cs => cs[i].props)
  }

  function TagsOf(cs: seq<Client>): (r: seq<bv32>)
    reads set c | c in cs
    ensures |r| == |cs| && forall i :: 0 <= i < |cs| ==> r[i] == cs[i].tags
  {
    seq(|cs|, i requires 0 <= i < |cs| reads cs => cs[i].tags)
  }

  function OnMonitor(cs: seq<Client>, m: Monitor): (r: seq<bool>)
    reads set c | c in cs
    ensures |r| == |cs| && forall i :: 0 <= i < |cs| ==> r[i] == (cs[i].mon == m)
  {
    seq(|cs|, i requires 0 <= i < |cs| reads cs => cs[i].mon == m)
  }
}
