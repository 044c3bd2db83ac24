/** The live border and clip geometry of a window: which windows draw no
  * border, the four border rectangles around the drawn rectangle, and the
  * surface clip that keeps tiled and tag-switching windows from showing
  * on neighbouring monitors. */
module Border {
  import opened CNum
  import opened Opt
  import opened Geometry
  import opened State
  import opened Tags
  import opened Settings

  /** A tag rule with `no_render_border` naming one of the client's tags.
    * Rule ids outside 1..LENGTH(tags) name no tag a client carries. */
  predicate RuleHits(tags: bv32, r: TagRule) {
    1 <= r.id <= TAG_COUNT && HasBit(tags, r.id - 1) && r.noRenderBorder
  }

  predicate AnyRuleHits(tags: bv32, rules: seq<TagRule>) {
    exists i :: 0 <= i < |rules| && RuleHits(tags, rules[i])
  }

  /** `check_hit_no_border`: borders are off globally, a tag rule of one of
    * the client's tags turns them off, or the client is alone on its
    * monitor with `no_border_when_single`. */
  method CheckHitNoBorder(c: Client, cfg: Config) returns (hit: bool)
    ensures hit <==> !cfg.renderBorder || AnyRuleHits(c.tags, cfg.tagRules)
                     || (cfg.noBorderWhenSingle != 0 && c.mon != null && c.mon.visibleClients == 1)
  {
    hit := !cfg.renderBorder;
    var rules := cfg.tagRules;
    var i := 0;
    while i < |rules|
      invariant 0 <= i <= |rules|
      invariant hit <==> !cfg.renderBorder || exists k :: 0 <= k < i && RuleHits(c.tags, rules[k])
    {
      if RuleHits(c.tags, rules[i]) {
        hit := true;
      }
      i := i + 1;
    }
    if cfg.noBorderWhenSingle != 0 && c.mon != null && c.mon.visibleClients == 1 {
      hit := true;
    }
  }

  /** How far the drawn rectangle reaches past each monitor edge (0 when
    * it does not). */
  function OutLeft(g: Box, mon: Box): int { GeZero(mon.x - g.x) }
  function OutTop(g: Box, mon: Box): int { GeZero(mon.y - g.y) }
  function OutRight(g: Box, mon: Box): int { GeZero(g.x + g.width - (mon.x + mon.width)) }
  function OutBottom(g: Box, mon: Box): int { GeZero(g.y + g.height - (mon.y + mon.height)) }

  /** The four border rectangles, in the order top, bottom, left, right. */
  datatype Segments = Segments(top: Rect, bottom: Rect, left: Rect, right: Rect)

  /** The border of a `g.width` x `g.height` window of border width `bw`
    * when nothing is cut off. */
  function FullFrame(g: Box, bw: int): Segments {
    Segments(
      Rect(0, 0, GeZero(g.width), bw),
      Rect(0, g.height - bw, GeZero(g.width), bw),
      Rect(0, bw, bw, GeZero(g.height - 2 * bw)),
      Rect(g.width - bw, bw, bw, GeZero(g.height - 2 * bw)))
  }

  /** Reference definition of the border: when `cut` holds (tiled or
    * tag-animating windows) each side loses what lies past the monitor
    * edge and the sides shorten by what lies past the top and bottom. */
  function CutFrame(g: Box, mon: Box, bw: int, cut: bool): Segments {
    var l := if cut then OutLeft(g, mon) else 0;
    var t := if cut then OutTop(g, mon) else 0;
    var r := if cut then OutRight(g, mon) else 0;
    var b := if cut then OutBottom(g, mon) else 0;
    Segments(
      Rect(l, t, GeZero(g.width - l - r), GeZero(bw - t)),
      Rect(l, g.height - bw, GeZero(g.width - l - r), GeZero(bw - b)),
      Rect(l, bw + t, GeZero(bw - l), GeZero(g.height - 2 * bw - t - b)),
      Rect(g.width - bw, bw + t, GeZero(bw - r), GeZero(g.height - 2 * bw - t - b)))
  }

  /** The body of `apply_border` after the no-border cases: the sizes and
    * positions are adjusted side by side, and every size passes through
    * `set_rect_size`'s GEZERO. */
  method BorderRects(g: Box, mon: Box, bw: nat, cut: bool) returns (s: Segments)
    ensures s == CutFrame(g, mon, bw, cut)
  {
    var outsideLeft := GeZero(mon.x - g.x);
    var outsideTop := GeZero(mon.y - g.y);
    var outsideRight := GeZero((g.x + g.width) - (mon.x + mon.width));
    var outsideBottom := GeZero((g.y + g.height) - (mon.y + mon.height));
    var topWidth, topHeight := g.width, bw;
    var bottomWidth, bottomHeight := g.width, bw;
    var leftWidth, leftHeight := bw, g.height - 2 * bw;
    var rightWidth, rightHeight := bw, g.height - 2 * bw;
    var topX, topY := 0, 0;
    var bottomX, bottomY := 0, g.height - bottomHeight;
    var leftX, leftY := 0, bw;
    var rightX, rightY := g.width - rightWidth, bw;
    if cut {
      if outsideTop > 0 {
        topHeight := GeZero(bw - outsideTop);
        topY := topY + outsideTop;
        leftHeight := leftHeight - outsideTop;
        rightHeight := rightHeight - outsideTop;
        leftY := leftY + outsideTop;
        rightY := rightY + outsideTop;
      }
      if outsideBottom > 0 {
        bottomHeight := GeZero(bw - outsideBottom);
        leftHeight := leftHeight - outsideBottom;
        rightHeight := rightHeight - outsideBottom;
      }
      if outsideLeft > 0 {
        leftWidth := GeZero(bw - outsideLeft);
        leftX := leftX + outsideLeft;
        topWidth := topWidth - outsideLeft;
        bottomWidth := bottomWidth - outsideLeft;
        topX := topX + outsideLeft;
        bottomX := bottomX + outsideLeft;
      }
      if outsideRight > 0 {
        rightWidth := GeZero(bw - outsideRight);
        topWidth := topWidth - outsideRight;
        bottomWidth := bottomWidth - outsideRight;
      }
    }
    s := Segments(
      Rect(topX, topY, GeZero(topWidth), GeZero(topHeight)),
      Rect(bottomX, bottomY, GeZero(bottomWidth), GeZero(bottomHeight)),
      Rect(leftX, leftY, GeZero(leftWidth), GeZero(leftHeight)),
      Rect(rightX, rightY, GeZero(rightWidth), GeZero(rightHeight)));
  }

  /** Each segment's thickness is `bw` less that side's overflow, never
    * negative and never more than `bw`. */
  lemma CutFrameThickness(g: Box, mon: Box, bw: nat)
    ensures var s := CutFrame(g, mon, bw, true);
            s.top.height == Max(0, bw - OutTop(g, mon)) && s.bottom.height == Max(0, bw - OutBottom(g, mon))
            && s.left.width == Max(0, bw - OutLeft(g, mon)) && s.right.width == Max(0, bw - OutRight(g, mon))
            && 0 <= s.top.height <= bw && 0 <= s.bottom.height <= bw
            && 0 <= s.left.width <= bw && 0 <= s.right.width <= bw
  {
  }

  /** With a cut, the top and bottom segments span exactly the part of the
    * window's width that lies on the monitor. */
  lemma CutFrameSpansVisibleWidth(g: Box, mon: Box, bw: nat)
    requires OverlapsX(g, mon) && g.width >= 0 && mon.width >= 0
    ensures var s := CutFrame(g, mon, bw, true);
            g.x + s.top.x == Max(g.x, mon.x) && g.x + s.top.x + s.top.width == Min(g.x + g.width, mon.x + mon.width)
            && s.bottom.x == s.top.x && s.bottom.width == s.top.width
  {
  }

  /** A window the monitor contains, or one that is not cut, gets the full
    * frame. */
  lemma CutFrameInsideIsFull(g: Box, mon: Box, bw: nat, cut: bool)
    requires !cut || (mon.x <= g.x && mon.y <= g.y && g.x + g.width <= mon.x + mon.width && g.y + g.height <= mon.y + mon.height)
    ensures CutFrame(g, mon, bw, cut) == FullFrame(g, bw)
  {
  }

  /** The border width `apply_border` gives a bordered client. */
  function BorderWidthFor(isnoborder: bool, borderpx: int): nat {
    if isnoborder then 0 else U32(borderpx)
  }

  /** The decoration with every border rectangle sized 0 x 0 (positions
    * kept) and the surface at (`bw`, `bw`). */
  function Hidden(d: Decor, bw: int): Decor {
    d.(surfaceX := bw, surfaceY := bw,
       top := d.top.(width := 0, height := 0), bottom := d.bottom.(width := 0, height := 0),
       left := d.left.(width := 0, height := 0), right := d.right.(width := 0, height := 0))
  }

  /** The decoration with the given border rectangles and the surface at
    * (`bw`, `bw`). */
  function Placed(d: Decor, s: Segments, bw: int): Decor {
    d.(surfaceX := bw, surfaceY := bw, top := s.top, bottom := s.bottom, left := s.left, right := s.right)
  }

  /** The border rectangles for the client's drawn rectangle and current
    * border width. */
  method PlaceBorder(c: Client)
    requires c.mon != null
    modifies c`decor
    ensures c.decor == Placed(old(c.decor), CutFrame(c.anim.drawn, c.mon.m, c.bw, c.TiledOrTagAnimating()), c.bw)
  {
    var s := BorderRects(c.anim.drawn, c.mon.m, c.bw, c.TiledOrTagAnimating());
    c.decor := Placed(c.decor, s, c.bw);
  }

  /** What `apply_border` does to the border width and the fake-no-border
    * flag: `hit` is `check_hit_no_border`, `rebordered` says the client is
    * not fullscreen and visible on its monitor. */
  function NewBorderWidth(hit: bool, smartgaps: int, rebordered: bool, isnoborder: bool, borderpx: int, bw: nat): nat {
    if hit && smartgaps != 0 then 0
    else if !hit && rebordered then BorderWidthFor(isnoborder, borderpx)
    else bw
  }

  function NewFakeNoBorder(hit: bool, rebordered: bool, fake: bool): bool {
    if hit then true else if rebordered then false else fake
  }

  /** `check_hit_no_border` on values; `mon` is the client's monitor. */
  predicate HitNoBorder(tags: bv32, mon: Option<MonView>, cfg: Config) {
    !cfg.renderBorder || AnyRuleHits(tags, cfg.tagRules)
    || (cfg.noBorderWhenSingle != 0 && mon.Some? && mon.value.visibleClients == 1)
  }

  /** `apply_border` on a client's state: only the border width, the
    * fake-no-border flag and the border rectangles change. */
  function BorderSpec(v: ClientView, cfg: Config, s: Snap): (r: Snap)
    requires v.mon.Some?
    ensures r == s.(bw := r.bw, fakeNoBorder := r.fakeNoBorder, decor := r.decor)
    ensures r.decor.clip == s.decor.clip
  {
    if v.p.iskilling || !v.p.mapped then s
    else
      var mv := v.mon.value;
      var hit := HitNoBorder(s.tags, v.mon, cfg);
      var rebordered := !v.p.isfullscreen && Meets(s.tags, mv.selected);
      var bw := NewBorderWidth(hit, cfg.smartgaps, rebordered, v.p.isnoborder, cfg.borderpx, s.bw);
      s.(bw := bw, fakeNoBorder := NewFakeNoBorder(hit, rebordered, s.fakeNoBorder),
         decor := if hit && cfg.smartgaps == 0 then Hidden(s.decor, bw)
                  else Placed(s.decor, CutFrame(s.anim.drawn, mv.m, bw, TiledOrTag(v.p, s.anim)), bw))
  }

  /** What the border shows: a client whose rules turn the border off
    * (smart gaps or not) is marked as drawn without one, and unless smart
    * gaps are off it loses its width; a visible client that is not
    * fullscreen and has no such rule gets its configured width back and
    * the rectangles cut from its drawn rectangle; the surface always sits
    * at (`bw`, `bw`). */
  lemma BorderFollowsRules(v: ClientView, cfg: Config, s: Snap)
    requires v.mon.Some? && !v.p.iskilling && v.p.mapped
    ensures var r := BorderSpec(v, cfg, s);
            var hit := HitNoBorder(s.tags, v.mon, cfg);
            (hit ==> r.fakeNoBorder)
            && (hit && cfg.smartgaps != 0 ==> r.bw == 0)
            && (hit && cfg.smartgaps == 0 ==> r.bw == s.bw && r.decor.top.width == 0 && r.decor.left.height == 0)
            && (!hit && !v.p.isfullscreen && Meets(s.tags, v.mon.value.selected) ==>
                  !r.fakeNoBorder && r.bw == BorderWidthFor(v.p.isnoborder, cfg.borderpx))
            && (!(hit && cfg.smartgaps == 0) ==>
                  var f := CutFrame(s.anim.drawn, v.mon.value.m, r.bw, TiledOrTag(v.p, s.anim));
                  r.decor.top == f.top && r.decor.bottom == f.bottom && r.decor.left == f.left && r.decor.right == f.right)
            && r.decor.surfaceX == r.bw && r.decor.surfaceY == r.bw
  {
  }

  /** Applying the border twice is applying it once: the second pass sees
    * the same rules and visibility and recomputes the same rectangles. */
  lemma BorderIdempotent(v: ClientView, cfg: Config, s: Snap)
    requires v.mon.Some?
    ensures BorderSpec(v, cfg, BorderSpec(v, cfg, s)) == BorderSpec(v, cfg, s)
  {
  }

  /** `apply_border`: the no-border cases, then the four rectangles and
    * the surface offset inside them.  Without smart gaps a no-border
    * client keeps its border width and gets empty rectangles. */
  method ApplyBorder(c: Client, cfg: Config)
    requires c.mon != null
    modifies c`bw, c`fakeNoBorder, c`decor
    ensures c.Snapshot() == BorderSpec(old(c.ViewOf()), cfg, old(c.Snapshot()))
  {
    if c.props.iskilling || !c.props.mapped {
      return;
    }
    var hit := CheckHitNoBorder(c, cfg);
    var rebordered := Rebordered(c);
    Decorate(c, hit, rebordered, cfg);
  }

  /** `VISIBLEON(c, c->mon)`. */
  method IsVisible(c: Client) returns (b: bool)
    ensures b == c.VisibleOn(c.mon)
  {
    b := c.VisibleOn(c.mon);
  }

  /** Whether `apply_border` gives the window its border back: it is not
    * fullscreen and is visible on its monitor. */
  method Rebordered(c: Client) returns (b: bool)
    ensures b == (!c.props.isfullscreen && c.VisibleOn(c.mon))
  {
    b := !c.props.isfullscreen && c.VisibleOn(c.mon);
  }

  /** `apply_border` once the no-border test and the visibility are known. */
  method Decorate(c: Client, hit: bool, rebordered: bool, cfg: Config)
    requires c.mon != null
    modifies c`bw, c`fakeNoBorder, c`decor
    ensures c.bw == NewBorderWidth(hit, cfg.smartgaps, rebordered, c.props.isnoborder, cfg.borderpx, old(c.bw))
            && c.fakeNoBorder == NewFakeNoBorder(hit, rebordered, old(c.fakeNoBorder))
            && c.decor == if hit && cfg.smartgaps == 0 then Hidden(old(c.decor), c.bw)
                          else Placed(old(c.decor), CutFrame(c.anim.drawn, c.mon.m, c.bw, c.TiledOrTagAnimating()), c.bw)
  {
    SetBorderWidth(c, hit, rebordered, cfg);
    if hit && cfg.smartgaps == 0 {
      c.decor := Hidden(c.decor, c.bw);
    } else {
      PlaceBorder(c);
    }
  }

  /** The border-width half of `apply_border`: a no-border hit with smart
    * gaps drops the border, a hit without them only marks the border as
    * faked, and a window shown again gets its configured width back. */
  method SetBorderWidth(c: Client, hit: bool, rebordered: bool, cfg: Config)
    modifies c`bw, c`fakeNoBorder
    ensures c.bw == NewBorderWidth(hit, cfg.smartgaps, rebordered, c.props.isnoborder, cfg.borderpx, old(c.bw))
    ensures c.fakeNoBorder == NewFakeNoBorder(hit, rebordered, old(c.fakeNoBorder))
  {
    if hit {
      if cfg.smartgaps != 0 {
        c.bw := 0;
      }
      c.fakeNoBorder := true;
    } else if rebordered {
      c.bw := BorderWidthFor(c.props.isnoborder, cfg.borderpx);
      c.fakeNoBorder := false;
    }
  }

  /** The clip box after `clip_to_hide`, with the offsets it reports: the
    * part of the drawn rectangle `g` past the monitor's left or top edge is
    * cut from the clip (the border width is not cut), a part past the right
    * or bottom edge shortens it, and the result is capped at the drawn
    * size.  Windows that are neither tiled nor tag-animating
    * (`cut` false) keep their clip. */
  datatype ClipResult = ClipResult(clip: Box, offsetX: int, offsetY: int)

  function ClipCut(g: Box, mon: Box, bw: int, clip: Box): (r: ClipResult)
    ensures r.offsetX >= 0 && r.offsetY >= 0
  {
    var ox := if g.x < mon.x then GeZero(mon.x - bw - g.x) else 0;
    var oy := if g.y < mon.y then GeZero(mon.y - bw - g.y) else 0;
    var w := if g.x < mon.x then clip.width - ox
             else if g.x + g.width > mon.x + mon.width then clip.width - (g.x + g.width - mon.x - mon.width)
             else clip.width;
    var h := if g.y < mon.y then clip.height - oy
             else if g.y + g.height > mon.y + mon.height then clip.height - (g.y + g.height - mon.y - mon.height)
             else clip.height;
    ClipResult(Box(clip.x + ox, clip.y + oy, w, h), ox, oy)
  }

  /** The cap at the drawn size. */
  function CapClip(k: Box, g: Box): (r: Box)
    ensures r.width <= g.width && r.height <= g.height
    ensures r.x == k.x && r.y == k.y
  {
    k.(width := Min(k.width, g.width), height := Min(k.height, g.height))
  }

  /** The whole of `clip_to_hide`'s result. */
  function ClipToHideSpec(g: Box, mon: Box, bw: int, clip: Box, cut: bool): ClipResult {
    if !cut then ClipResult(clip, 0, 0)
    else var k := ClipCut(g, mon, bw, clip); ClipResult(CapClip(k.clip, g), k.offsetX, k.offsetY)
  }

  /** A window inside the monitor keeps its clip, capped at its drawn
    * size, with no offset. */
  lemma ClipInsideKeepsClip(g: Box, mon: Box, bw: int, clip: Box)
    requires mon.x <= g.x && mon.y <= g.y && g.x + g.width <= mon.x + mon.width && g.y + g.height <= mon.y + mon.height
    ensures ClipToHideSpec(g, mon, bw, clip, true) == ClipResult(CapClip(clip, g), 0, 0)
  {
  }

  /** A window wholly right of the monitor, whose clip is no wider than
    * the window less its border, ends with a negative clip width: it is
    * the case that hides the window. */
  lemma ClipRightOfMonitorIsNegative(g: Box, mon: Box, bw: nat, clip: Box)
    requires mon.x <= g.x && g.x > mon.x + mon.width && clip.width <= g.width - bw
    ensures ClipToHideSpec(g, mon, bw, clip, true).clip.width < 0
  {
  }

  /** What `clip_to_hide` does to the hide flag and the scene node of a
    * client: a tiled or tag-animating window whose cut clip became
    * negative is hidden, a hidden one visible on its monitor is shown
    * again, and nothing else changes. */
  function ClipHideSpec(v: ClientView, start: Box, s: Snap): (r: Snap)
    requires v.mon.Some?
    ensures r == s.(isClipToHide := r.isClipToHide, scene := s.scene.(enabled := r.scene.enabled))
  {
    if !TiledOrTag(v.p, s.anim) then s
    else
      var k := ClipCut(s.anim.drawn, v.mon.value.m, s.bw, start).clip;
      if (k.width < 0 || k.height < 0) && (Tiled(v.p, s.anim) || s.anim.tagouting || s.anim.tagining) then
        s.(isClipToHide := true, scene := s.scene.(enabled := false))
      else if s.isClipToHide && Meets(s.tags, v.mon.value.selected) then
        s.(isClipToHide := false, scene := s.scene.(enabled := true))
      else s
  }

  /** A tiled window drawn wholly right of its monitor, whose clip is no
    * wider than the window less its border, is hidden. */
  lemma ClipHidesRightOfMonitor(v: ClientView, start: Box, s: Snap)
    requires v.mon.Some? && Tiled(v.p, s.anim)
    requires var g := s.anim.drawn; var m := v.mon.value.m;
             m.x <= g.x && g.x > m.x + m.width && start.width <= g.width - s.bw
    ensures ClipHideSpec(v, start, s).isClipToHide && !ClipHideSpec(v, start, s).scene.enabled
  {
    ClipRightOfMonitorIsNegative(s.anim.drawn, v.mon.value.m, s.bw, start);
  }

  /** A hidden tiled window drawn inside its monitor, with a clip of
    * non-negative size, is shown again once it is on a selected tag. */
  lemma ClipShowsInsideMonitor(v: ClientView, start: Box, s: Snap)
    requires v.mon.Some? && Tiled(v.p, s.anim) && s.isClipToHide && Meets(s.tags, v.mon.value.selected)
    requires var g := s.anim.drawn; var m := v.mon.value.m;
             m.x <= g.x && m.y <= g.y && g.x + g.width <= m.x + m.width && g.y + g.height <= m.y + m.height
    requires start.width >= 0 && start.height >= 0
    ensures !ClipHideSpec(v, start, s).isClipToHide && ClipHideSpec(v, start, s).scene.enabled
  {
  }

  /** The common tail of `client_apply_clip` on a client's state: hide or
    * show by the clip, redo the border, and store the capped clip unless it
    * is empty. */
  function ClipSpec(v: ClientView, cfg: Config, start: Box, s: Snap): (r: Snap)
    requires v.mon.Some?
    ensures r == s.(isClipToHide := r.isClipToHide, scene := s.scene.(enabled := r.scene.enabled),
                    bw := r.bw, fakeNoBorder := r.fakeNoBorder, decor := r.decor)
  {
    var k := ClipToHideSpec(s.anim.drawn, v.mon.value.m, s.bw, start, TiledOrTag(v.p, s.anim)).clip;
    var b := BorderSpec(v, cfg, ClipHideSpec(v, start, s));
    if k.width <= 0 || k.height <= 0 then b else b.(decor := b.decor.(clip := k))
  }

  /** The stored clip is never larger than the drawn rectangle of a cut
    * window, and a window inside the monitor keeps its capped clip. */
  lemma ClipStoredFits(v: ClientView, cfg: Config, start: Box, s: Snap)
    requires v.mon.Some? && TiledOrTag(v.p, s.anim)
    ensures var r := ClipSpec(v, cfg, start, s);
            r.decor.clip == s.decor.clip
            || (r.decor.clip.width <= s.anim.drawn.width && r.decor.clip.height <= s.anim.drawn.height
                && 0 < r.decor.clip.width && 0 < r.decor.clip.height)
  {
  }

  /** The settling of `client_apply_clip` with animations off, on values. */
  function SettledSnap(s: Snap): (r: Snap)
    ensures !r.anim.running && !r.needOutputFlush && r.anim.drawn == s.geom
    ensures r.animainitGeom == s.geom && r.current == s.geom && r.pending == s.geom
  {
    s.(anim := s.anim.(running := false, drawn := s.geom), needOutputFlush := false,
       animainitGeom := s.geom, current := s.geom, pending := s.geom)
  }

  /** `client_apply_clip` on a client's state. With animations off the
    * window settles on its layout rectangle first; with them on the
    * animation is left alone; the position of the node never changes. */
  function ApplyClipSpec(v: ClientView, cfg: Config, s: Snap): (r: Snap)
    requires v.mon.Some?
    ensures r.scene.x == s.scene.x && r.scene.y == s.scene.y && r.scene.suspended == s.scene.suspended
    ensures r.geom == s.geom && r.tags == s.tags && r.isOpenAnimation == s.isOpenAnimation
    ensures !v.p.iskilling && v.p.mapped && cfg.animations == 0 ==>
              r.anim == s.anim.(running := false, drawn := s.geom) && !r.needOutputFlush
              && r.animainitGeom == s.geom && r.current == s.geom && r.pending == s.geom
    ensures v.p.iskilling || !v.p.mapped || cfg.animations != 0 ==>
              r.anim == s.anim && r.needOutputFlush == s.needOutputFlush
              && r.animainitGeom == s.animainitGeom && r.current == s.current && r.pending == s.pending
  {
    if v.p.iskilling || !v.p.mapped then s
    else if cfg.animations == 0 then ClipSpec(v, cfg, v.surfaceClip, SettledSnap(s))
    else ClipSpec(v, cfg, AnimatedClip(s.anim.drawn, s.bw, v.surfaceGeom, v.isX11), s)
  }

  /** The edge cuts of `clip_to_hide` on plain values. */
  method CutClip(g: Box, mon: Box, bw: int, clip: Box) returns (r: ClipResult)
    ensures r == ClipCut(g, mon, bw, clip)
  {
    var offsetx, offsety := 0, 0;
    var box := clip;
    if g.x < mon.x {
      offsetx := mon.x - bw - g.x;
      offsetx := if offsetx < 0 then 0 else offsetx;
      box := box.(x := box.x + offsetx, width := box.width - offsetx);
    } else if g.x + g.width > mon.x + mon.width {
      box := box.(width := box.width - (g.x + g.width - mon.x - mon.width));
    }
    if g.y < mon.y {
      offsety := mon.y - bw - g.y;
      offsety := if offsety < 0 then 0 else offsety;
      box := box.(y := box.y + offsety, height := box.height - offsety);
    } else if g.y + g.height > mon.y + mon.height {
      box := box.(height := box.height - (g.y + g.height - mon.y - mon.height));
    }
    r := ClipResult(box, offsetx, offsety);
  }

  /** Hides the window when its clip became empty (`hides`), shows a
    * window hidden earlier once it is visible (`visible`), and leaves it
    * alone otherwise. */
  method SetClipHidden(c: Client, hides: bool, visible: bool)
    modifies c`isClipToHide, c`scene
    ensures hides ==> c.isClipToHide && c.scene == old(c.scene).(enabled := false)
    ensures !hides && old(c.isClipToHide) && visible ==> !c.isClipToHide && c.scene == old(c.scene).(enabled := true)
    ensures !hides && !(old(c.isClipToHide) && visible) ==> unchanged(c)
  {
    if hides {
      c.isClipToHide := true;
      c.scene := c.scene.(enabled := false);
    } else if c.isClipToHide && visible {
      c.isClipToHide := false;
      c.scene := c.scene.(enabled := true);
    }
  }

  /** `clip_to_hide`: computes the clip and offsets, hides a tiled or
    * tag-animating window whose clip became empty past an edge, and shows
    * again a hidden one that is visible on its monitor. */
  method ClipToHide(c: Client, clip: Box) returns (r: ClipResult)
    requires c.mon != null
    modifies c`isClipToHide, c`scene
    ensures r == old(ClipToHideSpec(c.anim.drawn, c.mon.m, c.bw, clip, c.TiledOrTagAnimating()))
    ensures c.Snapshot() == ClipHideSpec(old(c.ViewOf()), clip, old(c.Snapshot()))
  {
    var g := c.anim.drawn;
    if !c.TiledOrTagAnimating() {
      return ClipResult(clip, 0, 0);
    }
    var k := CutClip(g, c.mon.m, c.bw, clip);
    var hides := (k.clip.width < 0 || k.clip.height < 0) && (c.IsTiled() || c.anim.tagouting || c.anim.tagining);
    var visible := IsVisible(c);
    SetClipHidden(c, hides, visible);
    var box := k.clip;
    if box.width > g.width {
      box := box.(width := g.width);
    }
    if box.height > g.height {
      box := box.(height := g.height);
    }
    r := ClipResult(box, k.offsetX, k.offsetY);
  }

  /** The clip box `client_apply_clip` starts from while animating: the
    * surface geometry's position (0,0 for X11 clients) and the drawn size
    * less the border width, computed as `unsigned int`. */
  function AnimatedClip(drawn: Box, bw: int, surfaceGeom: Box, isX11: bool): (k: Box)
    ensures 0 <= drawn.width - bw < TWO_31 ==> k.width == drawn.width - bw
    ensures 0 <= drawn.height - bw < TWO_31 ==> k.height == drawn.height - bw
  {
    Box(if isX11 then 0 else surfaceGeom.x, if isX11 then 0 else surfaceGeom.y,
        I32(U32(drawn.width - bw)), I32(U32(drawn.height - bw)))
  }

  /** The settling `client_apply_clip` does when animations are off:
    * nothing animates and every rectangle is the layout rectangle. */
  method Settle(c: Client)
    modifies c`anim, c`needOutputFlush, c`animainitGeom, c`current, c`pending
    ensures c.anim == old(c.anim).(running := false, drawn := c.geom) && !c.needOutputFlush
    ensures c.animainitGeom == c.geom && c.current == c.geom && c.pending == c.geom
    ensures c.Snapshot() == SettledSnap(old(c.Snapshot()))
  {
    c.anim := c.anim.(running := false, drawn := c.geom);
    c.needOutputFlush := false;
    c.animainitGeom, c.current, c.pending := c.geom, c.geom, c.geom;
  }

  /** The common tail of `client_apply_clip`: hide or clip the window,
    * lay out its border, and store the clip unless it is empty. */
  method ClipAndBorder(c: Client, cfg: Config, start: Box)
    requires c.mon != null && !c.props.iskilling && c.props.mapped
    modifies c`isClipToHide, c`scene, c`bw, c`fakeNoBorder, c`decor
    ensures c.Snapshot() == ClipSpec(old(c.ViewOf()), cfg, start, old(c.Snapshot()))
  {
    var r := ClipToHide(c, start);
    ApplyBorder(c, cfg);
    if r.clip.width <= 0 || r.clip.height <= 0 {
      return;
    }
    c.decor := c.decor.(clip := r.clip);
  }

  /** `client_apply_clip`: the clip starts from what `client_get_clip`
    * reports when animations are off and from the drawn size otherwise;
    * the buffer scaling effect is not modelled.  The clip is stored only
    * when it is not empty. */
  method ApplyClip(c: Client, cfg: Config)
    requires c.mon != null
    modifies c`anim, c`needOutputFlush, c`animainitGeom, c`current, c`pending
    modifies c`isClipToHide, c`scene, c`bw, c`fakeNoBorder, c`decor
    ensures c.props.iskilling || !c.props.mapped ==> unchanged(c)
    ensures c.Snapshot() == ApplyClipSpec(old(c.ViewOf()), cfg, old(c.Snapshot()))
  {
    if c.props.iskilling || !c.props.mapped {
      return;
    }
    ghost var v := c.ViewOf();
    if cfg.animations == 0 {
      Settle(c);
      assert c.ViewOf() == v;
      ClipAndBorder(c, cfg, c.surfaceClip);
    } else {
      ClipAndBorder(c, cfg, AnimatedClip(c.anim.drawn, c.bw, c.surfaceGeom, c.isX11));
    }
  }
}
