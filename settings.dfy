/** The configuration values the window-management core reads, and the
  * clamping `override_config` applies when it copies the parsed
  * configuration into the running compositor. */
module Settings {
  import opened CNum
  import opened Curve

  /** `CLAMP_INT`: both bounds and the value are first converted to `int`. */
  function ClampInt(x: int, lo: int, hi: int): (r: int)
    requires InI32(lo) && InI32(hi) && lo <= hi
    ensures lo <= r <= hi
    ensures lo <= I32(x) <= hi ==> r == I32(x)
    ensures I32(x) < lo ==> r == lo
    ensures I32(x) > hi ==> r == hi
  {
    var v := I32(x);
    if v < lo then lo else if v > hi then hi else v
  }

  /** `CLAMP_FLOAT`. */
  function ClampReal(x: real, lo: real, hi: real): (r: real)
    requires lo <= hi
    ensures lo <= r <= hi
    ensures lo <= x <= hi ==> r == x
    ensures x < lo ==> r == lo
    ensures x > hi ==> r == hi
  {
    if x < lo then lo else if x > hi then hi else x
  }

  /** A tag rule's border setting: rule `id` (1-based tag) with
    * `no_render_border`. */
  datatype TagRule = TagRule(id: int, noRenderBorder: bool)

  const VERTICAL: int := 0
  const HORIZONTAL: int := 1

  /** The configuration values the core uses.  Integer switches keep the C
    * convention: nonzero means on. */
  datatype Config = Config(
    animations: int,
    tagAnimationDirection: int,
    animationFadeIn: int,
    animationFadeOut: int,
    zoomInitialRatio: real,
    fadeinBeginOpacity: real,
    fadeoutBeginOpacity: real,
    animationTypeOpen: string,
    animationTypeClose: string,
    durationMove: int,
    durationOpen: int,
    durationTag: int,
    durationClose: int,
    curves: Curves,
    scrollerDefaultProportion: real,
    scrollerDefaultProportionSingle: real,
    scrollerFocusCenter: int,
    scrollerPreferCenter: int,
    scrollerStructs: int,
    defaultMfact: real,
    defaultSmfact: real,
    defaultNmaster: int,
    newIsMaster: int,
    overviewgappi: int,
    overviewgappo: int,
    focusCrossMonitor: int,
    enableFloatingSnap: int,
    snapDistance: int,
    noBorderWhenSingle: int,
    swipeMinThreshold: int,
    gappih: int,
    gappiv: int,
    gappoh: int,
    gappov: int,
    borderpx: int,
    smartgaps: int,
    // copied without clamping
    tagRules: seq<TagRule>,
    proportionPresets: seq<real>,
    circleLayout: seq<string>,
    // runtime switches that are not read from the file
    renderBorder: bool,
    enablegaps: bool)

  /** `override_config`, restricted to the values above. */
  function Override(c: Config): (r: Config)
    ensures r.animations == ClampInt(c.animations, 0, 1)
    ensures Clamped(r)
    ensures r.tagRules == c.tagRules && r.proportionPresets == c.proportionPresets
    ensures r.circleLayout == c.circleLayout && r.curves == c.curves
    ensures r.animationTypeOpen == c.animationTypeOpen && r.animationTypeClose == c.animationTypeClose
  {
    c.(
      animations := ClampInt(c.animations, 0, 1),
      tagAnimationDirection := ClampInt(c.tagAnimationDirection, 0, 1),
      animationFadeIn := ClampInt(c.animationFadeIn, 0, 1),
      animationFadeOut := ClampInt(c.animationFadeOut, 0, 1),
      zoomInitialRatio := ClampReal(c.zoomInitialRatio, 0.1, 1.0),
      fadeinBeginOpacity := ClampReal(c.fadeinBeginOpacity, 0.0, 1.0),
      fadeoutBeginOpacity := ClampReal(c.fadeoutBeginOpacity, 0.0, 1.0),
      durationMove := ClampInt(c.durationMove, 1, 50000),
      durationOpen := ClampInt(c.durationOpen, 1, 50000),
      durationTag := ClampInt(c.durationTag, 1, 50000),
      durationClose := ClampInt(c.durationClose, 1, 50000),
      scrollerDefaultProportion := ClampReal(c.scrollerDefaultProportion, 0.1, 1.0),
      scrollerDefaultProportionSingle := ClampReal(c.scrollerDefaultProportionSingle, 0.1, 1.0),
      scrollerFocusCenter := ClampInt(c.scrollerFocusCenter, 0, 1),
      scrollerPreferCenter := ClampInt(c.scrollerPreferCenter, 0, 1),
      scrollerStructs := ClampInt(c.scrollerStructs, 0, 1000),
      defaultMfact := ClampReal(c.defaultMfact, 0.1, 0.9),
      defaultSmfact := ClampReal(c.defaultSmfact, 0.1, 0.9),
      defaultNmaster := ClampInt(c.defaultNmaster, 1, 1000),
      newIsMaster := ClampInt(c.newIsMaster, 0, 1),
      overviewgappi := ClampInt(c.overviewgappi, 0, 1000),
      overviewgappo := ClampInt(c.overviewgappo, 0, 1000),
      focusCrossMonitor := ClampInt(c.focusCrossMonitor, 0, 1),
      enableFloatingSnap := ClampInt(c.enableFloatingSnap, 0, 1),
      snapDistance := ClampInt(c.snapDistance, 0, 99999),
      noBorderWhenSingle := ClampInt(c.noBorderWhenSingle, 0, 1),
      swipeMinThreshold := ClampInt(c.swipeMinThreshold, 1, 1000),
      gappih := ClampInt(c.gappih, 0, 1000),
      gappiv := ClampInt(c.gappiv, 0, 1000),
      gappoh := ClampInt(c.gappoh, 0, 1000),
      gappov := ClampInt(c.gappov, 0, 1000),
      borderpx := ClampInt(c.borderpx, 0, 200),
      smartgaps := ClampInt(c.smartgaps, 0, 1))
  }

  /** Every value `override_config` clamps lies in its documented range. */
  ghost predicate Clamped(c: Config) {
    0 <= c.animations <= 1 && 0 <= c.tagAnimationDirection <= 1
    && 0 <= c.animationFadeIn <= 1 && 0 <= c.animationFadeOut <= 1
    && 0.1 <= c.zoomInitialRatio <= 1.0
    && 0.0 <= c.fadeinBeginOpacity <= 1.0 && 0.0 <= c.fadeoutBeginOpacity <= 1.0
    && 1 <= c.durationMove <= 50000 && 1 <= c.durationOpen <= 50000
    && 1 <= c.durationTag <= 50000 && 1 <= c.durationClose <= 50000
    && 0.1 <= c.scrollerDefaultProportion <= 1.0
    && 0.1 <= c.scrollerDefaultProportionSingle <= 1.0
    && 0 <= c.scrollerFocusCenter <= 1 && 0 <= c.scrollerPreferCenter <= 1
    && 0 <= c.scrollerStructs <= 1000
    && 0.1 <= c.defaultMfact <= 0.9 && 0.1 <= c.defaultSmfact <= 0.9
    && 1 <= c.defaultNmaster <= 1000 && 0 <= c.newIsMaster <= 1
    && 0 <= c.overviewgappi <= 1000 && 0 <= c.overviewgappo <= 1000
    && 0 <= c.focusCrossMonitor <= 1 && 0 <= c.enableFloatingSnap <= 1
    && 0 <= c.snapDistance <= 99999 && 0 <= c.noBorderWhenSingle <= 1
    && 1 <= c.swipeMinThreshold <= 1000
    && 0 <= c.gappih <= 1000 && 0 <= c.gappiv <= 1000
    && 0 <= c.gappoh <= 1000 && 0 <= c.gappov <= 1000
    && 0 <= c.borderpx <= 200 && 0 <= c.smartgaps <= 1
  }

  /** Applying the clamps a second time changes nothing. */
  lemma OverrideIdempotent(c: Config)
    ensures Override(Override(c)) == Override(c)
  {
  }

  /** In-range values pass through `override_config` unchanged. */
  lemma OverrideKeepsClamped(c: Config)
    requires Clamped(c)
    ensures Override(c) == c
  {
  }
}
