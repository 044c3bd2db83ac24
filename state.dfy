/** The compositor's mutable objects: clients (toplevel windows) and
  * monitors, with the fields the window-management core reads and
  * updates. */
module State {
  import opened CNum
  import opened Opt
  import opened Geometry
  import opened Curve

  /** LENGTH(tags): the tag count the configuration defines. */
  const TAG_COUNT: nat := 9
  /** TAGMASK = (1 << LENGTH(tags)) - 1. */
  const TAGMASK: bv32 := 0x1FF
  /** The all-ones tag argument (`~0`), which selects every tag (overview). */
  const ALL_TAGS: bv32 := 0xFFFF_FFFF

  /** Window properties the core reads but does not change. */
  datatype Props = Props(
    isfloating: bool,
    isfullscreen: bool,
    ismaxmizescreen: bool,
    isminied: bool,
    iskilling: bool,
    isunglobal: bool,
    isglobal: bool,
    isnoborder: bool,
    ignoreFocus: bool,        // client_should_ignore_focus
    unmanaged: bool,          // client_is_unmanaged
    mapped: bool,             // client_surface(c)->mapped
    nofadein: bool,
    nofadeout: bool,
    noForceCenter: bool,
    isurgent: bool,
    animationTypeOpen: Option<string>,
    animationTypeClose: Option<string>)

  const NoProps := Props(false, false, false, false, false, false, false, false, false, false,
                         false, false, false, false, false, None, None)

  /** `struct dwl_animation`.  `drawn` is the rectangle currently shown on
    * screen (the source calls it `animation.current`). */
  datatype Anim = Anim(
    shouldAnimate: bool,
    running: bool,
    tagining: bool,
    tagouted: bool,
    tagouting: bool,
    beginFadeIn: bool,
    fromRule: bool,
    totalFrames: nat,
    passedFrames: nat,
    duration: nat,
    initial: Box,
    drawn: Box,
    action: Action)

  /** The client's scene node: enabled flag, position and whether the
    * surface was told it is suspended. */
  datatype Scene = Scene(enabled: bool, x: int, y: int, suspended: bool)

  /** One border rectangle: its position inside the window and its size. */
  datatype Rect = Rect(x: int, y: int, width: int, height: int)

  /** The four border rectangles (top, bottom, left, right), the offset of
    * the surface inside them and the surface clip. */
  datatype Decor = Decor(surfaceX: int, surfaceY: int, top: Rect, bottom: Rect, left: Rect, right: Rect, clip: Box)

  /** What a layout's `arrange` pointer names. */
  datatype ArrangeKind = TileLayout | ScrollerLayout | GridLayout | MonocleLayout
                       | DeckLayout | DwindleLayout | SpiralLayout | NoArrange

  /** An entry of the configured layout table. */
  datatype Layout = Layout(symbol: string, arrange: ArrangeKind, name: string)

  /** ISTILED, on the values it reads. */
  predicate Tiled(p: Props, a: Anim) {
    !p.isfloating && !p.isminied && !p.iskilling && !p.ignoreFocus
    && !p.isunglobal && !a.tagouting && !p.ismaxmizescreen && !p.isfullscreen
  }

  /** No client appears twice in the list. */
  predicate Distinct(cs: seq<Client>) {
    forall i :: 0 <= i < |cs| ==> cs[i] !in cs[..i]
  }

  /** Two positions of a list without repeats hold different clients. */
  lemma DistinctApart(cs: seq<Client>, i: nat)
    requires Distinct(cs) && i < |cs|
    ensures forall j :: 0 <= j < |cs| && j != i ==> cs[j] != cs[i]
  {
    forall j | 0 <= j < |cs| && j != i
      ensures cs[j] != cs[i]
    {
      if j < i {
        assert cs[..i][j] == cs[j];
      } else {
        assert cs[..j][i] == cs[i];
      }
    }
  }

  /** The two tag masks share a bit. */
  predicate Meets(a: bv32, b: bv32) { a & b != 0 }

  /** ISTILED or in one of the tag-switch animations. */
  predicate TiledOrTag(p: Props, a: Anim) {
    Tiled(p, a) || a.tagining || a.tagouted || a.tagouting
  }

  /** The fields of a client that drawing, clipping, bordering, `resize`
    * and `arrange` update, as one value. */
  datatype Snap = Snap(
    geom: Box,
    pending: Box,
    current: Box,
    animainitGeom: Box,
    anim: Anim,
    bw: nat,
    tags: bv32,
    isOpenAnimation: bool,
    needOutputFlush: bool,
    isClipToHide: bool,
    fakeNoBorder: bool,
    scene: Scene,
    decor: Decor)

  /** What those updates read of the client's monitor: its areas, the
    * selected tags, `visible_clients`, the current layout's name (none
    * when the pertag arrays are malformed) and the pertag tags. */
  datatype MonView = MonView(m: Box, w: Box, selected: bv32, visibleClients: nat, layoutName: Option<string>,
                             prevtag: nat, curtag: nat)

  /** What they read of the client and never change: its properties, its
    * monitor, what the surface reports, and whether it swallows a window
    * or is its own swallower. */
  datatype ClientView = ClientView(p: Props, mon: Option<MonView>, surfaceClip: Box, surfaceGeom: Box, isX11: bool,
                       swallowing: bool, selfSwallowed: bool)

  class Client {
    var props: Props
    var geom: Box             // layout rectangle, border included
    var pending: Box
    var current: Box          // rectangle the running animation moves toward
    var animainitGeom: Box    // start rectangle of the next animation
    var anim: Anim
    var bw: nat
    var tags: bv32
    var mon: Monitor?
    var isOpenAnimation: bool
    var needOutputFlush: bool
    var isClipToHide: bool
    var fakeNoBorder: bool
    var scrollerProportion: real
    var scene: Scene
    var decor: Decor
    var swallowedby: Client?
    var swallowing: Client?
    // what client.h reports about the surface: client_get_clip,
    // client_get_geometry and client_is_x11
    var surfaceClip: Box
    var surfaceGeom: Box
    var isX11: bool

    /** A zero-filled client (`ecalloc`), as the fade-out ghost starts. */
    constructor Blank()
      ensures props == NoProps && geom == Box(0, 0, 0, 0) && current == Box(0, 0, 0, 0)
      ensures anim == Anim(false, false, false, false, false, false, false, 0, 0, 0, Box(0, 0, 0, 0), Box(0, 0, 0, 0), NoAction)
      ensures bw == 0 && mon == null && scene == Scene(false, 0, 0, false)
    {
      var z := Box(0, 0, 0, 0);
      props := NoProps;
      geom, pending, current, animainitGeom := z, z, z, z;
      anim := Anim(false, false, false, false, false, false, false, 0, 0, 0, z, z, NoAction);
      bw, tags, mon := 0, 0, null;
      isOpenAnimation, needOutputFlush, isClipToHide, fakeNoBorder := false, false, false, false;
      scrollerProportion := 0.0;
      scene := Scene(false, 0, 0, false);
      decor := Decor(0, 0, Rect(0, 0, 0, 0), Rect(0, 0, 0, 0), Rect(0, 0, 0, 0), Rect(0, 0, 0, 0), z);
      swallowedby, swallowing := null, null;
      surfaceClip, surfaceGeom, isX11 := z, z, false;
    }

    /** ISTILED. */
    predicate IsTiled()
      reads this`props, this`anim
    {
      Tiled(props, anim)
    }

    /** VISIBLEON(c, m). */
    predicate VisibleOn(m: Monitor?)
      reads this`mon, this`tags, {m}`seltags, {m}`tagset0, {m}`tagset1
    {
      m != null && mon == m && Meets(tags, m.SelectedTags())
    }

    /** ISTILED or in one of the tag-switch animations. */
    predicate TiledOrTagAnimating()
      reads this`props, this`anim
    {
      TiledOrTag(props, anim)
    }

    /** The updated fields as one value. */
    function Snapshot(): Snap
      reads this`geom, this`pending, this`current, this`animainitGeom, this`anim, this`bw, this`tags
      reads this`isOpenAnimation, this`needOutputFlush, this`isClipToHide, this`fakeNoBorder, this`scene, this`decor
    {
      Snap(geom, pending, current, animainitGeom, anim, bw, tags,
           isOpenAnimation, needOutputFlush, isClipToHide, fakeNoBorder, scene, decor)
    }

    /** What the updates read and leave alone, monitor included. */
    function ViewOf(): ClientView
      reads this`props, this`mon, this`surfaceClip, this`surfaceGeom, this`isX11, this`swallowing, this`swallowedby
      reads {mon}`m, {mon}`w, {mon}`seltags, {mon}`tagset0, {mon}`tagset1, {mon}`visibleClients
      reads {mon}`curtag, {mon}`prevtag, {mon}`nmasters, {mon}`mfacts, {mon}`smfacts, {mon}`lts
    {
      ClientView(props, if mon == null then None else Some(mon.View()), surfaceClip, surfaceGeom, isX11,
           swallowing != null, swallowedby == this)
    }
  }

  /** The per-monitor tag view (`seltags`, `tagset[2]` and the pertag
    * current/previous tag), as one value. */
  datatype TagView = TagView(seltags: nat, tagset0: bv32, tagset1: bv32, curtag: nat, prevtag: nat)
  {
    function Selected(): bv32 { if seltags == 0 then tagset0 else tagset1 }
  }

  class Monitor {
    var m: Box                // monitor area
    var w: Box                // window area
    var seltags: nat
    var tagset0: bv32
    var tagset1: bv32
    var curtag: nat
    var prevtag: nat
    var nmasters: seq<int>
    var mfacts: seq<real>
    var smfacts: seq<real>
    var lts: seq<Layout>      // pertag->ltidxs
    var nmaster: int
    var mfact: real
    var gappih: int
    var gappiv: int
    var gappoh: int
    var gappov: int
    var isoverview: bool
    var sel: Client?
    var prevsel: Client?
    var visibleClients: nat
    var enabled: bool         // wlr_output->enabled
    var refresh: int          // wlr_output->refresh, in mHz
    var frameScheduled: bool  // wlr_output_schedule_frame was called

    /** tagset[seltags]. */
    function SelectedTags(): bv32
      reads this`seltags, this`tagset0, this`tagset1
    {
      if seltags == 0 then tagset0 else tagset1
    }

    function Tags(): TagView
      reads this`seltags, this`tagset0, this`tagset1, this`curtag, this`prevtag
    {
      TagView(seltags, tagset0, tagset1, curtag, prevtag)
    }

    /** The pertag arrays hold LENGTH(tags) + 1 entries (index 0 is the
      * overview) and `seltags` is 0 or 1. */
    predicate Valid()
      reads this`seltags, this`curtag, this`prevtag, this`nmasters, this`mfacts, this`smfacts, this`lts
    {
      seltags <= 1 && curtag <= TAG_COUNT && prevtag <= TAG_COUNT
      && |nmasters| == TAG_COUNT + 1 && |mfacts| == TAG_COUNT + 1
      && |smfacts| == TAG_COUNT + 1 && |lts| == TAG_COUNT + 1
    }

    /** What a client's updates read of this monitor. */
    function View(): MonView
      reads this`m, this`w, this`seltags, this`tagset0, this`tagset1, this`visibleClients
      reads this`curtag, this`prevtag, this`nmasters, this`mfacts, this`smfacts, this`lts
    {
      MonView(m, w, SelectedTags(), visibleClients, if Valid() then Some(CurrentLayout().name) else None,
              prevtag, curtag)
    }

    /** The view with `n` in place of `visible_clients`. */
    function ViewAt(n: nat): MonView
      reads this`m, this`w, this`seltags, this`tagset0, this`tagset1
      reads this`curtag, this`prevtag, this`nmasters, this`mfacts, this`smfacts, this`lts
    {
      MonView(m, w, SelectedTags(), n, if Valid() then Some(CurrentLayout().name) else None,
              prevtag, curtag)
    }

    /** pertag->ltidxs[pertag->curtag]. */
    function CurrentLayout(): Layout
      requires Valid()
      reads this`seltags, this`curtag, this`prevtag, this`nmasters, this`mfacts, this`smfacts, this`lts
    {
      lts[curtag]
    }
  }
}
