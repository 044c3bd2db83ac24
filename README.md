# maomaowm window-management core in Dafny

maomaowm is a tiling Wayland compositor derived from dwl. This project models
the part of it that decides where windows go and how they move:

- **Animations.** Every window has a cubic Bezier easing curve per animation
  kind, baked into 256-entry tables. Its per-frame animation state machine is
  armed by `resize`, started by `client_commit` and ticked by
  `client_draw_frame`. A closing window leaves a fade-out "ghost" that ticks
  until it is freed.
- **Borders and clipping.** The four border rectangles and the surface clip
  keep tiled and tag-switching windows off neighbouring monitors.
- **Tags.** These are the 9-bit tag masks and per-tag indices of a monitor:
  `view_in_mon`, `viewtoleft`/`viewtoright` and their `_have_client`
  variants, `toggleview`, `toggletag`, `get_tags_first_tag`. The per-tag
  parameter commands are `incnmaster`, `setgaps`, `setmfact`/`setsmfact`,
  `switch_layout` and `switch_proportion_preset`.
- **The `arrange` pass.** It shows, hides and slides windows on a tag switch.
  The layouts it calls are `tile`, `monocle`, `deck`, `grid`, `scroller` and
  `fibonacci` (behind `spiral` and `dwindle`). Each layout is modelled as the
  ordered list of resize requests it makes.
- **Placement helpers.**
  - `setclient_coordinate_center` places floating windows.
  - `center_select` and `find_client_by_direction` pick a window.
  - `apply_window_snap` snaps floating windows to nearby edges.
  - `exchange_two_client` swaps two windows on the doubly linked client list.
  - `get_layout_abbr` abbreviates layout names.
  - `ongesture` handles touchpad swipes.
  - `rendermon` is the per-output frame handler.
- **The configuration value parsers.** `trim_whitespace`, `sanitize_string`,
  `parse_double_array`, `parse_direction`, `parse_circle_direction`,
  `parse_color`, `parse_mod`, `parse_num_type`, and the clamping that
  `override_config` applies.
- **Protocol state.**
  - The ext-workspace-v1 server side: groups, workspaces, committed and
    pending state bits, the idle "done" flush, and per-session transaction
    queues with their reference-counted addons (`transaction.c`).
  - The tag workspace switcher built on ext-workspace-v1.
  - The state side of the dwl-ipc-unstable-v2 output object: status tags,
    `set_tags`, `set_client_tags`, `set_layout`.

How the C code maps to Dafny:

- Code that mutates objects in place becomes classes with `modifies` frames:
  clients, monitors, the client list links, the animation driver, the
  ext-workspace manager and the transaction contexts.
- Each method is proved against a function of the old state.
- Pure computations are functions.
- The layouts are loops over value snapshots of the windows. They produce the
  requests and the geometry `resize` settles on.

C numeric semantics are written out wherever the source relies on them:

- `unsigned int` wrap-around (`CNum.U32`);
- two's-complement stores (`CNum.I32`);
- truncating double-to-integer conversions (`CNum.Trunc`, `CNum.RealToU32`);
- `round()`;
- truncating signed division (`CNum.CDiv`);
- the NaN and +inf doubles of a division by zero (`CNum.Ratio`).

Floating point values are exact rationals.

Constants:

- `LENGTH(tags)` is 9, so `TAGMASK` is `0x1FF`.
- wlroots modifier bits: SHIFT=1, CAPS=2, CTRL=4, ALT=8, LOGO=64.
- ext-workspace-v1 state bits: ACTIVE=1, URGENT=2, HIDDEN=4.

The configuration header `config.h` is not part of this model, so the tag
count, the layout table and the abbreviation table are parameters or
constants.

## Model

| member | source | states |
|---|---|---|
| Curve.CurveAt | src/maomao.c:824-846 | At t = 0 the curve is at (0,0) and at t = 1 at (1,1) |
| Curve.CurveAtBounded | src/maomao.c:824-846 | For t in [0,1] and control points in [0,1], the x coordinate stays in [0,1] |
| Curve.CurveCoordinateBounded | src/maomao.c:824-846 | One coordinate of the cubic stays in [0,1] when its control values do |
| Curve.BakedTables.constructor | src/maomao.c:848-871 | `init_baked_points`: every table has 256 entries, entry i being the curve of its kind at i/255 |
| Curve.Bake | src/maomao.c:848-871 | One baked table: entry i is the curve at i/255, for all 256 entries |
| Curve.BakedXBounded | src/maomao.c:848-871 | Every x of a baked table lies in [0,1] and the last entry is exactly (1,1) |
| Curve.BakedTables.TableFor | src/maomao.c:873-900 | The table an animation kind reads; every other kind falls back to the move table |
| Curve.BakedTables.TableForIsBaked | src/maomao.c:873-900 | The table looked up is the baked table of the kind's curve |
| Curve.BakedTables.FindAnimationCurveAt | src/maomao.c:873-900 | The bisection loop returns the y of entry `LookupIndex(table, t)` |
| Curve.Bisect | src/maomao.c:881-899 | The narrowing answers an index in (down, up] |
| Curve.BisectKeepsBracket | src/maomao.c:881-899 | Every bisection step keeps the entry at `down` at or below t and the one at `up` above it (or the table end) |
| Curve.LookupIndex | src/maomao.c:873-900 | The answered index is a valid entry after the first one |
| Curve.LookupBrackets | src/maomao.c:873-900 | The answer brackets t: the entry before it has x <= t (or is the first one), it has x > t (or is the last one) |
| Curve.FirstAbove | src/maomao.c:873-900 | Reference search: the first entry after entry 0 whose x exceeds t, else the last one |
| Curve.FirstAboveIsBracketed | src/maomao.c:873-900 | On a sorted table, any index bracketing t at or after the start is the reference answer |
| Curve.LookupIsFirstAbove | src/maomao.c:873-900 | On a table sorted by x the bisection and the linear reference search agree on every t |
| Curve.LookupAtOrPastEnd | src/maomao.c:873-900 | When no x exceeds t the lookup answers the last entry |
| Curve.LookupAtEndIsOne | src/maomao.c:873-900 | Progress 1.0 and +inf are eased to exactly 1 on a baked curve |
| Curve.LookupNaN | src/maomao.c:873-900 | A NaN progress fails every comparison and lands on entry 1 |
| CNum.RatioIsOneIff | src/maomao.c:1013-1014 | `passed_frames / total_frames == 1.0` exactly when the total is nonzero and equal to the passed count |
| CNum.I32OfU32 | src/maomao.c:1023-1033 | An `int` coordinate that passes through `unsigned int` comes back unchanged, negative values included |
| Animation.CoordIsTrunc | src/maomao.c:1023-1033 | The interpolated coordinate stored via `unsigned int` into an `int` field is the truncated real value whenever that fits an `int` |
| Animation.Coord | src/maomao.c:1023-1033 | One drawn coordinate `a + (b - a) * f` passed through `unsigned int` into `int`; it is the truncated value whenever that fits (CoordIsTrunc), `a` at 0 and `b` at 1 (CoordAtZero, CoordAtOne) |
| CNum.U32 | src/layout/layout.h:460-466 | The `unsigned int` that receives v: in [0, 2^32), v itself when it fits, and congruent to v modulo 2^32 |
| CNum.I32 | src/maomao.c:1023-1033 | The `int` that receives v: within int's range, v itself when it fits, and congruent to v modulo 2^32 |
| CNum.Trunc | src/maomao.c:1023-1033 | A double converted to an integer loses its fraction toward zero |
| CNum.RealToU32 | src/maomao.c:1023-1033 | A double stored in an `unsigned int` lies in [0, 2^32) and is the truncated value whenever that fits |
| CNum.Round | src/layout/layout.h:264 | `round`: within one half of the value, halfway cases away from zero |
| CNum.CDiv | src/maomao.c:5386 | Integer division truncating toward zero; for a non-negative dividend it is the Euclidean quotient |
| CNum.Ratio | src/maomao.c:956 | `(double)a / b` on unsigned operands: the exact quotient, NaN for 0/0 and +inf for a nonzero value over 0 |
| CNum.Max | src/maomao.c:91 | `MAX`: one of the two, at least both |
| CNum.Min | src/maomao.c:92 | `MIN`: one of the two, at most both |
| CNum.GeZero | src/maomao.c:93 | `GEZERO`: a non-negative value is kept and a negative one becomes 0 |
| Chars.Lower | src/maomao.c:5850 | `tolower`: never an upper-case letter, and any other character is unchanged |
| Animation.CoordAtOne | src/maomao.c:1023-1033 | At eased value 1 a coordinate is its target |
| Animation.CoordAtZero | src/maomao.c:1023-1033 | At eased value 0 a coordinate is its start |
| Animation.InterpolateAtOne | src/maomao.c:1023-1041 | At eased value 1 the drawn rectangle is the target rectangle |
| Animation.InterpolateAtZero | src/maomao.c:1023-1041 | At eased value 0 the drawn rectangle is the start rectangle |
| Animation.Interpolate | src/maomao.c:1023-1041 | The drawn rectangle at eased value f, coordinate by coordinate; the start at 0 and the target at 1 (InterpolateAtZero, InterpolateAtOne) |
| Animation.AtLastFrameIff | src/maomao.c:1013-1014 | The progress is exactly 1.0 if and only if the animation is at its last frame |
| Animation.Progress | src/maomao.c:1013-1014 | `(double)passed_frames / total_frames`; it is exactly 1.0 only at the last frame (AtLastFrameIff), and never for zero frames (ZeroFramesNeverFinish) |
| Animation.TickAction | src/maomao.c:1016 | The curve a tick eases by: NONE eases like MOVE, every other action by its own curve |
| Animation.TickAnim | src/maomao.c:1012-1086 | One tick: the drawn rectangle follows the eased progress; the last tick stops the animation, resets the action to MOVE and settles a tag-out on its layout rectangle; any other tick advances one frame |
| Animation.FinalTick | src/maomao.c:1052-1083 | The tick at `passed == total` stops the animation and leaves the window drawn at its target (a tag-out at its geometry) |
| Animation.TickFinishes | src/maomao.c:1052-1085 | With at least one frame, ticks before the last advance `passed` by one and the last stops the animation |
| Animation.ZeroFramesNeverFinish | src/maomao.c:3120-3121 | As written, `total_frames == 0` makes the progress NaN and then +inf, never 1.0, so no number of ticks stops the animation |
| Animation.ShortDurationHasNoFrames | src/maomao.c:3120-3121 | A 10 ms duration at 60 Hz gives `total_frames == 0` as written |
| Animation.RefreshTotal | src/maomao.c:3097-3107 | The loop sums the refresh rates of exactly the enabled outputs |
| Animation.TotalFrames | src/maomao.c:3120-3121 | The corrected frame count is at least one |
| Animation.TotalFramesAsWritten | src/maomao.c:3120-3121 | The frame count as written: `duration * refresh / 10^6` truncated into `unsigned`, 0 with no refresh; 10 ms at 60 Hz gives 0 (ShortDurationHasNoFrames) |
| Animation.TotalFramesCoverDuration | src/maomao.c:3120-3121 | The corrected number of frames lasts the duration, short by less than one frame |
| Animation.ShouldAnimate | src/maomao.c:3077-3090 | Animate exactly when animations are on and the window tags in, or it is not grabbed and either opens or has a new target |
| Animation.CommitAnim | src/maomao.c:3109-3126 | A pending animation starts from the armed start rectangle at frame 0 of the corrected `TotalFrames` (see "## Left out"); the drawn rectangle jumps there only when nothing was running; otherwise the record is unchanged |
| Animation.CommittedAnimationFinishes | src/maomao.c:3109-3126 | A committed animation stops after exactly `TotalFrames + 1` ticks with the window at its target |
| Animation.ResizeGeom | src/maomao.c:5453-5469 | The settled geometry keeps the minimum size; outside the scroller it is also pulled back to overlap the bounding box |
| Animation.Classify | src/maomao.c:5476-5491 | The action and duration `resize` picks: OPEN kept for an unchanged opening window; TAG for tag-in/out; OPEN for an opening window; MOVE otherwise |
| Animation.NearestEdgeIsNearest | src/maomao.c:5386-5404 | Without a special rule the window slides in from the window-area edge nearest its centre |
| Animation.NearestEdge | src/maomao.c:5386-5404 | The slide-in side of an unconstrained window: the nearer of its horizontal and vertical nearest edges, vertical on a tie, never undirected (NearestEdgeIsNearest) |
| Animation.SlideStartsOffMonitor | src/maomao.c:5408-5428 | A slide start touches the monitor from outside, so it does not overlap it, and differs from the geometry on one axis only |
| Animation.SlideStart | src/maomao.c:5408-5428 | The slide-in start: the window's size just beyond the monitor edge of the direction (SlideStartsOffMonitor) |
| Animation.Scaled | src/maomao.c:5378-5379 | A zoom ratio in (0,1] never lengthens a side and never makes it negative |
| Animation.Centred | src/maomao.c:5380-5382 | A length centred in a span lies inside the span |
| Animation.ZoomStartInside | src/maomao.c:5375-5383 | A zoom-in starts inside the window's own geometry |
| Animation.ZoomStart | src/maomao.c:5375-5383 | The zoom-in start: the window scaled by the ratio and centred on it; inside the window for a ratio in (0, 1] (ZoomStartInside) |
| Animation.AnimationType | src/maomao.c:5375-5377 | The window's own open animation type wins over the configured one |
| Animation.OpenStartSlides | src/maomao.c:5344-5434 | An opening window always slides from one of the four edges; the fallback branch is unreachable |
| AnimationDriver.TickSpec | src/maomao.c:1012-1086 | One frame changes only the animation record, the open flag (now false), the flush flag and the scene node; the flush stops exactly when the frame began at progress 1.0 (DrawIsTick, DrawAdvances and DrawLast say how the record moves) |
| AnimationDriver.MoveSpec | src/maomao.c:1013-1050 | The frame itself changes only the animation record, the scene node and the open flag, which becomes false |
| AnimationDriver.FinishSpec | src/maomao.c:1052-1085 | The end of a frame changes only the flush flag and the scene node; the flush stops exactly when the frame began at progress 1.0 |
| AnimationDriver.AnimationNextTick | src/maomao.c:1012-1086 | The client's state becomes `TickSpec` of its old view and state along the baked tables |
| AnimationDriver.FinishTick | src/maomao.c:1052-1085 | The client's state becomes `FinishSpec` of the animation the frame began from |
| AnimationDriver.Commit | src/maomao.c:3109-3129 | `current` becomes `pending`, the animation record becomes `CommitAnim` of the old one (corrected frame count, see "## Left out"), and the monitor has a frame scheduled |
| AnimationDriver.PendingSpec | src/maomao.c:3077-3095 | Only `current`, now the pending rectangle, and the animation record change, and no animation is left pending |
| AnimationDriver.SetPendingState | src/maomao.c:3077-3095 | The client's state becomes `PendingSpec` and the monitor has a frame scheduled |
| AnimationDriver.CountVisibleTiled | src/maomao.c:5345-5352 | The count of visible, unminimised, live, tiled windows on the selected monitor |
| AnimationDriver.ArmGeomSpec | src/maomao.c:5450-5474 | Only the flush flag (set), the geometry and the fade-in flag change; fade-in survives only for an opening window |
| AnimationDriver.ArmStartSpec | src/maomao.c:5476-5507 | Only the animation record, the start rectangle and the border width change; the drawn rectangle and the running flag are kept; a borderless or dying window's border width becomes 0 |
| AnimationDriver.ArmSpec | src/maomao.c:5450-5507 | Both arming steps: only the flush flag, geometry, animation record, start rectangle and border width change, and the drawn rectangle and running flag are kept |
| AnimationDriver.ArmGeometry | src/maomao.c:5450-5474 | The client's state becomes `ArmGeomSpec` of its old view and state |
| AnimationDriver.ArmStart | src/maomao.c:5476-5507 | The client's state becomes `ArmStartSpec` of its old view and state |
| AnimationDriver.ArmResize | src/maomao.c:5450-5507 | The client's state becomes `ArmSpec` of its old view and state, and its view is unchanged |
| AnimationDriver.JumpSpec | src/maomao.c:5513-5523 | Nothing runs or needs a flush; the drawn, start, target and pending rectangles are the geometry; the node sits at the geometry; the clip is the surface's; tags, open flag and hide flag are kept |
| AnimationDriver.SettleResize | src/maomao.c:5513-5523 | The client's state becomes `JumpSpec` of its old view and state |
| AnimationDriver.StartSpec | src/maomao.c:5527-5549 | Only the pending rectangle and the start rectangle change |
| AnimationDriver.AnimateSpec | src/maomao.c:5527-5550 | Only `pending`, `current`, the start rectangle and the animation record change; `current` equals `pending`, which is the geometry unless the window tags out or dies |
| AnimationDriver.AnimateResize | src/maomao.c:5527-5550 | The client's state becomes `AnimateSpec` of its old view and state, and the monitor has a frame scheduled |
| AnimationDriver.ResizeSpec | src/maomao.c:5436-5553 | Tags and open flag are kept, and a window without a monitor or not mapped is unchanged (ResizeJumpSettles and ResizeAnimates state the two branches) |
| AnimationDriver.Resize | src/maomao.c:5436-5553 | The client's state becomes `ResizeSpec` of its old view and state, with the tiled-window count and swallower it read; an absent or unmapped window is unchanged; an animated resize schedules a frame |
| AnimationDriver.ResizeJumpSettles | src/maomao.c:5450-5523 | Without animation, or for the grabbed window: the geometry is `ResizeGeom` of the request in its bounding box, nothing runs or needs a flush, every rectangle and the node are at the geometry, and the clip is the surface's |
| AnimationDriver.ResizeAnimates | src/maomao.c:5450-5550 | With animation: the geometry is the armed one, a flush is needed, the target is the geometry unless the window tags out or dies; when `ShouldAnimate` holds the classified action runs from the start rectangle at frame 0 of `TotalFrames`, otherwise the armed record stays, no longer pending |
| AnimationDriver.ResizeArrives | src/maomao.c:5436-5553 | After an animated `resize`, `TotalFrames + 1` drawn frames leave the animation `Finished` at the target `resize` chose, given a table that eases 1.0 to 1 |
| AnimationDriver.StillSnap | src/maomao.c:1369-1376 | The still branch: the start, target, pending and initial rectangles collapse onto the geometry and the node goes to the pending position |
| AnimationDriver.DrawSpec | src/maomao.c:1358-1378 | `client_draw_frame` keeps the geometry and tags, and leaves an unmapped or unflagged window unchanged (DrawIsTick and DrawStillSettles state the two branches) |
| AnimationDriver.DrawTick | src/maomao.c:1366-1368 | The client's state becomes `ApplyClipSpec` of `TickSpec` of its old view and state |
| AnimationDriver.DrawStill | src/maomao.c:1369-1376 | The client's state becomes `ApplyClipSpec` of `StillSnap`, with the flush cleared |
| AnimationDriver.DrawFrame | src/maomao.c:1358-1378 | The result says the window wanted a frame; a window that did not is unchanged; the client's state becomes `DrawSpec` of its old view and state |
| AnimationDriver.DrawIsTick | src/maomao.c:1366-1368 | A frame drawn while animating: the record is `TickAnim` with the eased value looked up at the progress, target and geometry are kept, the open flag is cleared, and the flush stays exactly when the progress was not 1.0 |
| AnimationDriver.DrawAdvances | src/maomao.c:1012-1086 | A frame before the last advances the frame counter by one and keeps the animation running, in the same action and tag-out state, toward the same target |
| AnimationDriver.DrawLast | src/maomao.c:1052-1082 | The frame at `passed == total`, with a table easing 1.0 to 1, stops the animation and the flush, resets the action to `MOVE` and draws the window at its target (a tag-out at its geometry) |
| AnimationDriver.DrawLastIsFinal | src/maomao.c:1358-1378 | One frame from the last tick leaves the animation `Finished` |
| AnimationDriver.DrawsFinish | src/maomao.c:1358-1378 | A running animation with at least one frame and a table easing 1.0 to 1 is `Finished` after its remaining frames plus one |
| AnimationDriver.StartedFinishes | src/maomao.c:1358-1378 | A freshly committed animation at frame 0 is `Finished` after `totalFrames + 1` frames |
| AnimationDriver.DrawStillSettles | src/maomao.c:1369-1376 | A still frame settles: no flush, the rectangles are the geometry, the node is at the pending position, and the next frame leaves the window alone |
| Arrange.TagInStart | src/maomao.c:2066-2103 | The tag-in start keeps the window's size; where it lies is stated by TagInMirrorsTagOut, TagSlideIsOffMonitor and TagInWhileRunningStaysPut |
| Arrange.TagOutTarget | src/maomao.c:2111-2135 | The tag-out target keeps the window's size; where it lies is stated by TagInMirrorsTagOut and TagSlideIsOffMonitor |
| Arrange.TagInMirrorsTagOut | src/maomao.c:2066-2135 | Entering and leaving windows use opposite edges for the same switch direction |
| Arrange.TagSlideIsOffMonitor | src/maomao.c:2066-2135 | Both the tag-in start and the tag-out target lie off the monitor |
| Arrange.TagInWhileRunningStaysPut | src/maomao.c:2071-2073 | A running window starts its tag-in from its drawn position |
| Arrange.ShowSpec | src/maomao.c:2059-2065 | The visible branch's first step: the clip-to-hide flag is dropped when `DropsClip` says so, and the node is then enabled and resumed |
| Arrange.ShowVisible | src/maomao.c:2059-2065 | The client's state becomes `ShowSpec`: the clip-to-hide rule, then the window is resumed |
| Arrange.TagInSpec | src/maomao.c:2066-2107 | A window that is not from a rule and meets the new tags on an animated switch tags in from `TagInStart`; any other starts where it is drawn; the tag-out flags are cleared |
| Arrange.StartTagIn | src/maomao.c:2066-2107 | The client's state becomes `TagInSpec`: the tag-in start rectangle and flags of a visible window |
| Arrange.ShowAndTagIn | src/maomao.c:2059-2107 | The client's state becomes `TagInSpec` of `ShowSpec`, and its view is unchanged |
| Arrange.ShownStartsOff | src/maomao.c:2059-2107 | On an animated switch a shown window that is not running is resumed, tags in, has its tag-out flags cleared and starts off the monitor |
| Arrange.HideSpec | src/maomao.c:2110-2139 | A window of the previous tag (with animations on) tags out toward `TagOutTarget`; any other is disabled and suspended |
| Arrange.PrepareHidden | src/maomao.c:2110-2139 | The result says the window slides out; the client's state becomes `HideSpec`: a window from the previous tag gets the slide-out target, any other is disabled and suspended |
| Arrange.MaxBoxMargins | src/maomao.c:5712-5718 | `reset_maxmizescreen_size` leaves `gappov` on the left and right, `gappoh` at the top and `2 * gappov - gappoh` at the bottom of the window area |
| Arrange.ResizeInPlace | src/maomao.c:2108 | The client's state becomes `ResizeSpec` of its own geometry, and its view is unchanged |
| Arrange.ResetMaxSize | src/maomao.c:5712-5718 | The geometry becomes `MaxBox` of the window area, then the client's state becomes `ResizeSpec` of it |
| Arrange.ResetIfMaximised | src/maomao.c:2142-2146 | The client's state becomes `MaxSpec`: a maximised window that is not tagging out is reset, any other is unchanged |
| Arrange.MaxSpec | src/maomao.c:2142-2146 | Tags are kept by the maximise reset |
| Arrange.VisibleSpec | src/maomao.c:2053-2108 | Tags are kept by the visible branch |
| Arrange.ArrangeClient | src/maomao.c:2042-2146 | `visible_clients` grows exactly when the window counts; the client's state becomes `ArrangeSpec` of its old view and state; a dying window or one on another monitor is unchanged |
| Arrange.ArrangeOwn | src/maomao.c:2046-2146 | A live window of the monitor: the count and the state as for `ArrangeClient` |
| Arrange.ArrangeShown | src/maomao.c:2053-2146 | The visible branch after the tags are arranged: counted, and the state is `ArrangeSpec` |
| Arrange.ArrangeMissed | src/maomao.c:2110-2139 | The hidden branch after the tags are arranged: the state is `ArrangeSpec` |
| Arrange.Count | src/maomao.c:2055-2057 | `visible_clients` grows by one exactly when asked to |
| Arrange.ArrangeVisible | src/maomao.c:2053-2146 | The client's state becomes `VisibleSpec`: shown, started for a tag-in, resized to its geometry, then reset if maximised |
| Arrange.CountAndShow | src/maomao.c:2053-2146 | `visible_clients` grows by one for a managed window that takes focus; the client's state becomes `VisibleSpec` with that count |
| Arrange.ArrangeHidden | src/maomao.c:2110-2139 | The client's state becomes `HideSpec`, followed by `ResizeSpec` toward the slide-out target exactly when the window slides out |
| Arrange.ArrangeSpec | src/maomao.c:2042-2146 | A dying window or one on another monitor is unchanged; any other takes the global rule's tags (ArrangeHidesAtOnce, ArrangeSlidesOut and ShownStartsOff state the branches) |
| Arrange.ArrangeHidesAtOnce | src/maomao.c:2110-2139 | A hidden window that does not slide out is disabled and suspended and keeps everything else but its tags |
| Arrange.ArrangeSlidesOut | src/maomao.c:2110-2135 | A mapped window that slides out, unless grabbed, needs a flush and is animated toward `TagOutTarget`, off the monitor |
| Arrange.ArrangeSpecShown | src/maomao.c:2046-2108 | A window that meets the selected tags once arranged takes `VisibleSpec` with its count |
| Arrange.ArrangeSpecHidden | src/maomao.c:2046-2139 | A window that misses the selected tags takes the hidden branch |
| Arrange.ArrangeMon | src/maomao.c:2032-2147 | Nothing changes for an absent or disabled output; otherwise `visible_clients` is `VisibleCount` over the list and every window's state is `NthSpec`, `ArrangeSpec` with the count of the windows before it |
| Arrange.ArrangeEnabled | src/maomao.c:2041-2147 | The recount from zero and every window's `NthSpec`, in list order |
| Arrange.ArrangeLoop | src/maomao.c:2042-2147 | The loop of the pass: the count over all windows, and every window passed with the count before it |
| Arrange.LoopStep | src/maomao.c:2042-2147 | One step of the loop keeps the invariants for one more window |
| Arrange.PassStep | src/maomao.c:2042-2147 | One window of the loop: the count grows as `VisibleCount`, the window's state is `NthSpec`, and the windows after it are untouched |
| Arrange.ArrangeNth | src/maomao.c:2042-2147 | The pass over window i: its state is `NthSpec`, the count grows as `VisibleCount`, and every other window is unchanged |
| Border.CheckHitNoBorder | src/maomao.c:1106-1124 | No border exactly when borders are off, a tag rule for one of the window's tags says so, or the window is alone with `no_border_when_single` |
| Border.RuleHits | src/maomao.c:1113-1118 | A tag rule turns borders off for the client when it names one of the client's tags and has `no_render_border` |
| Border.BorderRects | src/maomao.c:1152-1226 | The four border rectangles, cut by the monitor edges, with every size passed through GEZERO |
| Border.CutFrameThickness | src/maomao.c:1182-1216 | Each side's thickness is the border width less that side's overflow, between 0 and the border width |
| Border.CutFrameSpansVisibleWidth | src/maomao.c:1152-1226 | With a cut, the top and bottom segments span exactly the part of the window width on the monitor |
| Border.CutFrameInsideIsFull | src/maomao.c:1152-1226 | A window inside the monitor, or one that is not cut, gets the full frame |
| Border.PlaceBorder | src/maomao.c:1152-1226 | The border rectangles for the drawn rectangle and the current border width |
| Border.BorderSpec | src/maomao.c:1126-1233 | `apply_border` changes only the border width, the fake-no-border flag and the border rectangles, and keeps the clip |
| Border.BorderFollowsRules | src/maomao.c:1126-1233 | A rule hit marks the window borderless and, with smart gaps, drops its width; a visible non-fullscreen window without a hit regains its configured width; the rectangles are `CutFrame` of the drawn rectangle; the surface sits at (bw, bw) |
| Border.BorderIdempotent | src/maomao.c:1126-1233 | Applying the border twice equals applying it once |
| Border.ApplyBorder | src/maomao.c:1126-1233 | The client's state becomes `BorderSpec` of its old view and state |
| Border.IsVisible | src/maomao.c:99-100 | `VISIBLEON`: the window is on the monitor and carries one of its selected tags |
| Border.Rebordered | src/maomao.c:1142-1145 | The window gets its border back exactly when it is not fullscreen and is visible on its monitor |
| Border.Decorate | src/maomao.c:1126-1233 | `apply_border` once the no-border test and the visibility are known |
| Border.SetBorderWidth | src/maomao.c:1130-1145 | A no-border hit with smart gaps drops the border, one without only fakes it, and a visible window keeps or regains it |
| Border.ClipCut | src/maomao.c:1247-1273 | The offsets the cut computes are never negative |
| Border.CapClip | src/maomao.c:1287-1293 | The clip is capped at the drawn size |
| Border.ClipInsideKeepsClip | src/maomao.c:1235-1296 | A window inside the monitor keeps its clip, capped, with no offset |
| Border.ClipRightOfMonitorIsNegative | src/maomao.c:1254-1259 | A window wholly right of the monitor gets a negative clip width, the case that hides it |
| Border.CutClip | src/maomao.c:1247-1273 | The cut computation on plain values equals `ClipCut` |
| Border.SetClipHidden | src/maomao.c:1278-1285 | The window is hidden when the clip became empty, shown again when it is visible again, and left alone otherwise |
| Border.ClipHideSpec | src/maomao.c:1235-1296 | `clip_to_hide` changes only the hide flag and whether the node is enabled |
| Border.ClipHidesRightOfMonitor | src/maomao.c:1254-1285 | A tiled window drawn wholly right of its monitor is hidden |
| Border.ClipShowsInsideMonitor | src/maomao.c:1278-1285 | A hidden tiled window inside its monitor on a selected tag is shown again |
| Border.ClipToHide | src/maomao.c:1235-1296 | The result is `ClipToHideSpec`; the client's state becomes `ClipHideSpec`: windows neither tiled nor tag-animating are untouched, the others hide or show by the cut clip |
| Border.ClipToHideSpec | src/maomao.c:1235-1296 | `clip_to_hide`'s clip and offsets: unchanged for a window that is neither tiled nor tag-animating; otherwise cut at the monitor's edges and capped at the drawn size (ClipInsideKeepsClip, ClipRightOfMonitorIsNegative) |
| Border.AnimatedClip | src/maomao.c:1323-1338 | The clip size is the drawn size less the border whenever that fits an int |
| Border.SettledSnap | src/maomao.c:1306-1310 | Nothing runs or needs a flush and every rectangle is the geometry |
| Border.Settle | src/maomao.c:1306-1310 | The client's state becomes `SettledSnap` of the old one |
| Border.ClipSpec | src/maomao.c:1340-1355 | The tail of `client_apply_clip` changes only the hide flag, the node's enabled flag, the border width, the fake-no-border flag and the border record |
| Border.ClipStoredFits | src/maomao.c:1340-1355 | The stored clip is the old one or a non-empty box no larger than the drawn rectangle |
| Border.ClipAndBorder | src/maomao.c:1340-1355 | The client's state becomes `ClipSpec`: clip-to-hide, the border, then the clip stored unless it is empty |
| Border.ApplyClipSpec | src/maomao.c:1298-1356 | The node's position, geometry, tags and open flag are kept; with animations off the window settles on its geometry first, otherwise the animation, flush and rectangles are kept |
| Border.ApplyClip | src/maomao.c:1298-1356 | A dying or unmapped window is unchanged; the client's state becomes `ApplyClipSpec` of its old view and state |
| ClientList.Swap | src/maomao.c:5291-5335 | The order with the two positions exchanged keeps its length and every other position |
| ClientList.SwapPermutes | src/maomao.c:5291-5335 | Exchanging is a permutation and undoes itself |
| ClientList.AdjacentSwapLinks | src/maomao.c:5303-5321 | The adjacent-case relinking yields exactly the links of the swapped order |
| ClientList.ApartSwapLinks | src/maomao.c:5322-5332 | The general-case relinking yields exactly the links of the swapped order, for any two non-neighbours |
| ClientList.SwapShape | src/maomao.c:5291-5335 | The swapped order has the same clients and they stay distinct |
| ClientList.IndexOf | src/maomao.c:5291-5335 | A client's position in the order holds that client |
| ClientList.Clients.constructor | src/maomao.c:5291-5335 | An empty list: the head linked to itself |
| ClientList.Clients.ExchangeTwoClient | src/maomao.c:5291-5335 | Nothing for a null client or clients on different monitors; otherwise the links become those of the swapped order and no other field changes |
| ClientList.Clients.RelinkAdjacent | src/maomao.c:5303-5321 | The adjacent case rewires four links and yields the swapped order |
| ClientList.Clients.RelinkApart | src/maomao.c:5322-5332 | The general case rewires around both clients and yields the swapped order |
| Closest.Nearest | src/maomao.c:2183-2202 | The chosen index is within the candidates looked at |
| Closest.NearestIsFirstLeast | src/maomao.c:2183-2202 | None exactly when there is no candidate; otherwise a candidate of least distance with no earlier candidate as near |
| Closest.FirstNearest | src/maomao.c:2190-2199 | The strict-improvement loop returns the first candidate of least distance |
| Scroller.CenterSelect | src/maomao.c:2183-2202 | `center_select`: the first placed window of least distance to the monitor centre, none without any |
| Neighbour.Dist | src/maomao.c:2307-2470 | The squared distance between corners is never negative and is zero only for the same corner |
| Neighbour.AlignedFlags | src/maomao.c:2307-2470 | The candidates of the first pass are exactly the eligible windows in line on the requested side |
| Neighbour.SideFlags | src/maomao.c:2307-2470 | The candidates of the second pass are exactly the eligible windows on the requested side |
| Neighbour.FindClientByDirection | src/maomao.c:2307-2470 | The two search loops compute `Find`: the in-line pass, then the relaxed pass when it found nothing and align is off |
| Neighbour.FindIsNearest | src/maomao.c:2307-2470 | The found window is eligible, on the requested side and nearest among its pass; nothing is found exactly when neither pass has a candidate |
| Neighbour.Find | src/maomao.c:2307-2470 | A found window is an index of the list (which one: FindIsNearest) |
| Neighbour.AlignedStaysInLine | src/maomao.c:2307-2470 | With align on, the result is always in line |
| Neighbour.NeverFindsItself | src/maomao.c:2307-2470 | The selected window's own corner is on no side of itself, so it is never the result |
| Placement.CoordinateCenter | src/maomao.c:1801-1849 | The placed rectangle keeps the window's size; without offsets and with centring it is the given geometry |
| Placement.ClampWithin | src/maomao.c:1821-1846 | A window that fits its monitor ends within the monitor, up to the border allowance |
| Placement.ClampKeepsInside | src/maomao.c:1821-1846 | A window already inside is not moved by the clamp |
| Placement.CentredMargins | src/maomao.c:1810-1816 | A centred window has equal margins, up to the pixel the halving drops |
| Placement.OffsetStaysOnMonitor | src/maomao.c:1801-1849 | With an offset, a window no larger than its monitor stays on the monitor up to the border allowance |
| Snap.SnapSpec | src/maomao.c:2204-2305 | No snap when there is no monitor, or the window is unmapped, dying, tiled, or snapping is off; otherwise the size is kept |
| Snap.ApplyWindowSnap | src/maomao.c:2204-2305 | The loop over the window list and the two edge checks compute `SnapSpec` |
| Snap.ListMinima | src/maomao.c:2229-2257 | The loop's four running minima are the least gaps over the window list |
| Snap.AllGapsMinima | src/maomao.c:2229-2285 | The monitor and window-area edges continue the minima over the windows |
| Snap.AllGaps | src/maomao.c:2229-2285 | One candidate per window of the list plus the monitor and the window area |
| Snap.Inner | src/maomao.c:2216-2220 | `cx, cy, cw, ch` are four unsigned values |
| Snap.SnapBorder | src/maomao.c:2214 | `cbw` is an unsigned value |
| Snap.LeastIsMin | src/maomao.c:2244-2255 | The minimum is the least non-negative candidate, or the no-snap start value when none is smaller |
| Snap.LeastPrefix | src/maomao.c:2244-2255 | The minima depend only on the candidates taken so far |
| Snap.AxisSnapsToNearest | src/maomao.c:2287-2301 | On one axis a move goes toward the side with the smaller minimum, by exactly that gap, which is some candidate's |
| Snap.TouchingDoesNotMove | src/maomao.c:2287-2301 | A window already touching a candidate edge is not moved again |
| Gesture.Magnitude | src/maomao.c:2623-2624 | The unsigned magnitude of a rounded swipe component is a 32-bit value |
| Gesture.OnGesture | src/maomao.c:2618-2658 | The handler runs exactly the bindings `Fired` names and reports whether any ran |
| Gesture.RunBindings | src/maomao.c:2646-2656 | The binding loop runs the matching bindings in table order |
| Gesture.FiredUpTo | src/maomao.c:2646-2656 | Only indices among the first k bindings |
| Gesture.FiredAreMatching | src/maomao.c:2646-2656 | A binding runs exactly when its modifiers (Caps Lock aside), finger count and direction match; each runs once, in order |
| Gesture.ReverseSwipe | src/maomao.c:2637-2641 | A long enough swipe reversed gets the opposite direction |
| Gesture.SomeMagnitude | src/maomao.c:2632-2635 | A swipe that passes the distance test has a nonzero component |
| Render.DrawClients | src/maomao.c:5229-5232 | Every window's state becomes `DrawSpec` of its view and state before the pass; a window that wanted no frame is unchanged; the result is whether any wanted one |
| Render.DrawNth | src/maomao.c:5231 | Window i's state becomes `DrawSpec`; the result says it wanted a frame; the other windows are unchanged |
| Render.TickGhosts | src/maomao.c:5234-5236 | Every ghost takes one `FadeStep` along its action's table and its node follows; the ones left linked are exactly those whose tick was not their last, in order |
| Render.SurvivorsIff | src/maomao.c:5234-5236 | A ghost is left linked exactly when it is in the list and its tick was not its last |
| Render.TickedAdvances | src/maomao.c:949-1010 | A ticked ghost's frame counter advances unless the tick was its last, and its total stays |
| Render.NextsAt | src/maomao.c:949-1010 | Each ghost's next animation state is `FadeStep` of its own |
| Render.TickStep | src/maomao.c:5235 | Ghost i ticks, is freed exactly at its last frame, and the ghosts after it are untouched |
| Render.TickGhost | src/maomao.c:949-1010 | The ghost ticks toward its target and is freed exactly at its last frame |
| Render.RenderMon | src/maomao.c:5221-5250 | The output asks for another frame exactly when a window wanted one or the ghost list was not empty (every ghost's tick reports a frame); the ghosts left linked are `Survivors` of the list |
| FadeOut.FadeStep | src/maomao.c:949-1010 | One ghost tick: the drawn rectangle follows the eased progress, and the frame counter advances unless this is the last tick |
| FadeOut.FadeStepsAdvance | src/maomao.c:949-1010 | Before its last tick a ghost advances one frame per tick |
| FadeOut.GhostFreedOnTime | src/maomao.c:949-1010 | A ghost with frames left is freed by exactly the tick after the remaining ones, drawn at its target |
| FadeOut.GhostNotFreedEarly | src/maomao.c:949-1010 | Every earlier tick leaves the ghost in place |
| FadeOut.FinalFadeStep | src/maomao.c:949-1010 | The tick at the last frame lands on the target |
| FadeOut.GhostWithoutFramesLingers | src/maomao.c:7192-7194 | As written, a ghost with zero frames is never freed |
| FadeOut.FadeoutTick | src/maomao.c:949-1010 | The ghost's record becomes `FadeStep` of the old one; the result says it was the last tick |
| FadeOut.FadeSlideLeavesMonitor | src/maomao.c:7167-7176 | With the corrected target a sliding ghost ends just outside the monitor: top on the bottom edge sliding down, bottom on the top edge sliding up |
| FadeOut.FadeUpOutMovesDown | src/maomao.c:7171-7175 | As written, on a monitor whose top is at 1080 the "up" slide moves the ghost down |
| FadeOut.ScaledBetween | src/maomao.c:7177-7190 | A zoom ratio in (0,1] scales a size to between 0 and the size |
| FadeOut.ZoomToInside | src/maomao.c:7177-7190 | A shrunk ghost ends inside the rectangle it was drawn in |
| FadeOut.InitFadeoutClient | src/maomao.c:7125-7197 | No ghost without a monitor, with fade-out off, or without a snapshot; otherwise a fresh ghost starting at the drawn rectangle with the corrected target and frame count |
| FadeOut.FillGhost | src/maomao.c:7139-7166 | The fields a fresh ghost gets: monitor, border width, close properties, drawn rectangle and target |
| State.Client.constructor | src/maomao.c:7139 | A zero-filled client record, as `ecalloc` gives the ghost |
| Geometry.ApplyBounds | src/maomao.c:1388-1401 | `applybounds`: minimum size enforced, a window wholly past an edge pulled back to touch it |
| Geometry.ApplyBoundsOverlaps | src/maomao.c:1388-1401 | After bounding, the window overlaps a non-empty box on both axes |
| Geometry.ApplyBoundsKeepsOverlapping | src/maomao.c:1388-1401 | A window of minimum size that already overlaps is untouched |
| Geometry.ApplyBoundsIdempotent | src/maomao.c:1388-1401 | Bounding twice is bounding once |
| Tags.LowestFrom | src/maomao.c:7476-7479 | The scan answers an index between the start and LENGTH(tags) |
| Tags.LowestTagIsLowest | src/maomao.c:7476-7479 | A mask with a tag bit has a lowest set tag, with every lower tag clear, and the scan finds it |
| Tags.ViewCurtag | src/maomao.c:7469-7480 | The pertag index view_in_mon makes current never exceeds LENGTH(tags) |
| Tags.ViewInMonSpec | src/maomao.c:7454-7493 | `view_in_mon`: unchanged when ignored; a nonempty mask goes into the other slot with its lowest tag current and the old current tag previous; an empty mask swaps back (ViewSelectsRequested, ViewKeepsValid, ViewThenBack) |
| Tags.ViewSelectsRequested | src/maomao.c:7454-7493 | Viewing selects exactly the requested tags in the other tagset slot, with the lowest of them current |
| Tags.ViewKeepsValid | src/maomao.c:7454-7493 | A view keeps the tag view well formed |
| Tags.ViewThenBack | src/maomao.c:7468-7488 | Viewing an empty tag mask right after a view restores the previous slot and swaps the current and previous tags back |
| Tags.ViewToLeftShifts | src/maomao.c:7499-7529 | `viewtoleft` selects the mask shifted right, one tag lower, and keeps the view well formed |
| Tags.ViewToLeftSpec | src/maomao.c:7499-7529 | `viewtoleft`: none in the overview, at tag 0, or when the shift empties or keeps the mask; else the mask shifted one tag lower in the other slot (ViewToLeftShifts) |
| Tags.ViewToRightOverflows | src/maomao.c:7582-7609 | As written, tags 8 and 9 shown with tag 9 current move the index to 10, past the pertag arrays |
| Tags.ViewToRightAsWritten | src/maomao.c:7582-7609 | `viewtoright` as written: the shifted mask, with the index always `curtag + 1`; it can reach 10 (ViewToRightOverflows) |
| Tags.ViewToRightKeepsValid | src/maomao.c:7582-7609 | The capped `viewtoright` keeps the view well formed and selects the shifted mask |
| Tags.ViewToRightSpec | src/maomao.c:7582-7609 | `viewtoright` with the index capped at the tag count; it keeps the view well formed (ViewToRightKeepsValid) |
| Tags.ScanRight | src/maomao.c:7542-7557 | The step count answered lies between the start and LENGTH(tags)+1 |
| Tags.ScanLeft | src/maomao.c:7622-7636 | The step count answered lies between the start and LENGTH(tags)+1 |
| Tags.ScanRightFindsOccupied | src/maomao.c:7531-7580 | The search ends on an occupied tag, on a mask outside the tag bits, or after the last step |
| Tags.ScanLeftFindsOccupied | src/maomao.c:7611-7659 | The same for the left search |
| Tags.ViewToRightHaveClientLandsOnClient | src/maomao.c:7531-7580 | When the command moves, the new view holds an occupied tag or the search ran out, and stays well formed |
| Tags.ViewToLeftHaveClientLandsOnClient | src/maomao.c:7611-7659 | The same to the left |
| Tags.Toggle | src/maomao.c:7080-7104 | The flip of the requested tag bits, refused when the result would be empty |
| Tags.ToggleInvolution | src/maomao.c:7080-7104 | Toggling the same tags twice restores the mask |
| Tags.TagToNeighbour | src/maomao.c:7661-7675 | From a single shown tag, `tagtoleft`/`tagtoright` target the neighbouring tag |
| Tags.FirstTagMaskIsLowest | src/maomao.c:6229-6248 | The mask `get_tags_first_tag` returns is the bit of the lowest set tag |
| TagOps.ScanLowestTag | src/maomao.c:7476-7479 | The scan loop returns `LowestFrom` |
| TagOps.ViewInMon | src/maomao.c:7454-7493 | None for a null monitor, the current mask, or the overview; otherwise the view becomes `ViewInMonSpec` |
| TagOps.SelectTags | src/maomao.c:7469-7483 | A mask with tag bits is selected in the other slot, the previous tag remembered |
| TagOps.NewCurtag | src/maomao.c:7473-7480 | The new pertag index equals `ViewCurtag` |
| TagOps.SwapBack | src/maomao.c:7484-7488 | A mask without tag bits flips back to the other slot and swaps the current and previous tags |
| TagOps.MoveTo | src/maomao.c:7515-7519 | The common step of the view-to commands: the other tagset slot gets the target and the old current tag becomes the previous one |
| TagOps.ViewToLeft | src/maomao.c:7499-7529 | The view becomes `ViewToLeftSpec`; the result says whether it moved |
| TagOps.ViewToRight | src/maomao.c:7582-7609 | The view becomes the capped `ViewToRightSpec`; the result says whether it moved |
| TagOps.MeetsUnion | src/maomao.c:7531-7580 | A mask meets a union exactly when it meets one of its parts |
| TagOps.OccupiedMeets | src/maomao.c:7531-7580 | A mask meets the union of the clients' tags exactly when one client on the monitor carries one of its tags |
| TagOps.AnyClientOn | src/maomao.c:7544-7549 | The inner search is true exactly when a client of the monitor carries a tag of the target |
| TagOps.SearchRight | src/maomao.c:7542-7557 | The search loop computes `ScanRight` over the occupied tags |
| TagOps.SearchLeft | src/maomao.c:7622-7636 | The search loop computes `ScanLeft` |
| TagOps.ViewToRightHaveClient | src/maomao.c:7531-7580 | The view becomes the result of the right search; the result says whether it moved |
| TagOps.ViewToLeftHaveClient | src/maomao.c:7611-7659 | The same to the left |
| TagOps.ToggleView | src/maomao.c:7094-7104 | The selected tagset becomes `Toggle` of itself; nothing changes when it would empty |
| TagOps.ToggleTag | src/maomao.c:7080-7092 | The focused client's tags become `Toggle` of themselves; nothing without a focused client or when they would empty |
| TagOps.IncNmasterValue | src/maomao.c:4176-4182 | The stored master count is never negative and is `n + i` when that is not |
| TagOps.IncNmaster | src/maomao.c:4176-4182 | The current tag's master count becomes `IncNmasterValue`; every other tag keeps its own |
| TagOps.IncNmasterFloor | src/maomao.c:4176-4182 | Decrements never go below zero, and an increment after an overshoot starts from zero |
| TagOps.SetGaps | src/maomao.c:5810-5816 | Each of the four gaps is stored clamped at zero |
| TagOps.FactStep | src/maomao.c:6136-6149 | An argument below 1.0 is added, one of 1.0 or more sets the factor; results outside [0.05, 0.95] are refused |
| TagOps.FactStepInverse | src/maomao.c:6136-6149 | Stepping by d and back by -d restores the factor when both steps stay in range |
| TagOps.SetMfact | src/maomao.c:6136-6149 | The current tag's mfact becomes `FactStep`; nothing without a layout function or when refused |
| TagOps.SetSmfact | src/maomao.c:6151-6164 | The same for smfact |
| TagOps.ShrByLowBit | src/maomao.c:6229-6248 | Bit 0 of `x >> k` is tag bit k of x |
| TagOps.LowestTagAt | src/maomao.c:6229-6248 | The scan of `get_tags_first_tag` stops at a set bit below which every bit is clear |
| TagOps.GetTagsFirstTag | src/maomao.c:6229-6248 | The current tag index's mask for an empty mask, else the mask of the lowest tag (the last tag when no tag bit is set) |
| Cycle.FirstIndex | src/maomao.c:6082-6132 | The first index at or after a start holding a value, or the length |
| Cycle.NextAfter | src/maomao.c:6082-6132 | The entry after k, wrapping to the first |
| Cycle.SwitchLayoutFollowsCircle | src/maomao.c:6088-6115 | With a circle, the new layout is the table entry named after the circle entry following the current name |
| Cycle.SwitchLayoutAdvances | src/maomao.c:6122-6131 | Without a circle, the layout advances to the next table entry after the current name, wrapping |
| Cycle.SwitchLayoutUnknown | src/maomao.c:6122-6131 | Without a circle, a current name missing from the table leaves the layout as it is |
| Cycle.Find | src/maomao.c:6082-6132 | The search loop returns `FirstIndex` |
| Cycle.FindLayout | src/maomao.c:6082-6132 | The name search over the layout table: whole-string compare |
| Cycle.SwitchLayout | src/maomao.c:6082-6132 | The current tag's layout becomes the one the circle or the table picks; every other tag keeps its own |
| Cycle.NextPreset | src/maomao.c:6878-6912 | The picked proportion is always one of the presets |
| Cycle.NextPresetCycles | src/maomao.c:6878-6912 | With distinct nonzero presets, repeated picks visit every preset in turn |
| Cycle.NextPresetFromUnknown | src/maomao.c:6878-6912 | A proportion that is not a preset moves to the first one |
| Cycle.PresetWidth | src/maomao.c:6905-6908 | The width given to the focused window as an unsigned value |
| Cycle.PickPreset | src/maomao.c:6887-6903 | The search loop returns `NextPreset` |
| Cycle.SwitchProportionPreset | src/maomao.c:6878-6912 | Nothing without presets or without a focused window; otherwise its proportion becomes `NextPreset` and its width the preset share |
| LayoutBase.CurGap | src/layout/layout.h:4-12 | An unsigned value, zero when gaps are off or with smart gaps and one visible window |
| LayoutBase.Settle | src/maomao.c:5453-5469 | The geometry `resize` leaves: unmapped windows keep theirs; others get at least the minimum size |
| LayoutBase.CountEligible | src/layout/layout.h:14-17 | The count loop counts exactly the eligible windows |
| LayoutBase.RankBelowTotal | src/layout/layout.h:29-82 | An eligible window's rank is below the count |
| LayoutBase.I32AddU32 | src/layout/layout.h:23-26 | Reducing an unsigned operand first does not change an `int` store of the sum |
| Tile.MasterWidth | src/layout/layout.h:460-466 | `mw` is an `unsigned int` value; the closed form of the columns built on it is `TileColumns` |
| Tile.Pass | src/layout/layout.h:469-495 | After k windows there are k request slots and the cursor index counts the placed windows |
| Tile.RankBelowCount | src/layout/layout.h:473-493 | An eligible window is placed while fewer than n have been |
| Tile.Plan | src/layout/layout.h:439-496 | One request per window in list order |
| Tile.TileLayout | src/layout/layout.h:439-496 | `tile`: the requests are `Plan` and each is the closed-form column rectangle |
| Tile.PlaceOne | src/layout/layout.h:469-495 | One iteration: an eligible window is resized into its column and the cursor moves past its settled height and one gap |
| Tile.RequestIgnoresWrap | src/layout/layout.h:473-493 | Reducing the unsigned cursors first yields the same request |
| Tile.RequestIsColumnBox | src/layout/layout.h:473-493 | The cursor's index is below n and the request it makes is the closed-form rectangle |
| Tile.InvStep | src/layout/layout.h:473-493 | A placed window adds one request slot, the cursors still match the closed form (past its settled height and one gap) and the slot is the closed-form rectangle |
| Tile.InvSkip | src/layout/layout.h:473-493 | A window not placed adds one request slot, the cursors still match the closed form and the slot is the closed-form value |
| Tile.TileColumns | src/layout/layout.h:439-496 | Closed form: a window not placed gets no request; a placed one gets its column's rectangle at the height the earlier windows settled on |
| Tile.TileThreeWindows | src/layout/layout.h:439-496 | Three windows at factor 0.5 on a 1920x1080 monitor without gaps: the master on the left half, the others splitting the right half |
| Tile.SettleInside | src/maomao.c:5461-5469 | A mapped window asked into a rectangle inside the area with at least the minimum size settles there |
| Monocle.MonocleLayout | src/layout/layout.h:499-510 | Every eligible window is asked into the window area; no other window is resized |
| Deck.MasterWidth | src/layout/layout.h:263-266 | `mw` as unsigned: the width inside the outer gaps when there are no more windows than masters; zero when there are no masters |
| Deck.DeckLayout | src/layout/layout.h:240-297 | Each request is the closed-form master or stack rectangle; all stack windows get one and the same rectangle |
| Deck.PlaceOne | src/layout/layout.h:269-296 | One iteration keeps every earlier request closed-form |
| Grid.GridCols | src/layout/layout.h:199-203 | The column loop returns the least count whose square reaches n |
| Grid.RowsHoldAll | src/layout/layout.h:204 | The rows hold all windows, with one row fewer than columns or as many |
| Grid.LeastCols | src/layout/layout.h:199-203 | The least column count whose square reaches n |
| Grid.SameCols | src/layout/layout.h:199-203 | Any least column count equals `LeastCols` |
| Grid.GridLayout | src/layout/layout.h:130-238 | Every window gets its border width and every placed one its cell, for one, two or more windows |
| Grid.PlaceOne | src/layout/layout.h:219-237 | One iteration: a visited window gets the border width, a placed one its cell |
| Scroller.CandidatesUpTo | src/layout/layout.h:342-349 | The placed windows among the first k, in order |
| Scroller.CollectCandidates | src/layout/layout.h:321-349 | The collecting pass fills `tempClients` with exactly the placed windows, in order |
| Scroller.ChooseRoot | src/layout/layout.h:363-372 | The root is the focused window when allowed, else the previously focused one, else `center_select` |
| Scroller.FindRoot | src/layout/layout.h:379-391 | The root's position among the placed windows, or 0 and not found |
| Scroller.RootBox | src/layout/layout.h:393-417 | The root's request, centred or edge-aligned when it needs scrolling |
| Scroller.LeftOf | src/layout/layout.h:419-425 | The request gets the window's share of the maximum width (its position is stated by Adjacent) |
| Scroller.RightOf | src/layout/layout.h:427-434 | The request gets the window's share of the maximum width (its position is stated by Adjacent) |
| Scroller.RootStrip | src/layout/layout.h:379-434 | One request per placed window |
| Scroller.ScrollerLayout | src/layout/layout.h:300-437 | `scroller`: the placed windows and the request each gets, in order |
| Scroller.PickRoot | src/layout/layout.h:363-377 | The root choice of `scroller` |
| Scroller.PlaceAround | src/layout/layout.h:379-434 | The root found, its request built and the strip laid out around it |
| Scroller.PlaceStrip | src/layout/layout.h:413-434 | The root, then leftwards, then rightwards, each step reading its neighbour's settled geometry |
| Scroller.PlaceLeft | src/layout/layout.h:419-425 | The leftward loop yields the `LeftOf` chain |
| Scroller.PlaceRight | src/layout/layout.h:427-434 | The rightward loop yields the `RightOf` chain |
| Scroller.StepLeft | src/layout/layout.h:419-425 | One leftward step computes the window's `LeftOf` request from its right neighbour's settled box |
| Scroller.StepRight | src/layout/layout.h:427-434 | One rightward step computes the window's `RightOf` request from its left neighbour's settled box |
| Scroller.StripRow | src/layout/layout.h:393-434 | Every request of the strip lies in the root's row with the height derived from the window area |
| Scroller.FreeSettle | src/maomao.c:5455-5460 | Under the scroller a tiled window keeps the requested position and only gets the minimum size |
| Scroller.Adjacent | src/layout/layout.h:419-434 | Neighbours in the strip are exactly one inner gap apart |
| Scroller.AdjacentLeft | src/layout/layout.h:419-425 | Left of the root, a window ends one inner gap before its right neighbour begins |
| Scroller.AdjacentRight | src/layout/layout.h:427-434 | Right of the root, a window begins one inner gap after its left neighbour ends |
| Scroller.StripDisjoint | src/layout/layout.h:419-434 | The strip never overlaps itself: each window ends at least one gap before any later window begins |
| Scroller.ChainDisjoint | src/layout/layout.h:419-434 | Boxes of positive width chained one gap apart: each ends at least one gap before any later one begins |
| Scroller.SettledStrip | src/layout/layout.h:379-434 | One settled box per window, each where `Settled` puts it |
| Scroller.RootMissingUsesLast | src/layout/layout.h:379-395 | When the root is not placed, the search leaves the last placed window in `c`, whose width and x the request uses |
| Fibonacci.Share | src/layout/layout.h:41 | The factor's share of a length, truncated to an unsigned int |
| Fibonacci.Step | src/layout/layout.h:37-81 | One placed window's step of the cursor rectangle in the four-phase rotation |
| Fibonacci.PlaceAll | src/layout/layout.h:29-85 | The first pass: each placed window gets the cursor rectangle after its step; the others keep their geometry |
| Fibonacci.NeighbourGaps | src/layout/layout.h:93-114 | The right gap is the inner gap exactly when a placed window touches the right edge; the same for the bottom |
| Fibonacci.Trimmed | src/layout/layout.h:116-121 | The second-pass request keeps the window's position; how much it trims is TrimmedIff |
| Fibonacci.SecondPass | src/layout/layout.h:88-122 | Each later window reads the geometries the earlier ones settled on |
| Fibonacci.TrimAll | src/layout/layout.h:88-122 | The second-pass loop computes `SecondPass` |
| Fibonacci.Layout | src/layout/layout.h:1-123 | One geometry per window |
| Fibonacci.FibonacciLayout | src/layout/layout.h:1-123 | The border width and the geometry of every window afterwards equal `Layout` |
| Fibonacci.AloneFillsArea | src/layout/layout.h:23-84 | A window alone gets the whole area inside the outer gaps |
| Fibonacci.TwoWindowsSideBySide | src/layout/layout.h:29-84 | Two windows sit side by side, the first taking its mfact share |
| Fibonacci.TwoWindowsGapApart | src/layout/layout.h:29-84 | Without wrap-around the two share the inner width exactly, one gap apart |
| Fibonacci.TrimmedIff | src/layout/layout.h:93-121 | A window is narrowed exactly when another touches its right edge, and shortened exactly when one touches its bottom |
| Fibonacci.SecondPassKeepsOthers | src/layout/layout.h:88-92 | The second pass only touches placed windows |
| ConfigStrings.LeadRunIs | src/config/parse_config.h:268-291 | A class run ending at the first character outside it is the leading run |
| ConfigStrings.LeadRun | src/config/parse_config.h:274-276 | The longest prefix of class characters: each of them is of the class and the next character is not |
| ConfigStrings.TrailRun | src/config/parse_config.h:280-282 | The longest suffix of class characters: each of them is of the class and the character before it is not |
| ConfigStrings.StripEnds | src/config/parse_config.h:268-291 | The pointer walk returns the input less its leading and trailing class runs |
| ConfigStrings.StrippedShape | src/config/parse_config.h:268-291 | The result is a piece of the input with only class characters around it and none at its ends |
| ConfigStrings.Stripped | src/config/parse_config.h:268-291 | The input with its leading and trailing class characters removed; its shape is StrippedShape and it is the only such piece (StrippedIsUnique) |
| ConfigStrings.StrippedIsUnique | src/config/parse_config.h:268-291 | No other piece has that shape |
| ConfigStrings.AllStripped | src/config/parse_config.h:317-327 | A string made only of class characters strips to empty |
| ConfigStrings.StripIdempotent | src/config/parse_config.h:268-291 | Stripping twice is stripping once |
| ConfigStrings.TokensShape | src/config/parse_config.h:293-314 | Every `strtok` token is nonempty and holds no separator |
| ConfigStrings.Tokens | src/config/parse_config.h:293-314 | The `strtok` tokens: the maximal separator-free runs, in order, empty runs skipped (TokensShape, TokensOfJoin, SplitTokens) |
| ConfigStrings.TokensOfJoin | src/config/parse_config.h:455-527 | Joining two pieces with a separator joins their token lists |
| ConfigStrings.Strtok | src/config/parse_config.h:293-314 | One `strtok` call: separators skipped, then the token up to the next separator, or none left |
| ConfigStrings.SplitTokens | src/config/parse_config.h:293-314 | The `strtok` loop yields exactly the token list |
| ConfigStrings.TokenAt | src/config/parse_config.h:293-314 | A separator-free run ending at a separator is the next token |
| ConfigStrings.Saturate | src/config/parse_config.h:371-378 | `strtol` clamps to the range of `long` |
| ConfigStrings.Strtol | src/config/parse_config.h:371-378 | The end lies within the string, the value within long's range, and nothing consumed gives 0 |
| ConfigStrings.HexVal | src/config/parse_config.h:373 | A digit's value for base 16 is below 16; -1 marks a non-digit |
| ConfigStrings.StrtolEndsOnDigit | src/config/parse_config.h:371-378 | A conversion that consumes something ends just after a digit |
| ConfigParse.LowerPrefix | src/config/parse_config.h:347-369 | The copy loop: at most n characters, lower-cased |
| ConfigParse.ParseDirection | src/config/parse_config.h:347-369 | The direction whose name the lower-cased string is, else UNDIR |
| ConfigParse.DirectionIsExactMatch | src/config/parse_config.h:347-369 | A direction is recognised exactly when the whole lower-cased string is its name |
| ConfigParse.ParseCircleDirection | src/config/parse_config.h:329-345 | 1 exactly when the lower-cased value is `next`; every other value, `prev` included, gives -1 |
| ConfigParse.CircleIsExactMatch | src/config/parse_config.h:329-345 | The same exact-match property for the circle direction |
| ConfigParse.ParseMod | src/config/parse_config.h:455-527 | The copy and the token loop OR each token's modifier bit into the result |
| ConfigParse.MaskUnion | src/config/parse_config.h:455-527 | ORing masks is the union of modifier sets |
| ConfigParse.MaskInjective | src/config/parse_config.h:455-527 | Each modifier has its own bit, so the mask identifies the set |
| ConfigParse.ModOfAppend | src/config/parse_config.h:455-527 | The modifiers of two token lists combine by union |
| ConfigParse.ModOfAny | src/config/parse_config.h:455-527 | A modifier is in the result exactly when some token sets it |
| ConfigParse.ModOrderIndependent | src/config/parse_config.h:455-527 | The order of two `+`-separated parts does not matter, within the 255-character copy |
| ConfigParse.ColorOf | src/config/parse_config.h:371-378 | An empty string gives 0; the value is always within long's range |
| ConfigParse.ColorNeedsHexEnd | src/config/parse_config.h:371-378 | A nonempty string not ending in a hex digit is rejected |
| ConfigParse.HexDigits | src/config/parse_config.h:371-378 | Exactly n digits |
| ConfigParse.HexDigitsValue | src/config/parse_config.h:371-378 | Those digits read back as the value modulo 16^n |
| ConfigParse.ColorRoundTrip | src/config/parse_config.h:371-378 | A colour written as `0x` and eight hex digits parses back to itself |
| ConfigParse.ParseNumType | src/config/parse_config.h:612-621 | `-` gives MINUS, `+` gives PLUS, anything else (the empty string too) DEFAULT |
| ConfigParse.Stored | src/config/parse_config.h:293-314 | The count is -1 or the number of stored values; never more stored than tokens, nor more than the maximum unless none |
| ConfigParse.StoredMeaning | src/config/parse_config.h:293-314 | Without a bad number among the first `max` tokens the count is their number and each slot its token's value; with one the result is -1 |
| ConfigParse.StoredStep | src/config/parse_config.h:293-314 | A good number is stored and the loop goes on |
| ConfigParse.StoredFail | src/config/parse_config.h:293-314 | A bad number ends the parse with -1 |
| ConfigParse.StoredStop | src/config/parse_config.h:293-314 | Out of tokens or room, the count is the number stored |
| ConfigParse.ParseDoubleArray | src/config/parse_config.h:293-314 | The token loop leaves the array and count `Stored` describes, other slots untouched |
| ConfigParse.ConvertToken | src/config/parse_config.h:300-306 | One token trimmed and converted |
| Settings.ClampInt | src/config/parse_config.h:11-13 | The result lies between the bounds (as `int`) and is the value when it already does |
| Settings.ClampReal | src/config/parse_config.h:16-17 | The same for floating point |
| Settings.Override | src/config/parse_config.h:1974-2071 | Every clamped value lies in its range; the lists and curves are copied unchanged |
| Settings.OverrideIdempotent | src/config/parse_config.h:1974-2071 | Applying the clamps twice is applying them once |
| Settings.OverrideKeepsClamped | src/config/parse_config.h:1974-2071 | In-range values pass through unchanged |
| LayoutAbbr.Lookup | src/maomao.c:5834-5838 | The first table entry for the name |
| LayoutAbbr.LastIndex | src/maomao.c:5841-5842 | `strrchr`: the last position holding the character |
| LayoutAbbr.Bracketed | src/maomao.c:5841-5856 | When found, one to four lower-cased characters |
| LayoutAbbr.Letters | src/maomao.c:5859-5872 | Never longer than the name |
| LayoutAbbr.Fallback | src/maomao.c:5876-5882 | At most two lower-case characters, at least one for a nonempty name |
| LayoutAbbr.GetLayoutAbbr | src/maomao.c:5832-5886 | The four attempts with the source's loops: table, brackets, letters, fallback |
| LayoutAbbr.FindInTable | src/maomao.c:5834-5838 | The table loop returns `Lookup` |
| LayoutAbbr.LowerSlice | src/maomao.c:5849-5851 | `len` characters from `start`, lower-cased |
| LayoutAbbr.CollectLetters | src/maomao.c:5859-5868 | The letter loop stops at the end or after three letters |
| LayoutAbbr.LettersPrefix | src/maomao.c:5859-5868 | The letters of a prefix begin the letters of the whole name |
| LayoutAbbr.LettersAreLetters | src/maomao.c:5859-5872 | Every kept character is a lower-case letter, and a name with a letter has a nonempty result |
| LayoutAbbr.AbbrShape | src/maomao.c:5832-5886 | Outside the table every abbreviation is lower case, at most four characters, empty only for an empty name |
| LayoutAbbr.LettersAbbreviate | src/maomao.c:5859-5872 | A name with at least two letters and no brackets or table entry gets its first up to three letters |
| Transaction.Removed | src/common/transaction.c:8-12 | `wl_list_remove`: one element fewer, the others in order |
| Transaction.RemovedMultiset | src/common/transaction.c:8-12 | Removing takes out exactly that one occurrence |
| Transaction.RemovedDistinct | src/common/transaction.c:8-12 | Removal from distinct objects drops that object and keeps the rest distinct |
| Transaction.Context.constructor | src/common/transaction.c:37-46 | A new context has no references, no operations and is not freed |
| Transaction.Context.Add | src/common/transaction.c:49-62 | `dwl_transaction_op_add`: the new operation goes to the tail of the queue |
| Transaction.Context.DestroyOp | src/common/transaction.c:8-12 | The operation at i leaves the queue and the others keep their order |
| Transaction.Context.DestroyAll | src/common/transaction.c:14-19 | Every operation is destroyed, head first; the queue ends empty |
| Transaction.Addon.constructor | src/common/transaction.c:37-46 | A new addon points at its context |
| Transaction.AddonCreate | src/common/transaction.c:37-46 | Without a context a fresh empty one is made; either way it gains one reference and the reference count matches the live addons |
| Transaction.AddonDestroy | src/common/transaction.c:21-34 | One reference fewer, never below zero; the last one destroys every queued operation and frees the context |
| ExtWorkspace.StatesMask | src/ext-protocol/ext-workspace.h:330-340 | The bitfield of a set of state bits |
| ExtWorkspace.CommittedMask | src/ext-protocol/ext-workspace.h:825-862 | Equals `WS_STATE_INVALID` exactly before the first flush |
| ExtWorkspace.CommittedMaskFaithful | src/ext-protocol/ext-workspace.h:655-666 | Comparing the modelled states is comparing the bitfields, so the flush sends exactly when `state != state_pending` |
| ExtWorkspace.SignalOf | src/ext-protocol/ext-workspace.h:500-529 | The five known changes emit their signal on `src`; any other is only logged |
| ExtWorkspace.Purged | src/ext-protocol/ext-workspace.h:803-812 | Never longer than the queue (what it keeps: PurgedMeaning, PurgedClean, PurgedKeepsUnrelated) |
| ExtWorkspace.PurgedMeaning | src/ext-protocol/ext-workspace.h:803-812 | The purge drops exactly the operations naming the object |
| ExtWorkspace.PurgedKeepsUnrelated | src/ext-protocol/ext-workspace.h:803-812 | A queue with nothing naming the object is left as it is |
| ExtWorkspace.PurgedClean | src/ext-protocol/ext-workspace.h:803-812 | No operation left names the object |
| ExtWorkspace.PurgeIdempotent | src/ext-protocol/ext-workspace.h:803-812 | Purging twice is purging once |
| ExtWorkspace.PurgedSignalsNothingFor | src/ext-protocol/ext-workspace.h:500-529 | After a purge a later commit emits no signal on the destroyed object |
| ExtWorkspace.GroupCaps | src/ext-protocol/ext-workspace.h:750 | Holds no workspace capability bit (CapsSplit: nothing is lost) |
| ExtWorkspace.WorkspaceCaps | src/ext-protocol/ext-workspace.h:832 | Shifted down, no bit is left in the workspace half (CapsSplit: nothing is lost) |
| ExtWorkspace.CapsSplit | src/ext-protocol/ext-workspace.h:82-94 | The two halves lose nothing: shifted back and joined they give the manager's capabilities |
| ExtWorkspace.ActivateCapability | src/ext-workspace/tag-worksapce.h:157 | The activate capability is workspace capability bit 0 and gives the group nothing |
| ExtWorkspace.PendingAfter | src/ext-protocol/ext-workspace.h:366-379 | The requested bit gets the requested value, every other pending bit is kept |
| ExtWorkspace.PendingAfterIsUnique | src/ext-protocol/ext-workspace.h:366-379 | Those two facts determine the new pending set |
| ExtWorkspace.IndexOf | src/ext-protocol/ext-workspace.h:1164-1180 | The first position of an element in a list |
| ExtWorkspace.Group.constructor | src/ext-protocol/ext-workspace.h:745-772 | A new group with the given capabilities, no outputs and no workspaces |
| ExtWorkspace.Workspace.constructor | src/ext-protocol/ext-workspace.h:825-862 | The zero-filled workspace: no group or name, an invalid committed state, no pending bits |
| ExtWorkspace.Manager.constructor | src/ext-protocol/ext-workspace.h:713-738 | A manager with the given capabilities, no groups, workspaces or sessions |
| ExtWorkspace.Manager.ScheduleDoneEvent | src/ext-protocol/ext-workspace.h:673-683 | At most one idle source, and none without an event loop |
| ExtWorkspace.Manager.SetState | src/ext-protocol/ext-workspace.h:366-379 | Nothing when the bit already has the value; otherwise only that pending bit flips and a flush is scheduled |
| ExtWorkspace.Manager.IdleSendDone | src/ext-protocol/ext-workspace.h:651-667 | Each workspace whose pending state differs commits it and is reported as sent; the idle source is gone |
| ExtWorkspace.Manager.CreateGroup | src/ext-protocol/ext-workspace.h:745-772 | The group gets the group half of the capabilities and joins the tail of the list |
| ExtWorkspace.Manager.CreateWorkspace | src/ext-protocol/ext-workspace.h:825-862 | The workspace gets the workspace half of the capabilities, an invalid committed state and no pending bits, and joins the tail |
| ExtWorkspace.Manager.AssignToGroup | src/ext-protocol/ext-workspace.h:868-891 | Nothing for the current group; otherwise the workspace moves and a flush is scheduled |
| ExtWorkspace.Manager.SetName | src/ext-protocol/ext-workspace.h:897-911 | The name is replaced when it differs; a flush is scheduled either way |
| ExtWorkspace.Manager.GroupOutputEnter | src/ext-protocol/ext-workspace.h:1129-1158 | An output already in the group changes nothing; a new one goes to the head |
| ExtWorkspace.Manager.GroupOutputLeave | src/ext-protocol/ext-workspace.h:1164-1180 | The first entry for the output is removed; an unknown output is only logged |
| ExtWorkspace.Manager.Commit | src/ext-protocol/ext-workspace.h:490-530 | Every queued operation of the session gives its signal in order and the queue ends empty |
| ExtWorkspace.Manager.PurgeSession | src/ext-protocol/ext-workspace.h:999-1003 | One session's queue becomes `Purged` of itself |
| ExtWorkspace.Manager.PurgeOne | src/ext-protocol/ext-workspace.h:999-1003 | One step: the operation is destroyed when it names the object, otherwise kept |
| ExtWorkspace.Manager.PurgeAll | src/ext-protocol/ext-workspace.h:995-1004 | The purge over every bound session |
| ExtWorkspace.Manager.UnassignGroup | src/ext-protocol/ext-workspace.h:778-818 | Every workspace of the group loses it; the others keep theirs |
| ExtWorkspace.Manager.GroupDestroy | src/ext-protocol/ext-workspace.h:778-818 | Its outputs leave (the destroy signal's listener), its workspaces lose it, operations naming it as `src` or `data` are purged, a flush is scheduled, and it leaves the list |
| ExtWorkspace.Manager.WorkspaceDestroy | src/ext-protocol/ext-workspace.h:971-1013 | Operations with the workspace as `src` are purged and it leaves the list |
| ExtWorkspace.HandleWorkspaceRequest | src/ext-protocol/ext-workspace.h:215-274 | A request queues one operation on the session; an inert resource is ignored |
| ExtWorkspace.HandleAssign | src/ext-protocol/ext-workspace.h:244-260 | The new group travels as `data`; either resource being inert drops the request |
| ExtWorkspace.HandleCreateWorkspace | src/ext-protocol/ext-workspace.h:398-417 | The group is `src` and the requested name travels as `data` |
| ExtWorkspace.NameFromTag | src/ext-protocol/ext-workspace.h:1213-1217 | A name exactly for tags 0 to 9 (which one: TagNameAgreesWithExtNames) |
| TagWorkspace.TagName | src/ext-workspace/tag-worksapce.h:94-125 | A nonempty name, the digit for tags 1 to 9 |
| TagWorkspace.TagNameAgreesWithExtNames | src/ext-workspace/tag-worksapce.h:94-125 | Those names agree with `get_name_from_tag` for every tag |
| TagWorkspace.TagWs.constructor | src/ext-workspace/tag-worksapce.h:126-129 | A workspace record with its name, tag and ext-workspace, its tree enabled |
| TagWorkspace.Workspaces.constructor | src/ext-workspace/tag-worksapce.h:152-168 | The workspaces of tags 0 to 9 in order with their names, only the first current, enabled and active |
| TagWorkspace.Workspaces.AddWorkspace | src/ext-workspace/tag-worksapce.h:91-149 | The new workspace goes to the tail, becomes current when there is none and is hidden otherwise; its ext-workspace is active exactly when it is current |
| TagWorkspace.Workspaces.CreateExt | src/ext-workspace/tag-worksapce.h:137-144 | The ext-workspace is in the group, named and active as asked |
| TagWorkspace.Workspaces.SwitchTo | src/ext-workspace/tag-worksapce.h:42-77 | Nothing for the current workspace; otherwise the old is hidden and deactivated; the overview toggles the overview; a tag is viewed, shown, activated and made current; exactly the current workspace stays active |
| DwlIpc.StateBits | src/ext-protocol/dwl-ipc.h:119-133 | The state argument: active when selected, urgent when a counted client is |
| DwlIpc.CountOn | src/ext-protocol/dwl-ipc.h:123-132 | The number of the monitor's clients carrying the tag |
| DwlIpc.CountOnIsCardinality | src/ext-protocol/dwl-ipc.h:123-132 | That count is exactly the number of positions holding such a client |
| DwlIpc.AnyUrgent | src/ext-protocol/dwl-ipc.h:123-132 | True exactly when some counted client is urgent |
| DwlIpc.HasFocused | src/ext-protocol/dwl-ipc.h:123-132 | True exactly when the focused client is one of the counted ones |
| DwlIpc.TagStatusMeaning | src/ext-protocol/dwl-ipc.h:118-136 | Each tag event: active when selected, the client count, urgent when one is, and whether the focused client is among them |
| DwlIpc.TagSummary | src/ext-protocol/dwl-ipc.h:118-136 | The loop body computes the tag's summary |
| DwlIpc.TagMasksAreBits | src/maomao.c:103 | The tag mask table holds each tag's bit |
| DwlIpc.PrintStatusTags | src/ext-protocol/dwl-ipc.h:110-179 | The tag events of one status update, tags 0 to 8 in order |
| DwlIpc.NewClientTags | src/ext-protocol/dwl-ipc.h:181-208 | `(tags & and) ^ xor` or none: xor-ing a stored result back gives `tags & and` |
| DwlIpc.NewClientTagsDropped | src/ext-protocol/dwl-ipc.h:199-203 | The request is dropped exactly when the result is zero, and a stored result is never zero |
| DwlIpc.ToggleTwice | src/ext-protocol/dwl-ipc.h:181-208 | Toggling with `and = ~0` twice restores the client's tags |
| DwlIpc.ReplaceTags | src/ext-protocol/dwl-ipc.h:181-208 | `and = 0` replaces the tags by `xor`, unless that is empty |
| DwlIpc.SetClientTags | src/ext-protocol/dwl-ipc.h:181-208 | Nothing without a monitor, a focused client or a nonempty result; otherwise the client gets `NewClientTags` |
| DwlIpc.LayoutIndex | src/ext-protocol/dwl-ipc.h:210-227 | Out-of-range requests fall back to the first layout |
| DwlIpc.SetLayout | src/ext-protocol/dwl-ipc.h:210-227 | The current tag's layout becomes the chosen one; every other tag keeps its own |
| DwlIpc.SetTags | src/ext-protocol/dwl-ipc.h:229-242 | `view_in_mon` on the request masked to the real tags |
| DwlIpc.SetTagsEffect | src/ext-protocol/dwl-ipc.h:234-241 | In the overview or with no real tag nothing changes; otherwise the requested real tags become the selected tagset |

## Left out

- Wayland and wlroots plumbing is not modelled: scene-graph nodes, `send_*` events, resources, listeners, the event loop and the seat. Only the fields the core reads and writes are kept. The scene tree of a window or workspace is a boolean.
- The pointer re-enter at the end of an animation (`xytonode`, `wlr_seat_pointer_notify_enter`) is an I/O effect on the seat, so it is not modelled.
- Opacity and buffer scaling (`client_set_opacity`, `buffer_set_effect`) are rendering effects, so they are not modelled.
- The size hints sent with `client_set_size` and `client_set_bounds` are not modelled: they go to the client.
- Floating point is modelled as exact rationals, so IEEE rounding is not. For example, 200 ms at 16.666… ms per frame gives 12 frames here where the C code may get 11.
- Conversions of huge doubles to `int` are modelled by truncation and wrap-around, as x86-64 does them. C leaves them undefined.
- `strtod` is a parameter: `ConfigParse.Converted` takes the numbers the C library would read.
- NULL string arguments to the parsers are not modelled: every string is a value.
- Parse_mod's tokens are modelled as the `strtok` token list of the copied string, so `ConfigParse.ModOrderIndependent` covers only strings within the 255-character copy.
- The global `config` tables are parameters: the layout table, the abbreviation table, the tag rules and the gesture bindings. `config.h`, which fills them, is not part of this model.
- The keyboard lookup of `ongesture` (`wlr_seat_get_keyboard`) is a parameter: the modifier mask.
- Binding functions and the functions they call are not modelled: they are foreign calls. `Gesture.OnGesture` reports which bindings ran.
- Layouts call `resize` for each request. Here they return the requests and, where a later step reads it, the geometry `resize` settles on. The animation side of each such `resize` is in `AnimationDriver.Resize`.
- `scroller`'s `malloc` failure of `tempClients` is not modelled. The allocation is a sequence.
- `deck`'s and the scroller's `wlr_scene_node_raise_to_top` are scene-graph effects, so they are not modelled.
- The layout call at the end of `arrange` (src/maomao.c:2154-2158) is not part of `Arrange.ArrangeMon`: each layout is modelled on its own. The `motionnotify` and `checkidleinhibitor` calls after it are pointer and idle-inhibit I/O, so they are not modelled. `reset_maxmizescreen_size` is modelled, as `Arrange.ResetMaxSize`.
- Arrange.ArrangeMon: the tiled-window count and the swallower rectangle that each `resize` of the pass reads are returned in ghost contexts (`ArrangeCtx` fixes their other fields). They are not tied to the list state at the moment of that call.
- AnimationDriver.Resize: `scroller` is a parameter that stands for the selected monitor's layout being the scroller. The model does not require it to equal `IsScroller(selmon)`; `Arrange.ArrangeMon` passes exactly that value.
- Render.RenderMon: its contract states the frame decision and which ghosts survive. It does not repeat each window's drawn state or each ghost's tick. `Render.DrawClients` and `Render.TickGhosts` state those, and `RenderMon` calls them.
- The `focusclient` call in `arrange` for a global window is not modelled: the focus stack is not part of this model.
- `exchange_two_client` ends with `arrange` and `focusclient`. The `arrange` is left to the caller and the focus is not modelled.
- `apply_window_snap`'s final `resize` is the separate `AnimationDriver.Resize`.
- The dwl-ipc title, appid, geometry and layout events of a status update are not modelled: they are event payloads.
- The `arrange`, `focusclient` and `printstatus` calls after an IPC request are not modelled.
- The copy of the dwl-ipc handlers inside `src/maomao.c` (lines 3822-3954) is the same code as `src/ext-protocol/dwl-ipc.h`. It is modelled once, from the header.
- DwlIpc.NewClientTags: the per-tag statement of which bits a request keeps, adds or drops is stated only for `and = ~0` and `and = 0` (`ToggleTwice`, `ReplaceTags`).
- Addon reference counts that come from Wayland resources are not modelled. `Transaction.AddonCreate` assigns `addon->data` as the caller does.
- `wl_list_append` is read as an insertion at the tail. `util.c` and `list.h` are not part of this model.
- TagWorkspace.Workspaces.AddWorkspace requires a tag up to 9: `xstrdup(NULL)` for a larger one is not modelled.
- `add_workspace` creates the ext-workspace before the workspace record. The model keeps that order but does not model a failed allocation.
- The `view` and `toggleoverview` calls of `workspaces_switch_to` are returned as a `Request`: they belong to the compositor the switcher calls into.
- `is_special_animaiton_rule`'s ties in `set_open_animaiton` are modelled, but its reading of the global `new_is_master` is a parameter.
- `client_get_clip` reports the surface's own clip, which is a parameter of `Border.ApplyClip`.
- AnimationDriver.Commit: runs the corrected frame count `Animation.TotalFrames`, at least one frame, in place of the truncated `duration / output_frame_duration_ms()` of src/maomao.c:3120-3121. The count as written is `Animation.TotalFramesAsWritten`; its zero-frame case is the first row of "## Findings".
- Animation.CommitAnim: uses the same corrected `TotalFrames`, so no committed animation in the model has zero frames.
- FadeOut.InitFadeoutClient: runs the corrected `FadeTarget` and `TotalFrames`. It does not use the upward target of src/maomao.c:7171-7175 (`FadeOut.FadeTargetAsWritten`) or the truncated count of src/maomao.c:7192-7194. Both are rows of "## Findings".
- TagOps.ViewToRight: runs the capped `Tags.ViewToRightSpec`. It does not use the `curtag + 1` of src/maomao.c:7597-7601 (`Tags.ViewToRightAsWritten`), because `Monitor.Valid` keeps the per-tag index inside the per-tag arrays. The overflow is a row of "## Findings".
- AnimationDriver.Commit: `refreshTotal` is a parameter. It stands for `Animation.RefreshSum` of the monitor list, which `Animation.RefreshTotal` computes, but the model does not require that equality. The same holds for `refreshTotal` in `AnimationDriver.Resize`, `Arrange.ArrangeClient`, `Arrange.ArrangeEnabled` and `Arrange.ArrangeMon`.
- Neighbour.Dist: the squared distance is an unbounded integer. In src/maomao.c:2354-2357 `dis_x * dis_x + dis_y * dis_y` is computed in `int` before it is widened to `long long`. It overflows once the sum passes 2^31 - 1, for corners more than about 32767 pixels apart on both axes. The model does not capture that overflow.
- Scroller.CenterSelect: the squared distance to the centre is an unbounded integer. In src/maomao.c:2194 `dirx * dirx + diry * diry` is computed in `int` before it is widened to `long`, so it overflows in the same way. The model does not capture that overflow.
- Memory is not modelled: `free`, `ecalloc` failures and the final unlink of a freed ghost. `Render.TickGhosts` reports which ghosts remain.

## Findings

| source | as written | input that shows it | evidently intended | confidence | as-written member | corrected member |
|---|---|---|---|---|---|---|
| src/maomao.c:3120-3121 | `total_frames = duration / output_frame_duration_ms()` may be 0; progress `0/0` is NaN, then `1/0` is +inf, and the test `animation_passed == 1.0` never holds, so the animation (and a fade-out ghost) never ends | `animation_duration_move = 10` at one 60 Hz output: 10 × 60000 / 10^6 = 0 frames | at least one frame, so the tick at progress 1.0 is reached | not executed | Animation.ZeroFramesNeverFinish | Animation.CommittedAnimationFinishes |
| src/maomao.c:7582-7609 | `viewtoright` sets `curtag + 1` even from the last tag, so the pertag index can reach 10, past the end of the per-tag arrays | tags 8 and 9 shown (`0x180`), tag 9 current | the index capped at LENGTH(tags), as `viewtoright_have_client` does | not executed | Tags.ViewToRightOverflows | Tags.ViewToRightKeepsValid |
| src/maomao.c:7171-7175 | the "up" fade-out target `m.y - geom.height` is an absolute coordinate, but the ghost's coordinates are offsets from where the window was drawn | a window at y = 1200 on a monitor whose top is at 1080: the ghost moves down by 540 instead of up | the offset `m.y - drawn.y - geom.height`, which ends with the ghost's bottom on the monitor's top edge | not executed | FadeOut.FadeUpOutMovesDown | FadeOut.FadeSlideLeavesMonitor |
