/** `monocle`: every window it places fills the monitor's window area. */
module Monocle {
  import opened Opt
  import opened Geometry
  import opened LayoutBase

  /** The windows `monocle` places. */
  predicate Eligible(w: Win, m: LMon) {
    VisibleOn(w, m) && !w.isfloating && !w.isfullscreen && !w.ismaxmizescreen && !w.iskilling && !w.tagouting
  }

  /** `monocle(m)`: the resize request of each window in list order
    * (`None`: not resized). */
  method MonocleLayout(ws: seq<Win>, m: LMon) returns (reqs: seq<Option<Box>>)
    ensures |reqs| == |ws|
    ensures forall k :: 0 <= k < |ws| ==> reqs[k] == if Eligible(ws[k], m) then Some(m.w) else None
  {
    reqs := [];
    var k := 0;
    while k < |ws|
      invariant k <= |ws| && |reqs| == k
      invariant forall j :: 0 <= j < k ==> reqs[j] == if Eligible(ws[j], m) then Some(m.w) else None
    {
      if Eligible(ws[k], m) {
        reqs := reqs + [Some(m.w)];
      } else {
        reqs := reqs + [None];
      }
      k := k + 1;
    }
  }
}
