/** `ongesture`, the end of a touchpad swipe: a swipe that is not
  * cancelled and is long enough gets a direction from its dominant axis,
  * and every gesture binding with the same modifiers (Caps Lock aside),
  * finger count and direction runs. */
module Gesture {
  import opened CNum
  import opened Geometry

  /** `WLR_MODIFIER_CAPS`. */
  const CAPS: bv32 := 2

  /** A `GestureBinding`; `hasFunc` says its function pointer is set.
    * The swipe enum and the direction enum list up, down, left and right
    * in the same order, so a binding's direction compares as one. */
  datatype GestureBinding = GestureBinding(mods: bv32, motion: Direction, fingers: int, hasFunc: bool)

  function Abs(r: real): real { if r < 0.0 then -r else r }

  /** `(unsigned)(int)round(fabs(d))`. */
  function Magnitude(d: real): (r: int)
    ensures 0 <= r < TWO_32
  {
    U32(Round(Abs(d)))
  }

  /** The distance test: the unsigned sum of squares against the squared
    * threshold. */
  predicate LongEnough(dx: real, dy: real, threshold: int) {
    U32(Sq(Magnitude(dx)) + Sq(Magnitude(dy))) >= U32(Sq(threshold))
  }

  function Sq(n: int): int { n * n }

  /** The direction of the dominant axis; a tie counts as vertical. */
  function Motion(dx: real, dy: real): Direction {
    if Magnitude(dx) > Magnitude(dy) then (if dx < 0.0 then Left else Right)
    else (if dy < 0.0 then Up else Down)
  }

  function CleanMask(m: bv32): bv32 { m & !CAPS }

  predicate Fires(b: GestureBinding, mods: bv32, fingers: int, motion: Direction) {
    CleanMask(mods) == CleanMask(b.mods) && fingers == b.fingers && motion == b.motion && b.hasFunc
  }

  /** The indices of the bindings among the first `k` that run, in order. */
  function FiredUpTo(bs: seq<GestureBinding>, k: nat, mods: bv32, fingers: int, motion: Direction): (r: seq<nat>)
    requires k <= |bs|
    ensures forall i :: 0 <= i < |r| ==> r[i] < k
  {
    if k == 0 then []
    else FiredUpTo(bs, k - 1, mods, fingers, motion) + (if Fires(bs[k - 1], mods, fingers, motion) then [k - 1] else [])
  }

  /** The bindings the swipe runs: none for a cancelled or short swipe. */
  function Fired(cancelled: bool, dx: real, dy: real, threshold: int, mods: bv32, fingers: int,
                 bs: seq<GestureBinding>): seq<nat> {
    if cancelled || !LongEnough(dx, dy, threshold) then []
    else FiredUpTo(bs, |bs|, mods, fingers, Motion(dx, dy))
  }

  /** The handler: it runs the matching bindings in order and reports
    * whether any ran. */
  method OnGesture(cancelled: bool, dx: real, dy: real, threshold: int, mods: bv32, fingers: int,
                   bs: seq<GestureBinding>) returns (handled: bool, fired: seq<nat>)
    ensures fired == Fired(cancelled, dx, dy, threshold, mods, fingers, bs)
    ensures handled <==> |fired| > 0
  {
    if cancelled || !LongEnough(dx, dy, threshold) {
      return false, [];
    }
    handled, fired := RunBindings(bs, mods, fingers, Motion(dx, dy));
  }

  /** The loop of the handler over the binding table. */
  method RunBindings(bs: seq<GestureBinding>, mods: bv32, fingers: int, motion: Direction)
    returns (handled: bool, fired: seq<nat>)
    ensures fired == FiredUpTo(bs, |bs|, mods, fingers, motion)
    ensures handled <==> |fired| > 0
  {
    fired := [];
    handled := false;
    var i: nat := 0;
    while i < |bs|
      invariant i <= |bs|
      invariant fired == FiredUpTo(bs, i, mods, fingers, motion)
      invariant handled <==> |fired| > 0
    {
      if Fires(bs[i], mods, fingers, motion) {
        fired := fired + [i];
        handled := true;
      }
      i := i + 1;
    }
  }

  /** Exactly the matching bindings run, each once, in table order. */
  lemma {:induction false} FiredAreMatching(bs: seq<GestureBinding>, k: nat, mods: bv32, fingers: int, motion: Direction)
    requires k <= |bs|
    ensures var r := FiredUpTo(bs, k, mods, fingers, motion);
            (forall i :: 0 <= i < k ==> (i in r <==> Fires(bs[i], mods, fingers, motion)))
            && (forall a, b :: 0 <= a < b < |r| ==> r[a] < r[b])
  {
    if k > 0 {
      FiredAreMatching(bs, k - 1, mods, fingers, motion);
    }
  }

  function Opposite(d: Direction): Direction {
    match d
    case Up => Down
    case Down => Up
    case Left => Right
    case Right => Left
    case Undir => Undir
  }

  /** A swipe long enough to count has a nonzero dominant component, so
    * the reverse swipe gets the opposite direction. */
  lemma ReverseSwipe(dx: real, dy: real, threshold: int)
    requires 1 <= threshold <= 1000 && LongEnough(dx, dy, threshold)
    ensures Motion(-dx, -dy) == Opposite(Motion(dx, dy))
  {
    MagnitudeOfNegation(dx);
    MagnitudeOfNegation(dy);
    SomeMagnitude(dx, dy, threshold);
    if Magnitude(dx) > Magnitude(dy) {
      ZeroMagnitude(dx);
    } else {
      ZeroMagnitude(dy);
    }
  }

  lemma MagnitudeOfNegation(d: real)
    ensures Magnitude(-d) == Magnitude(d)
  {
    assert Abs(-d) == Abs(d);
  }

  /** The distance test fails for a swipe that rounds to no movement. */
  lemma SomeMagnitude(dx: real, dy: real, threshold: int)
    requires 1 <= threshold <= 1000 && LongEnough(dx, dy, threshold)
    ensures Magnitude(dx) != 0 || Magnitude(dy) != 0
  {
    SquareBounds(threshold);
    assert Magnitude(dx) == 0 && Magnitude(dy) == 0 ==> Sq(Magnitude(dx)) + Sq(Magnitude(dy)) == 0;
  }

  lemma SquareBounds(t: int)
    requires 1 <= t <= 1000
    ensures 1 <= Sq(t) <= 1000000
  {
    MulLe(t, t, 1000);
    MulLe(1000, t, 1000);
  }

  lemma MulLe(a: int, b: int, c: int)
    requires 0 <= a && b <= c
    ensures a * b <= a * c
  {
    assert a * c - a * b == a * (c - b);
  }

  lemma ZeroMagnitude(d: real)
    ensures d == 0.0 ==> Magnitude(d) == 0
  {
  }
}
