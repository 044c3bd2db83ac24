/** The animation easing curves: a cubic Bezier per animation kind, baked
  * into 256-entry tables once, and looked up per frame by bisection. */
module Curve {
  import opened CNum

  const BAKED_POINTS_COUNT: nat := 256
  const LAST: nat := 255

  datatype Vec2 = Vec2(x: real, y: real)

  /** The four control values of one configured curve
    * (`animation_curve_*[0..3]`): control point (c0, c1) and (c2, c3); the
    * end points are fixed at (0, 0) and (1, 1). */
  datatype Control = Control(c0: real, c1: real, c2: real, c3: real)

  /** Animation kinds, in the order of the source's enum (NONE = 0 ...). */
  datatype Action = NoAction | Open | Move | Close | Tag

  datatype Curves = Curves(move: Control, open: Control, tag: Control, close: Control)

  /** The curve of an animation kind; anything else uses the move curve. */
  function CurveFor(cs: Curves, a: Action): (c: Control)
    ensures a.Open? ==> c == cs.open
    ensures a.Tag? ==> c == cs.tag
    ensures a.Close? ==> c == cs.close
    ensures (a.Move? || a.NoAction?) ==> c == cs.move
  {
    match a
    case Open => cs.open
    case Tag => cs.tag
    case Close => cs.close
    case _ => cs.move
  }

  /** `calculate_animation_curve_at`: the Bezier point at parameter `t`. */
  function CurveAt(t: real, c: Control): (p: Vec2)
    ensures t == 0.0 ==> p == Vec2(0.0, 0.0)
    ensures t == 1.0 ==> p == Vec2(1.0, 1.0)
  {
    Vec2(3.0 * t * (1.0 - t) * (1.0 - t) * c.c0 + 3.0 * t * t * (1.0 - t) * c.c2 + t * t * t,
         3.0 * t * (1.0 - t) * (1.0 - t) * c.c1 + 3.0 * t * t * (1.0 - t) * c.c3 + t * t * t)
  }

  /** A control value between 0 and 1 keeps one coordinate of the curve in
    * [0, 1] on the whole parameter range. */
  lemma MulNonneg(a: real, b: real)
    requires 0.0 <= a && 0.0 <= b
    ensures 0.0 <= a * b
  {
  }

  lemma CurveCoordinateBounded(t: real, a: real, b: real)
    requires 0.0 <= t <= 1.0 && 0.0 <= a <= 1.0 && 0.0 <= b <= 1.0
    ensures 0.0 <= 3.0 * t * (1.0 - t) * (1.0 - t) * a + 3.0 * t * t * (1.0 - t) * b + t * t * t <= 1.0
  {
    var s := 1.0 - t;
    var p := 3.0 * t * s * s;
    var q := 3.0 * t * t * s;
    MulNonneg(t, t);
    MulNonneg(t * t, t);
    MulNonneg(s, s);
    MulNonneg(s * s, s);
    MulNonneg(3.0 * t, s);
    MulNonneg(3.0 * t * s, s);
    MulNonneg(3.0 * t, t);
    MulNonneg(3.0 * t * t, s);
    MulNonneg(p, a);
    MulNonneg(q, b);
    MulNonneg(p, 1.0 - a);
    MulNonneg(q, 1.0 - b);
    assert p + q + t * t * t + s * s * s == 1.0;
  }

  lemma CurveAtBounded(t: real, c: Control)
    requires 0.0 <= t <= 1.0
    requires 0.0 <= c.c0 <= 1.0 && 0.0 <= c.c2 <= 1.0
    ensures 0.0 <= CurveAt(t, c).x <= 1.0
  {
    CurveCoordinateBounded(t, c.c0, c.c2);
  }

  /** The parameter value of table entry `i`: `(double)i / 255`. */
  function SampleT(i: nat): real { i as real / LAST as real }

  /** The table `init_baked_points` stores for one curve. */
  ghost predicate IsBaked(xs: seq<Vec2>, c: Control) {
    |xs| == BAKED_POINTS_COUNT && forall i :: 0 <= i < |xs| ==> xs[i] == CurveAt(SampleT(i), c)
  }

  /** Every x of a baked table of a curve whose x-controls lie in [0, 1] is
    * in [0, 1], and the last entry is the end point (1, 1). */
  lemma BakedXBounded(xs: seq<Vec2>, c: Control)
    requires IsBaked(xs, c)
    requires 0.0 <= c.c0 <= 1.0 && 0.0 <= c.c2 <= 1.0
    ensures forall i :: 0 <= i < |xs| ==> 0.0 <= xs[i].x <= 1.0
    ensures xs[LAST] == Vec2(1.0, 1.0) && xs[0] == Vec2(0.0, 0.0)
  {
    forall i | 0 <= i < |xs|
      ensures 0.0 <= xs[i].x <= 1.0
    {
      CurveAtBounded(SampleT(i), c);
    }
    assert SampleT(LAST) == 1.0;
  }

  /** The bisection `find_animation_curve_at` performs, as a recursive
    * function: it keeps `down < up` and narrows the interval until the two
    * are adjacent, then answers with `up`. */
  function Bisect(xs: seq<Vec2>, t: Double, down: nat, up: nat): (r: nat)
    requires down < up < |xs|
    ensures down < r <= up
    decreases up - down
  {
    if up - down == 1 then up
    else
      var middle := (up + down) / 2;
      if LeD(xs[middle].x, t) then Bisect(xs, t, middle, up) else Bisect(xs, t, down, middle)
  }

  /** The index of the table entry whose y is the eased value of `t`. */
  function LookupIndex(xs: seq<Vec2>, t: Double): (r: nat)
    requires |xs| == BAKED_POINTS_COUNT
    ensures 1 <= r <= LAST
  {
    Bisect(xs, t, 0, LAST)
  }

  /** The eased value of `t` (`find_animation_curve_at`). */
  function Lookup(xs: seq<Vec2>, t: Double): real
    requires |xs| == BAKED_POINTS_COUNT
  {
    xs[LookupIndex(xs, t)].y
  }

  /** The interval invariant of the bisection: `down` is the first entry or
    * one whose x is at most `t`; `up` is the last entry or one whose x
    * exceeds `t`. */
  predicate Bracket(xs: seq<Vec2>, t: Double, down: nat, up: nat)
    requires down < up < |xs|
  {
    (down == 0 || LeD(xs[down].x, t)) && (up == |xs| - 1 || !LeD(xs[up].x, t))
  }

  lemma {:induction false} BisectKeepsBracket(xs: seq<Vec2>, t: Double, down: nat, up: nat)
    requires down < up < |xs|
    requires Bracket(xs, t, down, up)
    ensures Bracket(xs, t, Bisect(xs, t, down, up) - 1, Bisect(xs, t, down, up))
    decreases up - down
  {
    if up - down != 1 {
      var middle := (up + down) / 2;
      if LeD(xs[middle].x, t) {
        BisectKeepsBracket(xs, t, middle, up);
      } else {
        BisectKeepsBracket(xs, t, down, middle);
      }
    }
  }

  /** The answer brackets `t`: the entry before it is the first or has
    * x <= t, and it is the last or has x > t. */
  lemma LookupBrackets(xs: seq<Vec2>, t: Double)
    requires |xs| == BAKED_POINTS_COUNT
    ensures Bracket(xs, t, LookupIndex(xs, t) - 1, LookupIndex(xs, t))
  {
    BisectKeepsBracket(xs, t, 0, LAST);
  }

  /** When no table x exceeds `t` the lookup answers with the last entry. */
  lemma LookupAtOrPastEnd(xs: seq<Vec2>, t: Double)
    requires |xs| == BAKED_POINTS_COUNT
    requires forall i :: 0 <= i < |xs| ==> LeD(xs[i].x, t)
    ensures LookupIndex(xs, t) == LAST
  {
    LookupBrackets(xs, t);
  }

  /** A NaN parameter fails every comparison, so the lookup lands on entry 1. */
  lemma LookupNaN(xs: seq<Vec2>)
    requires |xs| == BAKED_POINTS_COUNT
    ensures LookupIndex(xs, NaN) == 1
  {
    LookupBrackets(xs, NaN);
  }

  /** Reference definition: the first entry after the first one whose x
    * exceeds `t`, or the last entry when there is none. */
  function FirstAbove(xs: seq<Vec2>, t: Double, from: nat): (r: nat)
    requires 1 <= from <= |xs| - 1
    ensures from <= r <= |xs| - 1
    decreases |xs| - from
  {
    if from == |xs| - 1 || !LeD(xs[from].x, t) then from else FirstAbove(xs, t, from + 1)
  }

  predicate SortedX(xs: seq<Vec2>) {
    forall i, j :: 0 <= i <= j < |xs| ==> xs[i].x <= xs[j].x
  }

  lemma {:induction false} FirstAboveIsBracketed(xs: seq<Vec2>, t: Double, from: nat, r: nat)
    requires 1 <= from <= r < |xs| == BAKED_POINTS_COUNT
    requires SortedX(xs)
    requires from == 1 || LeD(xs[from - 1].x, t)
    requires Bracket(xs, t, r - 1, r)
    ensures FirstAbove(xs, t, from) == r
    decreases |xs| - from
  {
    if from < r {
      assert LeD(xs[from].x, t) by {
        assert xs[from].x <= xs[r - 1].x;
      }
      FirstAboveIsBracketed(xs, t, from + 1, r);
    }
  }

  /** On a table sorted by x the bisection finds exactly the first entry
    * whose x exceeds `t`. */
  lemma LookupIsFirstAbove(xs: seq<Vec2>, t: Double)
    requires |xs| == BAKED_POINTS_COUNT
    requires SortedX(xs)
    ensures LookupIndex(xs, t) == FirstAbove(xs, t, 1)
  {
    LookupBrackets(xs, t);
    FirstAboveIsBracketed(xs, t, 1, LookupIndex(xs, t));
  }

  /** A baked curve with x-controls in [0, 1] eases progress 1.0, and any
    * +inf progress, to exactly 1. */
  lemma LookupAtEndIsOne(xs: seq<Vec2>, c: Control, t: Double)
    requires IsBaked(xs, c)
    requires 0.0 <= c.c0 <= 1.0 && 0.0 <= c.c2 <= 1.0
    requires t == Finite(1.0) || t == PosInf
    ensures Lookup(xs, t) == 1.0
  {
    BakedXBounded(xs, c);
    LookupAtOrPastEnd(xs, t);
  }

  /** A table that eases progress 1.0 to exactly 1, as the lookup reads
    * it. */
  predicate EasesToOne(xs: seq<Vec2>) {
    |xs| == BAKED_POINTS_COUNT && Lookup(xs, Finite(1.0)) == 1.0
  }

  /** Every table baked from a curve whose x-controls lie in [0, 1] eases
    * 1.0 to 1. */
  lemma BakedEasesToOne(xs: seq<Vec2>, c: Control)
    requires IsBaked(xs, c) && 0.0 <= c.c0 <= 1.0 && 0.0 <= c.c2 <= 1.0
    ensures EasesToOne(xs)
  {
    LookupAtEndIsOne(xs, c, Finite(1.0));
  }

  /** The four baked tables as values. */
  datatype Tables = Tables(move: seq<Vec2>, open: seq<Vec2>, tag: seq<Vec2>, close: seq<Vec2>)
  {
    predicate Sized() {
      |move| == BAKED_POINTS_COUNT && |open| == BAKED_POINTS_COUNT
      && |tag| == BAKED_POINTS_COUNT && |close| == BAKED_POINTS_COUNT
    }

    /** The table of an animation kind (the move table for anything else). */
    function For(a: Action): (t: seq<Vec2>)
      ensures Sized() ==> |t| == BAKED_POINTS_COUNT
    {
      match a
      case Open => open
      case Tag => tag
      case Close => close
      case _ => move
    }
  }

  /** The four baked tables (`baked_points_move`, `_open`, `_tag`,
    * `_close`). */
  class BakedTables {
    var move: array<Vec2>
    var open: array<Vec2>
    var tag: array<Vec2>
    var close: array<Vec2>
    ghost var curves: Curves

    ghost predicate Valid()
      reads this, move, open, tag, close
    {
      IsBaked(move[..], curves.move) && IsBaked(open[..], curves.open)
      && IsBaked(tag[..], curves.tag) && IsBaked(close[..], curves.close)
    }

    /** The table of an animation kind (the move table for anything else). */
    function TableFor(a: Action): (t: array<Vec2>)
      reads this
      ensures a.Open? ==> t == open
      ensures a.Tag? ==> t == tag
      ensures a.Close? ==> t == close
      ensures (a.Move? || a.NoAction?) ==> t == move
    {
      match a
      case Open => open
      case Tag => tag
      case Close => close
      case _ => move
    }

    /** The contents of the four tables. */
    function Values(): (v: Tables)
      reads this, move, open, tag, close
      ensures Sized() ==> v.Sized()
      ensures forall a :: v.For(a) == TableFor(a)[..]
    {
      Tables(move[..], open[..], tag[..], close[..])
    }

    /** Every table has `BAKED_POINTS_COUNT` entries, all the lookup needs. */
    predicate Sized()
      reads this
    {
      move.Length == BAKED_POINTS_COUNT && open.Length == BAKED_POINTS_COUNT
      && tag.Length == BAKED_POINTS_COUNT && close.Length == BAKED_POINTS_COUNT
    }

    lemma TableForIsBaked(a: Action)
      requires Valid()
      ensures IsBaked(TableFor(a)[..], CurveFor(curves, a))
    {
    }

    /** `init_baked_points`: each table holds the curve sampled at i / 255. */
    constructor (cs: Curves)
      ensures Valid() && Sized() && curves == cs
      ensures fresh(move) && fresh(open) && fresh(tag) && fresh(close)
    {
      var m := Bake(cs.move);
      var o := Bake(cs.open);
      var t := Bake(cs.tag);
      var c := Bake(cs.close);
      curves, move, open, tag, close := cs, m, o, t, c;
    }

    /** `find_animation_curve_at`: the eased value of progress `t` for the
      * animation kind `a`. */
    method FindAnimationCurveAt(t: Double, a: Action) returns (y: real)
      requires Sized()
      ensures y == Lookup(TableFor(a)[..], t)
    {
      var baked := TableFor(a);
      var down: nat := 0;
      var up: nat := LAST;
      var middle: nat := (up + down) / 2;
      while up - down != 1
        invariant down < up <= LAST
        invariant middle == (up + down) / 2
        invariant Bisect(baked[..], t, down, up) == LookupIndex(baked[..], t)
        decreases up - down
      {
        if LeD(baked[middle].x, t) {
          down := middle;
        } else {
          up := middle;
        }
        middle := (up + down) / 2;
      }
      y := baked[up].y;
    }
  }

  /** One table of `init_baked_points`. */
  method Bake(c: Control) returns (a: array<Vec2>)
    ensures fresh(a) && IsBaked(a[..], c)
  {
    a := new Vec2[BAKED_POINTS_COUNT];
    var i := 0;
    while i < BAKED_POINTS_COUNT
      invariant 0 <= i <= BAKED_POINTS_COUNT
      invariant forall k :: 0 <= k < i ==> a[k] == CurveAt(SampleT(k), c)
    {
      a[i] := CurveAt(SampleT(i), c);
      i := i + 1;
    }
  }
}
