/** The value parsers of the configuration file: directions, modifier
  * lists, colours, number types and comma-separated arrays of numbers. */
module ConfigParse {
  import opened Opt
  import opened Chars
  import opened Geometry
  import opened ConfigStrings

  /** The first `n` characters of `s`, or all of it. */
  function Head(s: string, n: nat): (r: string)
    ensures |r| == if |s| <= n then |s| else n
  {
    if |s| <= n then s else s[..n]
  }

  /** The copy loops of the parsers: at most `n` characters, lowercased,
    * into a local buffer. */
  method LowerPrefix(s: string, n: nat) returns (w: string)
    ensures w == LowerAll(Head(s, n))
  {
    w := [];
    var i := 0;
    while i < |s| && i < n
      invariant i <= |s| && i <= n && w == LowerAll(s[..i])
    {
      w := w + [Lower(s[i])];
      i := i + 1;
    }
    assert s[..i] == Head(s, n);
  }

  /** `parse_direction`'s result. */
  function DirectionOf(s: string): Direction {
    var w := LowerAll(Head(s, 9));
    if w == "up" then Up
    else if w == "down" then Down
    else if w == "left" then Left
    else if w == "right" then Right
    else Undir
  }

  method ParseDirection(s: string) returns (d: Direction)
    ensures d == DirectionOf(s)
  {
    var w := LowerPrefix(s, 9);
    if w == "up" {
      d := Up;
    } else if w == "down" {
      d := Down;
    } else if w == "left" {
      d := Left;
    } else if w == "right" {
      d := Right;
    } else {
      d := Undir;
    }
  }

  /** The nine-character window loses nothing: a direction is recognised
    * exactly when the whole string, lowercased, is its name. */
  lemma DirectionIsExactMatch(s: string)
    ensures DirectionOf(s) == Up <==> LowerAll(s) == "up"
    ensures DirectionOf(s) == Down <==> LowerAll(s) == "down"
    ensures DirectionOf(s) == Left <==> LowerAll(s) == "left"
    ensures DirectionOf(s) == Right <==> LowerAll(s) == "right"
    ensures DirectionOf(s) == Undir <==> LowerAll(s) !in {"up", "down", "left", "right"}
  {
    if |s| > 9 {
      assert |LowerAll(Head(s, 9))| == 9;
      assert |LowerAll(s)| > 9;
    } else {
      assert Head(s, 9) == s;
    }
  }

  /** `parse_circle_direction`: 1 for "next", -1 for anything else. */
  function CircleDirectionOf(s: string): int {
    if LowerAll(Head(s, 9)) == "next" then 1 else -1
  }

  method ParseCircleDirection(s: string) returns (r: int)
    ensures r == CircleDirectionOf(s)
  {
    var w := LowerPrefix(s, 9);
    r := if w == "next" then 1 else -1;
  }

  lemma CircleIsExactMatch(s: string)
    ensures CircleDirectionOf(s) == 1 <==> LowerAll(s) == "next"
    ensures CircleDirectionOf(s) == 1 || CircleDirectionOf(s) == -1
  {
    if |s| > 9 {
      assert |LowerAll(Head(s, 9))| == 9;
    } else {
      assert Head(s, 9) == s;
    }
  }

  /** The wlroots modifier bits. */
  const SHIFT: bv32 := 1
  const CTRL: bv32 := 4
  const ALT: bv32 := 8
  const LOGO: bv32 := 64

  /** The four modifiers the parser knows; a token sets a set of them. */
  datatype Modifier = Shift | Ctrl | Alt | Logo

  /** The mask of a set of modifiers. */
  function Mask(m: set<Modifier>): bv32 {
    (if Logo in m then LOGO else 0) | (if Ctrl in m then CTRL else 0)
    | (if Shift in m then SHIFT else 0) | (if Alt in m then ALT else 0)
  }

  /** `strstr(t, pat) != NULL`. */
  predicate Contains(t: string, pat: string) {
    exists i :: 0 <= i <= |t| - |pat| && MatchesAt(t, pat, i)
  }

  predicate MatchesAt(t: string, pat: string, i: int) {
    0 <= i && i + |pat| <= |t| && t[i..i + |pat|] == pat
  }

  /** The modifier a raw keycode stands for. */
  function KeyMod(code: int): set<Modifier> {
    if code == 133 || code == 134 then {Logo}
    else if code == 37 || code == 105 then {Ctrl}
    else if code == 50 || code == 62 then {Shift}
    else if code == 64 || code == 108 then {Alt}
    else {}
  }

  /** A `code:` token: a decimal keycode that ends the token or is
    * followed by a space. */
  function CodeMod(rest: string): set<Modifier> {
    var c := Strtol(rest, 10);
    if c.end != 0 && (c.end == |rest| || rest[c.end] == ' ') then KeyMod(c.value) else {}
  }

  /** A named token: every modifier whose name occurs in it. */
  function NameMod(t: string): set<Modifier> {
    (if Contains(t, "super") then {Logo} else {})
    + (if Contains(t, "ctrl") then {Ctrl} else {})
    + (if Contains(t, "shift") then {Shift} else {})
    + (if Contains(t, "alt") then {Alt} else {})
  }

  /** One token after its leading blanks are skipped. */
  function TokenMod(tok: string): set<Modifier> {
    var t := tok[LeadRun(tok, IsBlank)..];
    if |t| >= 5 && t[..5] == "code:" then CodeMod(t[5..]) else NameMod(t)
  }

  /** The modifiers of a list of tokens, `f` giving each token's. */
  function ModOf(ts: seq<string>, f: string -> set<Modifier>): set<Modifier> {
    if |ts| == 0 then {} else ModOf(ts[..|ts| - 1], f) + f(ts[|ts| - 1])
  }

  /** `parse_mod`'s result: 0 for an empty string, otherwise the OR over
    * the `+`-separated tokens of the first 255 characters, lowercased. */
  function ModSpec(s: string): bv32 {
    if |s| == 0 then 0 else Mask(ModOf(Tokens(LowerAll(Head(s, 255)), '+'), TokenMod))
  }

  /** The copy-and-lowercase loop, then the `strtok_r` loop ORing each
    * token's modifier bits into the result. */
  method ParseMod(s: string) returns (mod: bv32)
    ensures mod == ModSpec(s)
  {
    if |s| == 0 {
      return 0;
    }
    var t := LowerPrefix(s, 255);
    mod := 0;
    ghost var done: seq<string> := [];
    var found, tok, next := Strtok(t, 0, '+');
    assert t[0..] == t;
    while found
      invariant next <= |t|
      invariant found ==> done + [tok] + Tokens(t[next..], '+') == Tokens(t, '+')
      invariant !found ==> done == Tokens(t, '+')
      invariant mod == Mask(ModOf(done, TokenMod))
      decreases |t| - next, found
    {
      MaskUnion(ModOf(done, TokenMod), TokenMod(tok));
      mod := mod | Mask(TokenMod(tok));
      ModOfSnoc(done, tok, TokenMod);
      done := done + [tok];
      var pos := next;
      found, tok, next := Strtok(t, pos, '+');
      if !found {
        next := |t|;
      }
      TokensStep(done, tok, Tokens(t[pos..], '+'), Tokens(t[next..], '+'), Tokens(t, '+'), found);
    }
  }

  lemma ModOfSnoc(ts: seq<string>, t: string, f: string -> set<Modifier>)
    ensures ModOf(ts + [t], f) == ModOf(ts, f) + f(t)
  {
    assert (ts + [t])[..|ts|] == ts;
  }

  /** The bookkeeping of one `strtok` step: the tokens seen so far, the
    * current one and the rest make up the whole list. */
  lemma TokensStep(done: seq<string>, tok: string, here: seq<string>, rest: seq<string>, all: seq<string>, found: bool)
    requires done + here == all
    requires found ==> here == [tok] + rest
    requires !found ==> here == []
    ensures found ==> done + [tok] + rest == all
    ensures !found ==> done == all
  {
  }

  /** ORing masks is taking the union of the modifier sets. */
  lemma MaskUnion(a: set<Modifier>, b: set<Modifier>)
    ensures Mask(a + b) == Mask(a) | Mask(b)
  {
    MaskBits(Logo in a, Ctrl in a, Shift in a, Alt in a, Logo in b, Ctrl in b, Shift in b, Alt in b);
  }

  lemma MaskBits(l1: bool, c1: bool, s1: bool, a1: bool, l2: bool, c2: bool, s2: bool, a2: bool)
    ensures ((if l1 || l2 then LOGO else 0) | (if c1 || c2 then CTRL else 0)
             | (if s1 || s2 then SHIFT else 0) | (if a1 || a2 then ALT else 0))
            == ((if l1 then LOGO else 0) | (if c1 then CTRL else 0) | (if s1 then SHIFT else 0) | (if a1 then ALT else 0))
               | ((if l2 then LOGO else 0) | (if c2 then CTRL else 0) | (if s2 then SHIFT else 0) | (if a2 then ALT else 0))
  {
  }

  /** Each modifier has its own bit: the mask tells the set apart. */
  lemma MaskInjective(a: set<Modifier>, b: set<Modifier>)
    requires Mask(a) == Mask(b)
    ensures a == b
  {
    MaskHas(Logo in a, Ctrl in a, Shift in a, Alt in a);
    MaskHas(Logo in b, Ctrl in b, Shift in b, Alt in b);
    forall m: Modifier ensures m in a <==> m in b {
      match m
      case Shift =>
      case Ctrl =>
      case Alt =>
      case Logo =>
    }
  }

  lemma MaskHas(l: bool, c: bool, s: bool, a: bool)
    ensures var x := (if l then LOGO else 0) | (if c then CTRL else 0) | (if s then SHIFT else 0) | (if a then ALT else 0);
            (x & LOGO != 0 <==> l) && (x & CTRL != 0 <==> c) && (x & SHIFT != 0 <==> s) && (x & ALT != 0 <==> a)
  {
  }

  /** The modifiers of two token lists combine by union. */
  lemma {:induction false} ModOfAppend(a: seq<string>, b: seq<string>, f: string -> set<Modifier>)
    ensures ModOf(a + b, f) == ModOf(a, f) + ModOf(b, f)
    decreases |b|
  {
    if |b| == 0 {
      assert a + b == a;
    } else {
      var b' := b[..|b| - 1];
      assert (a + b)[..|a + b| - 1] == a + b';
      ModOfAppend(a, b', f);
    }
  }

  /** A modifier is in the result exactly when some token sets it. */
  lemma {:induction false} ModOfAny(ts: seq<string>, f: string -> set<Modifier>, m: Modifier)
    ensures m in ModOf(ts, f) <==> exists i :: 0 <= i < |ts| && m in f(ts[i])
  {
    if |ts| > 0 {
      var init := ts[..|ts| - 1];
      ModOfAny(init, f, m);
      assert forall i :: 0 <= i < |init| ==> init[i] == ts[i];
    }
  }

  /** The order of two `+`-separated parts does not matter, as long as
    * the whole string fits the 255-character copy. */
  lemma ModOrderIndependent(x: string, y: string)
    requires |x| + 1 + |y| <= 255
    ensures ModSpec(x + "+" + y) == ModSpec(y + "+" + x)
  {
    var xl, yl := LowerAll(x), LowerAll(y);
    assert Head(x + "+" + y, 255) == x + "+" + y;
    assert Head(y + "+" + x, 255) == y + "+" + x;
    assert LowerAll(x + "+" + y) == xl + ['+'] + yl;
    assert LowerAll(y + "+" + x) == yl + ['+'] + xl;
    TokensOfJoin(xl, yl, '+');
    TokensOfJoin(yl, xl, '+');
    ModOfAppend(Tokens(xl, '+'), Tokens(yl, '+'), TokenMod);
    ModOfAppend(Tokens(yl, '+'), Tokens(xl, '+'), TokenMod);
  }

  /** `parse_color`: `strtol` in base 16, and -1 unless it consumed the
    * whole string.  The empty string converts to 0. */
  function ColorOf(s: string): (r: int)
    ensures |s| == 0 ==> r == 0
    ensures LONG_MIN <= r <= LONG_MAX
  {
    var c := Strtol(s, 16);
    if c.end != |s| then -1 else c.value
  }

  /** A nonempty string that does not end in a hex digit is rejected. */
  lemma ColorNeedsHexEnd(s: string)
    requires |s| > 0 && !IsHexDigit(s[|s| - 1])
    ensures ColorOf(s) == -1
  {
    StrtolEndsOnDigit(s, 16);
  }

  function HexChar(d: int): char
    requires 0 <= d < 16
  {
    if d < 10 then ('0' as int + d) as char else ('a' as int + d - 10) as char
  }

  /** The `n` low hex digits of `v`, most significant first. */
  function HexDigits(v: nat, n: nat): (r: string)
    ensures |r| == n
  {
    if n == 0 then [] else HexDigits(v / 16, n - 1) + [HexChar(v % 16)]
  }

  function Pow16(n: nat): nat {
    if n == 0 then 1 else 16 * Pow16(n - 1)
  }

  lemma {:induction false} HexDigitsValue(v: nat, n: nat)
    requires v < Pow16(n)
    ensures Value(HexDigits(v, n), 16) == v
    ensures forall i :: 0 <= i < n ==> IsHexDigit(HexDigits(v, n)[i])
  {
    if n > 0 {
      HexDigitsValue(v / 16, n - 1);
      var r := HexDigits(v, n);
      assert r[..n - 1] == HexDigits(v / 16, n - 1);
      assert HexVal(HexChar(v % 16)) == v % 16;
    }
  }

  /** A colour written as `0x` and eight hex digits reads back as itself. */
  lemma ColorRoundTrip(v: nat)
    requires v < 0x1_0000_0000
    ensures ColorOf("0x" + HexDigits(v, 8)) == v
  {
    assert Pow16(8) == 0x1_0000_0000;
    HexDigitsValue(v, 8);
    var s := "0x" + HexDigits(v, 8);
    LeadRunIs(s, IsSpace, 0);
    assert SignEnd(s) == 0 && !Negative(s);
    assert s[2..] == HexDigits(v, 8);
    assert DigitsStart(s, 16) == 2;
    LeadRunIs(s[2..], IsHexDigit, 8);
    assert s[2..10] == HexDigits(v, 8);
    assert Strtol(s, 16) == Conv(v, 10);
  }

  /** `parse_num_type`'s enumeration. */
  const NUM_TYPE_MINUS: int := 0
  const NUM_TYPE_PLUS: int := 1
  const NUM_TYPE_DEFAULT: int := 2

  /** The first character decides; the terminator of an empty string is
    * neither sign. */
  function ParseNumType(s: string): (r: int)
    ensures r == NUM_TYPE_MINUS <==> |s| > 0 && s[0] == '-'
    ensures r == NUM_TYPE_PLUS <==> |s| > 0 && s[0] == '+'
    ensures r == NUM_TYPE_DEFAULT <==> |s| == 0 || (s[0] != '-' && s[0] != '+')
  {
    if |s| > 0 && s[0] == '-' then NUM_TYPE_MINUS
    else if |s| > 0 && s[0] == '+' then NUM_TYPE_PLUS
    else NUM_TYPE_DEFAULT
  }

  /** `strtod` on a whole token: `numbers` holds the strings it consumes
    * completely, with their values. */
  function Strtod(numbers: imap<string, real>, t: string): Option<real> {
    if t in numbers then Some(numbers[t]) else None
  }

  /** What `strtod` makes of each trimmed token. */
  function Converted(ts: seq<string>, numbers: imap<string, real>): (vs: seq<Option<real>>)
    ensures |vs| == |ts|
  {
    seq(|ts|, i requires 0 <= i < |ts| => Strtod(numbers, Stripped(ts[i], IsSpace)))
  }

  /** `parse_double_array` over the converted tokens: the count it returns
    * (-1 on a bad number) and the values it has stored by then. */
  function Stored(vs: seq<Option<real>>, max: int): (r: (int, seq<real>))
    ensures r.0 == -1 || r.0 == |r.1|
    ensures |r.1| <= |vs| && (|r.1| <= max || |r.1| == 0)
  {
    if |vs| == 0 || max <= 0 then (0, [])
    else match vs[0]
      case None => (-1, [])
      case Some(v) =>
        var rest := Stored(vs[1..], max - 1);
        (if rest.0 == -1 then -1 else rest.0 + 1, [v] + rest.1)
  }

  /** Without a bad number among the first `max` tokens, the count is the
    * number of those tokens and every stored value is its token's number;
    * with one, the result is -1, and the values before it have been
    * stored. */
  lemma {:induction false} StoredMeaning(vs: seq<Option<real>>, max: int)
    ensures var r, m := Stored(vs, max), if max <= 0 then 0 else if |vs| <= max then |vs| else max;
            (r.0 == -1 <==> exists i :: 0 <= i < m && vs[i].None?)
            && (r.0 != -1 ==> r.0 == m)
            && (forall i :: 0 <= i < |r.1| ==> vs[i] == Some(r.1[i]))
    decreases |vs|
  {
    if |vs| > 0 && max > 0 {
      var tl := vs[1..];
      StoredMeaning(tl, max - 1);
      var m := if |vs| <= max then |vs| else max;
      assert forall i :: 1 <= i < |vs| ==> tl[i - 1] == vs[i];
      if vs[0].Some? {
        var rest := Stored(tl, max - 1);
        if rest.0 == -1 {
          var i :| 0 <= i < m - 1 && tl[i].None?;
          assert vs[i + 1].None?;
        }
      }
    }
  }

  /** After `c` good numbers, stored as `out`, the rest of the parse
    * works on the remaining slots. */
  predicate StoredSoFar(vs: seq<Option<real>>, max: int, out: seq<real>, c: nat)
    requires c <= |vs|
  {
    Stored(vs, max) == Prefixed(out, Stored(vs[c..], max - c))
  }

  /** A good number at slot `c` is stored and the loop goes on. */
  lemma StoredStep(out: seq<real>, vs: seq<Option<real>>, c: nat, max: int, v: real)
    requires c < |vs| && c < max && vs[c] == Some(v) && StoredSoFar(vs, max, out, c)
    ensures StoredSoFar(vs, max, out + [v], c + 1)
  {
    assert vs[c..][1..] == vs[c + 1..];
    assert out + ([v] + Stored(vs[c + 1..], max - c - 1).1) == out + [v] + Stored(vs[c + 1..], max - c - 1).1;
  }

  /** A bad number at slot `c` ends the parse with -1. */
  lemma StoredFail(out: seq<real>, vs: seq<Option<real>>, c: nat, max: int)
    requires c < |vs| && c < max && vs[c].None? && StoredSoFar(vs, max, out, c)
    ensures Stored(vs, max) == (-1, out)
  {
    assert out + [] == out;
  }

  /** Out of tokens or out of room: the count is the number stored. */
  lemma StoredStop(out: seq<real>, vs: seq<Option<real>>, c: nat, max: int)
    requires c <= |vs| && (c == |vs| || c >= max) && StoredSoFar(vs, max, out, c)
    ensures Stored(vs, max) == (|out|, out)
  {
    assert out + [] == out;
  }

  /** The loop over `strtok` tokens: each is trimmed and converted, the
    * number is stored at the next free slot, and a bad number stops the
    * loop with -1. */
  method ParseDoubleArray(s: string, output: array<real>, maxCount: int, numbers: imap<string, real>)
      returns (count: int)
    requires maxCount <= output.Length
    modifies output
    ensures var r := Stored(Converted(Tokens(s, ','), numbers), maxCount);
            count == r.0 && output[..|r.1|] == r.1 && output[|r.1|..] == old(output[|r.1|..])
  {
    var ts := SplitTokens(s, ',');
    ghost var vs := Converted(ts, numbers);
    ghost var orig := output[..];
    ghost var stored: seq<real> := [];
    count := 0;
    var failed := false;
    StoredStart(vs, maxCount);
    while count < |ts| && count < maxCount
      invariant 0 <= count <= |ts| && (count <= maxCount || count == 0) && |stored| == count
      invariant output[..] == stored + orig[count..]
      invariant StoredSoFar(vs, maxCount, stored, count)
    {
      var v := ConvertToken(ts, numbers, count);
      if v.None? {
        failed := true;
        break;
      }
      StoredStep(stored, vs, count, maxCount, v.value);
      output[count] := v.value;
      Overwritten(stored, orig, v.value);
      stored := stored + [v.value];
      count := count + 1;
    }
    if failed {
      StoredFail(stored, vs, count, maxCount);
      count := -1;
    } else {
      StoredStop(stored, vs, count, maxCount);
    }
    Split(output[..], stored, orig);
  }

  /** Storing `v` at the first slot after `stored`. */
  lemma Overwritten(stored: seq<real>, orig: seq<real>, v: real)
    requires |stored| < |orig|
    ensures (stored + orig[|stored|..])[|stored| := v] == (stored + [v]) + orig[|stored| + 1..]
  {
  }

  /** An array holding `stored` followed by the untouched rest. */
  lemma Split(a: seq<real>, stored: seq<real>, orig: seq<real>)
    requires |stored| <= |orig| && a == stored + orig[|stored|..]
    ensures a[..|stored|] == stored && a[|stored|..] == orig[|stored|..]
  {
  }

  lemma StoredStart(vs: seq<Option<real>>, max: int)
    ensures StoredSoFar(vs, max, [], 0)
  {
    assert vs[0..] == vs;
    assert [] + Stored(vs, max).1 == Stored(vs, max).1;
  }

  /** One token trimmed with `trim_whitespace` and read with `strtod`. */
  method ConvertToken(ts: seq<string>, numbers: imap<string, real>, c: nat) returns (v: Option<real>)
    requires c < |ts|
    ensures v == Converted(ts, numbers)[c]
  {
    var trimmed := StripEnds(ts[c], IsSpace);
    v := Strtod(numbers, trimmed);
  }

  /** `r` with values `vs` stored before it. */
  function Prefixed(vs: seq<real>, r: (int, seq<real>)): (int, seq<real>) {
    (if r.0 == -1 then -1 else |vs| + r.0, vs + r.1)
  }
}
