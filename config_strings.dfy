/** The string primitives the configuration parser is built on: stripping
  * a character class from both ends (`trim_whitespace`,
  * `sanitize_string`), `strtok` splitting, and `strtol`. */
module ConfigStrings {
  import opened Chars

  /** The value of a hexadecimal digit, -1 for any other character. */
  function HexVal(c: char): (r: int)
    ensures -1 <= r < 16
  {
    if '0' <= c <= '9' then c as int - '0' as int
    else if 'a' <= c <= 'f' then c as int - 'a' as int + 10
    else if 'A' <= c <= 'F' then c as int - 'A' as int + 10
    else -1
  }

  predicate IsDecDigit(c: char) {
    0 <= HexVal(c) < 10
  }

  predicate IsHexDigit(c: char) {
    0 <= HexVal(c)
  }

  predicate IsBlank(c: char) {
    c == ' ' || c == '\t'
  }

  predicate IsUnprintable(c: char) {
    !IsPrint(c)
  }

  /** The length of the longest prefix of `s` satisfying `p`. */
  function LeadRun(s: string, p: char -> bool): (n: nat)
    ensures n <= |s| && (forall i :: 0 <= i < n ==> p(s[i])) && (n == |s| || !p(s[n]))
  {
    if |s| == 0 || !p(s[0]) then 0 else 1 + LeadRun(s[1..], p)
  }

  /** The length of the longest suffix of `s` satisfying `p`. */
  function TrailRun(s: string, p: char -> bool): (n: nat)
    ensures n <= |s| && (forall i :: |s| - n <= i < |s| ==> p(s[i])) && (n == |s| || !p(s[|s| - 1 - n]))
  {
    if |s| == 0 || !p(s[|s| - 1]) then 0 else 1 + TrailRun(s[..|s| - 1], p)
  }

  /** A run of the class that ends at the first character outside it is
    * the leading run. */
  lemma {:induction false} LeadRunIs(s: string, p: char -> bool, n: nat)
    requires n <= |s| && (forall i :: 0 <= i < n ==> p(s[i])) && (n == |s| || !p(s[n]))
    ensures LeadRun(s, p) == n
  {
    if n > 0 {
      LeadRunIs(s[1..], p, n - 1);
    }
  }

  lemma {:induction false} TrailRunIs(s: string, p: char -> bool, n: nat)
    requires n <= |s| && (forall i :: |s| - n <= i < |s| ==> p(s[i])) && (n == |s| || !p(s[|s| - 1 - n]))
    ensures TrailRun(s, p) == n
  {
    if n > 0 {
      TrailRunIs(s[..|s| - 1], p, n - 1);
    }
  }

  /** `s` with every leading and trailing character satisfying `p`
    * removed; a string made only of such characters strips to nothing. */
  function Stripped(s: string, p: char -> bool): string {
    var a := LeadRun(s, p);
    if a == |s| then [] else s[a..|s| - TrailRun(s, p)]
  }

  /** The pointer walk of `trim_whitespace` (`IsSpace`) and
    * `sanitize_string` (`IsUnprintable`): a start pointer moves past
    * the leading run, then an end pointer moves back over the trailing run
    * but not onto the start. */
  method StripEnds(s: string, p: char -> bool) returns (r: string)
    ensures r == Stripped(s, p)
  {
    if |s| == 0 {
      return s;
    }
    var start := 0;
    while start < |s| && p(s[start])
      invariant start <= |s| && forall i :: 0 <= i < start ==> p(s[i])
    {
      start := start + 1;
    }
    var e := |s|;
    while e - 1 > start && p(s[e - 1])
      invariant start <= e <= |s| && (start < |s| ==> start < e)
      invariant forall i :: e <= i < |s| ==> p(s[i])
    {
      e := e - 1;
    }
    StrippedIsUnique(s, p, start, e);
    r := s[start..e];
  }

  /** The result is a piece of the input with only class characters
    * around it, and it neither starts nor ends with one. */
  lemma StrippedShape(s: string, p: char -> bool)
    ensures var a, r := LeadRun(s, p), Stripped(s, p);
            a + |r| <= |s| && r == s[a..a + |r|]
            && (forall i :: 0 <= i < a ==> p(s[i]))
            && (forall i :: a + |r| <= i < |s| ==> p(s[i]))
            && (|r| > 0 ==> !p(r[0]) && !p(r[|r| - 1]))
  {
    var a, n := LeadRun(s, p), TrailRun(s, p);
    if a < |s| {
      assert a + |Stripped(s, p)| == |s| - n;
    }
  }

  /** No other piece has that shape: the stripped string is the maximal
    * piece without class characters at its ends. */
  lemma StrippedIsUnique(s: string, p: char -> bool, a: nat, b: nat)
    requires a <= b <= |s|
    requires forall i :: 0 <= i < a ==> p(s[i])
    requires forall i :: b <= i < |s| ==> p(s[i])
    requires a < b ==> !p(s[a]) && !p(s[b - 1])
    ensures Stripped(s, p) == s[a..b]
  {
    if a == b {
      forall i | 0 <= i < |s|
        ensures p(s[i])
      {
        if i >= a {
          assert i >= b;
        }
      }
      AllStripped(s, p);
    } else {
      LeadRunIs(s, p, a);
      TrailRunIs(s, p, |s| - b);
    }
  }

  /** A string made only of class characters strips to the empty string. */
  lemma AllStripped(s: string, p: char -> bool)
    requires forall i :: 0 <= i < |s| ==> p(s[i])
    ensures Stripped(s, p) == ""
  {
    LeadRunIs(s, p, |s|);
  }

  /** Stripping twice is stripping once. */
  lemma StripIdempotent(s: string, p: char -> bool)
    ensures Stripped(Stripped(s, p), p) == Stripped(s, p)
  {
    var r := Stripped(s, p);
    StrippedShape(s, p);
    StrippedIsUnique(r, p, 0, |r|);
  }

  /** The length of the token starting `s`: up to the next separator. */
  function RunLength(s: string, sep: char): (n: nat)
    ensures n <= |s| && (forall i :: 0 <= i < n ==> s[i] != sep) && (n == |s| || s[n] == sep)
  {
    if |s| == 0 || s[0] == sep then 0 else 1 + RunLength(s[1..], sep)
  }

  lemma {:induction false} RunLengthIs(s: string, sep: char, n: nat)
    requires n <= |s| && (forall i :: 0 <= i < n ==> s[i] != sep) && (n == |s| || s[n] == sep)
    ensures RunLength(s, sep) == n
  {
    if n > 0 {
      RunLengthIs(s[1..], sep, n - 1);
    }
  }

  /** The tokens `strtok` returns for one separator character: the maximal
    * runs without it, in order; empty runs are skipped. */
  function Tokens(s: string, sep: char): seq<string>
    decreases |s|
  {
    if |s| == 0 then []
    else if s[0] == sep then Tokens(s[1..], sep)
    else
      var n := RunLength(s, sep);
      [s[..n]] + Tokens(s[n..], sep)
  }

  /** Every token is nonempty and holds no separator. */
  lemma {:induction false} TokensShape(s: string, sep: char)
    ensures forall i :: 0 <= i < |Tokens(s, sep)| ==> |Tokens(s, sep)[i]| > 0 && sep !in Tokens(s, sep)[i]
    decreases |s|
  {
    if |s| > 0 {
      if s[0] == sep {
        TokensShape(s[1..], sep);
      } else {
        var n := RunLength(s, sep);
        TokensShape(s[n..], sep);
        assert Tokens(s, sep) == [s[..n]] + Tokens(s[n..], sep);
      }
    }
  }

  /** Joining two pieces with a separator joins their token lists. */
  lemma {:induction false} TokensOfJoin(x: string, y: string, sep: char)
    ensures Tokens(x + [sep] + y, sep) == Tokens(x, sep) + Tokens(y, sep)
    decreases |x|
  {
    var s := x + [sep] + y;
    if |x| == 0 {
      assert s[0] == sep && s[1..] == y;
    } else if x[0] == sep {
      assert s[0] == sep && s[1..] == x[1..] + [sep] + y;
      TokensOfJoin(x[1..], y, sep);
    } else {
      var n := RunLength(x, sep);
      assert forall i :: 0 <= i < n ==> s[i] == x[i];
      RunLengthIs(s, sep, n);
      assert s[0] == x[0];
      assert s[..n] == x[..n];
      assert s[n..] == x[n..] + [sep] + y;
      TokensOfJoin(x[n..], y, sep);
      var h, tx, ty := [x[..n]], Tokens(x[n..], sep), Tokens(y, sep);
      assert Tokens(s, sep) == h + (tx + ty);
      assert h + (tx + ty) == (h + tx) + ty;
    }
  }

  /** One `strtok` call from position `i`: it skips separators, then
    * returns the token up to the next separator and the position after
    * it, or reports that none is left. */
  method Strtok(t: string, i: nat, sep: char) returns (found: bool, tok: string, next: nat)
    requires i <= |t|
    ensures next <= |t|
    ensures found ==> i < next <= |t| && Tokens(t[i..], sep) == [tok] + Tokens(t[next..], sep)
    ensures !found ==> Tokens(t[i..], sep) == []
  {
    var p := SkipSeparators(t, i, sep);
    if p == |t| {
      return false, [], p;
    }
    var q := TokenEnd(t, p, sep);
    TokenAt(t, p, q, sep);
    return true, t[p..q], q;
  }

  /** The `strtok` loop collecting every token. */
  method SplitTokens(t: string, sep: char) returns (ts: seq<string>)
    ensures ts == Tokens(t, sep)
  {
    ts := [];
    var found, tok, next := Strtok(t, 0, sep);
    assert t[0..] == t;
    while found
      invariant next <= |t|
      invariant found ==> ts + [tok] + Tokens(t[next..], sep) == Tokens(t, sep)
      invariant !found ==> ts == Tokens(t, sep)
      decreases |t| - next, found
    {
      ts := ts + [tok];
      var pos := next;
      found, tok, next := Strtok(t, pos, sep);
      if !found {
        next := |t|;
      }
    }
  }

  /** The separators at `i` contribute no token. */
  method SkipSeparators(t: string, i: nat, sep: char) returns (p: nat)
    requires i <= |t|
    ensures i <= p <= |t| && Tokens(t[i..], sep) == Tokens(t[p..], sep) && (p == |t| || t[p] != sep)
  {
    p := i;
    while p < |t| && t[p] == sep
      invariant i <= p <= |t| && Tokens(t[i..], sep) == Tokens(t[p..], sep)
    {
      assert t[p..][1..] == t[p + 1..];
      p := p + 1;
    }
  }

  /** The end of the token starting at `p`. */
  method TokenEnd(t: string, p: nat, sep: char) returns (q: nat)
    requires p <= |t|
    ensures p <= q <= |t| && (forall j :: p <= j < q ==> t[j] != sep) && (q == |t| || t[q] == sep)
  {
    q := p;
    while q < |t| && t[q] != sep
      invariant p <= q <= |t| && forall j :: p <= j < q ==> t[j] != sep
    {
      q := q + 1;
    }
  }

  /** A nonempty separator-free run ending at a separator or the end is
    * the next token. */
  lemma TokenAt(t: string, p: nat, q: nat, sep: char)
    requires p < q <= |t| && (forall j :: p <= j < q ==> t[j] != sep) && (q == |t| || t[q] == sep)
    ensures Tokens(t[p..], sep) == [t[p..q]] + Tokens(t[q..], sep)
  {
    var u, n := t[p..], q - p;
    assert forall j :: 0 <= j < n ==> u[j] == t[p + j];
    assert n == |u| || u[n] == t[q];
    RunLengthIs(u, sep, n);
    assert u[0] != sep;
    assert u[..n] == t[p..q];
    assert u[n..] == t[q..];
  }

  const LONG_MAX: int := 0x7FFF_FFFF_FFFF_FFFF
  const LONG_MIN: int := -0x8000_0000_0000_0000

  /** `strtol` clamps out-of-range values to the limits of `long`. */
  function Saturate(v: int): (r: int)
    ensures LONG_MIN <= r <= LONG_MAX
    ensures LONG_MIN <= v <= LONG_MAX ==> r == v
  {
    if v > LONG_MAX then LONG_MAX else if v < LONG_MIN then LONG_MIN else v
  }

  /** The value of a digit string, most significant digit first. */
  function Value(ds: string, base: int): int {
    if |ds| == 0 then 0 else Value(ds[..|ds| - 1], base) * base + HexVal(ds[|ds| - 1])
  }

  /** `strtol`'s result and the index its end pointer is left at. */
  datatype Conv = Conv(value: int, end: nat)

  /** The index after the leading white space and an optional sign. */
  function SignEnd(s: string): (j: nat)
    ensures j <= |s|
  {
    var i := LeadRun(s, IsSpace);
    if i < |s| && (s[i] == '+' || s[i] == '-') then i + 1 else i
  }

  /** Whether the sign read is a minus. */
  predicate Negative(s: string) {
    var i := LeadRun(s, IsSpace);
    i < |s| && s[i] == '-'
  }

  /** Where the digits start: in base 16 after a `0x` or `0X` that a hex
    * digit follows. */
  function DigitsStart(s: string, base: int): (k: nat)
    ensures k <= |s|
  {
    var j := SignEnd(s);
    if base == 16 && j + 2 < |s| && s[j] == '0' && (s[j + 1] == 'x' || s[j + 1] == 'X') && IsHexDigit(s[j + 2])
    then j + 2 else j
  }

  function DigitClass(base: int): char -> bool {
    if base == 16 then IsHexDigit else IsDecDigit
  }

  /** `strtol` in base 10 or 16: leading white space, an optional sign, in
    * base 16 an optional `0x` or `0X` that a hex digit follows, then the
    * digits.  Without any digit nothing is converted: the value is 0 and
    * the end pointer is the start of the string. */
  function Strtol(s: string, base: int): (c: Conv)
    requires base == 10 || base == 16
    ensures c.end <= |s|
    ensures LONG_MIN <= c.value <= LONG_MAX
    ensures c.end == 0 ==> c.value == 0
  {
    var k := DigitsStart(s, base);
    var n := LeadRun(s[k..], DigitClass(base));
    if n == 0 then Conv(0, 0)
    else
      var v := Value(s[k..k + n], base);
      Conv(Saturate(if Negative(s) then -v else v), k + n)
  }

  /** A conversion that consumes something ends just after a digit. */
  lemma StrtolEndsOnDigit(s: string, base: int)
    requires base == 10 || base == 16
    ensures var c := Strtol(s, base);
            c.end > 0 ==> DigitClass(base)(s[c.end - 1])
  {
    var k := DigitsStart(s, base);
    var n := LeadRun(s[k..], DigitClass(base));
    if n > 0 {
      assert s[k..][n - 1] == s[k + n - 1];
    }
  }
}
