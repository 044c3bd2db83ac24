/** `get_layout_abbr`: the short layout name shown in status bars.  A
  * name listed in the mapping table gets its listed abbreviation;
  * otherwise the text between the last `(` and the last `)`, lowercased,
  * when it is one to four characters long; otherwise the first three
  * letters of the name, lowercased, when it has at least two; otherwise
  * its first two characters, lowercased.  Names are C strings, so they
  * hold no NUL character. */
module LayoutAbbr {
  import opened Opt
  import opened Chars

  /** The first table entry for `name`, as the lookup loop finds it. */
  function Lookup(table: seq<(string, string)>, name: string): (r: Option<string>)
    ensures r.Some? <==> exists i :: 0 <= i < |table| && table[i].0 == name
    ensures r.Some? ==> exists i :: 0 <= i < |table| && table[i].0 == name && r.value == table[i].1
                                    && forall k :: 0 <= k < i ==> table[k].0 != name
  {
    if |table| == 0 then None
    else if table[0].0 == name then Some(table[0].1)
    else
      var r := Lookup(table[1..], name);
      assert forall i :: 1 <= i < |table| ==> table[i] == table[1..][i - 1];
      if r.Some? then
        ghost var i :| 0 <= i < |table[1..]| && table[1..][i].0 == name && r.value == table[1..][i].1
                       && forall k :: 0 <= k < i ==> table[1..][k].0 != name;
        assert table[i + 1] == table[1..][i];
        r
      else r
  }

  /** `strrchr`: the last position holding `c`. */
  function LastIndex(s: string, c: char): (r: Option<nat>)
    ensures r.Some? ==> r.value < |s| && s[r.value] == c && forall k :: r.value < k < |s| ==> s[k] != c
    ensures r.None? ==> forall k :: 0 <= k < |s| ==> s[k] != c
  {
    if |s| == 0 then None
    else if s[|s| - 1] == c then Some(|s| - 1)
    else LastIndex(s[..|s| - 1], c)
  }

  /** The bracketed abbreviation, when the last `(` comes before the last
    * `)` with one to four characters between them. */
  function Bracketed(name: string): (r: Option<string>)
    ensures r.Some? ==> 1 <= |r.value| <= 4 && IsLowered(r.value)
  {
    var open, close := LastIndex(name, '('), LastIndex(name, ')');
    if open.Some? && close.Some? && close.value > open.value && 0 < close.value - open.value - 1 <= 4
    then Some(LowerAll(name[open.value + 1..close.value]))
    else None
  }

  /** The letters of `s`, lowercased, in order. */
  function Letters(s: string): (r: string)
    ensures |r| <= |s|
  {
    if |s| == 0 then []
    else Letters(s[..|s| - 1]) + (if IsAlpha(s[|s| - 1]) then [Lower(s[|s| - 1])] else [])
  }

  /** The fallback: the first two characters, lowercased. */
  function Fallback(name: string): (r: string)
    ensures |r| <= 2 && (|name| > 0 ==> |r| >= 1) && IsLowered(r)
  {
    if |name| == 0 then "" else LowerAll(name[..if |name| > 1 then 2 else 1])
  }

  function FirstThree(s: string): (r: string)
    ensures |r| <= 3
  {
    if |s| <= 3 then s else s[..3]
  }

  /** The string the function returns. */
  function AbbrOf(name: string, table: seq<(string, string)>): string {
    match Lookup(table, name)
    case Some(a) => a
    case None =>
      match Bracketed(name)
      case Some(b) => b
      case None => if |FirstThree(Letters(name))| >= 2 then FirstThree(Letters(name)) else Fallback(name)
  }

  /** The four attempts, with the loops of the source. */
  method GetLayoutAbbr(name: string, table: seq<(string, string)>) returns (abbr: string)
    requires forall i :: 0 <= i < |name| ==> name[i] != '\0'
    ensures abbr == AbbrOf(name, table)
  {
    var listed := FindInTable(table, name);
    if listed.Some? {
      return listed.value;
    }
    var open, close := LastIndex(name, '('), LastIndex(name, ')');
    if open.Some? && close.Some? && close.value > open.value {
      var len := close.value - open.value - 1;
      if 0 < len <= 4 {
        abbr := LowerSlice(name, open.value + 1, len);
        return;
      }
    }
    abbr := CollectLetters(name);
    if |abbr| >= 2 {
      return;
    }
    abbr := Fallback(name);
  }

  /** The table loop: the first entry whose name matches. */
  method FindInTable(table: seq<(string, string)>, name: string) returns (r: Option<string>)
    ensures r == Lookup(table, name)
  {
    var i := 0;
    while i < |table|
      invariant i <= |table|
      invariant Lookup(table, name) == Lookup(table[i..], name)
    {
      if table[i].0 == name {
        return Some(table[i].1);
      }
      assert table[i..][1..] == table[i + 1..];
      i := i + 1;
    }
    return None;
  }

  /** The copy loop between the brackets: `len` characters from `start`,
    * lowercased. */
  method LowerSlice(name: string, start: nat, len: nat) returns (abbr: string)
    requires start + len <= |name|
    ensures abbr == LowerAll(name[start..start + len])
  {
    abbr := [];
    var j := 0;
    while j < len
      invariant j <= len && abbr == LowerAll(name[start..start + j])
    {
      abbr := abbr + [Lower(name[start + j])];
      j := j + 1;
    }
  }

  /** The letter loop: it stops at the end of the name or after three
    * letters. */
  method CollectLetters(name: string) returns (abbr: string)
    ensures abbr == FirstThree(Letters(name))
  {
    abbr := [];
    var i := 0;
    while i < |name| && |abbr| < 3
      invariant i <= |name| && abbr == Letters(name[..i]) && |abbr| <= 3
    {
      assert name[..i + 1][..i] == name[..i];
      if IsAlpha(name[i]) {
        abbr := abbr + [Lower(name[i])];
      }
      i := i + 1;
    }
    LettersPrefix(name, i);
    assert name[..|name|] == name;
  }

  /** The letters of a prefix begin the letters of the whole name. */
  lemma {:induction false} LettersPrefix(s: string, i: nat)
    requires i <= |s|
    ensures |Letters(s[..i])| <= |Letters(s)| && Letters(s[..i]) == Letters(s)[..|Letters(s[..i])|]
    decreases |s| - i
  {
    if i < |s| {
      LettersPrefix(s, i + 1);
      assert s[..i + 1][..i] == s[..i];
    } else {
      assert s[..i] == s;
    }
  }

  /** `Letters` keeps exactly the letters: every character is a
    * lowercase letter, and a name with a letter has a nonempty result. */
  lemma {:induction false} LettersAreLetters(s: string)
    ensures forall i :: 0 <= i < |Letters(s)| ==> 'a' <= Letters(s)[i] <= 'z'
    ensures (exists i :: 0 <= i < |s| && IsAlpha(s[i])) ==> |Letters(s)| > 0
  {
    if |s| > 0 {
      var t := s[..|s| - 1];
      LettersAreLetters(t);
      if exists i :: 0 <= i < |s| && IsAlpha(s[i]) {
        var i :| 0 <= i < |s| && IsAlpha(s[i]);
        if i < |s| - 1 {
          assert t[i] == s[i];
        }
      }
    }
  }

  /** Outside the table every abbreviation is lowercase and at most four
    * characters long, and it is empty only for an empty name. */
  lemma AbbrShape(name: string, table: seq<(string, string)>)
    requires Lookup(table, name).None?
    ensures var r := AbbrOf(name, table); |r| <= 4 && IsLowered(r) && (|r| == 0 <==> |name| == 0)
  {
    LettersAreLetters(name);
    if |name| == 0 {
      assert Bracketed(name).None?;
    }
  }

  /** A name without brackets or table entry and with at least two
    * letters is abbreviated to its first letters: up to three, in order. */
  lemma LettersAbbreviate(name: string, table: seq<(string, string)>)
    requires Lookup(table, name).None? && Bracketed(name).None?
    requires |Letters(name)| >= 2
    ensures var r := AbbrOf(name, table);
            2 <= |r| <= 3 && r == Letters(name)[..|r|] && (|Letters(name)| >= 3 ==> |r| == 3)
  {
  }
}
