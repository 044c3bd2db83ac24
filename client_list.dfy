/** The global client list (`struct wl_list clients`) as its `next` and
  * `prev` links, and `exchange_two_client`, which swaps two clients by
  * rewiring those links in place.  Nodes are identified by integers: the
  * list head is `HEAD`, clients are positive, and `NULL` stands for a
  * null client pointer. */
module ClientList {
  const HEAD: int := 0
  const NULL: int := -1

  predicate Distinct(s: seq<int>) {
    forall i, j :: 0 <= i < j < |s| ==> s[i] != s[j]
  }

  /** The node after position `k`, and the node before it; past either
    * end is the head. */
  function After(s: seq<int>, k: int): int
    requires -1 <= k < |s|
  {
    if k + 1 < |s| then s[k + 1] else HEAD
  }

  function Before(s: seq<int>, k: int): int
    requires 0 <= k <= |s|
  {
    if k > 0 then s[k - 1] else HEAD
  }

  /** `next`/`prev` are the links of a circular doubly-linked list that
    * starts at the head and visits the clients in the order `s`. */
  predicate Linked(s: seq<int>, next: map<int, int>, prev: map<int, int>) {
    Distinct(s) && HEAD !in s && NULL !in s
    && next.Keys == prev.Keys == {HEAD} + (set x | x in s)
    && next[HEAD] == After(s, -1) && prev[HEAD] == Before(s, |s|)
    && (forall k :: 0 <= k < |s| ==> next[s[k]] == After(s, k))
    && (forall k :: 0 <= k < |s| ==> prev[s[k]] == Before(s, k))
  }

  /** The order with the clients at positions `i` and `j` exchanged. */
  function Swap(s: seq<int>, i: nat, j: nat): (r: seq<int>)
    requires i < |s| && j < |s|
    ensures |r| == |s| && r[i] == s[j] && r[j] == s[i]
    ensures forall k :: 0 <= k < |s| && k != i && k != j ==> r[k] == s[k]
  {
    s[i := s[j]][j := s[i]]
  }

  /** Exchanging is a permutation of the clients and undoes itself. */
  lemma SwapPermutes(s: seq<int>, i: nat, j: nat)
    requires i < |s| && j < |s|
    ensures multiset(Swap(s, i, j)) == multiset(s)
    ensures Swap(Swap(s, i, j), i, j) == s
    ensures Swap(s, i, j) == Swap(s, j, i)
  {
    SwapBack(s, i, j);
    if i < j {
      SwapSplit(s, i, j);
    } else if j < i {
      SwapSplit(s, j, i);
    }
  }

  lemma SwapBack(s: seq<int>, i: nat, j: nat)
    requires i < |s| && j < |s|
    ensures Swap(Swap(s, i, j), i, j) == s
    ensures Swap(s, i, j) == Swap(s, j, i)
  {
    var t, u := Swap(s, i, j), Swap(s, j, i);
    assert forall k :: 0 <= k < |s| ==> Swap(t, i, j)[k] == s[k];
    assert forall k :: 0 <= k < |s| ==> t[k] == u[k];
  }

  lemma SwapSplit(s: seq<int>, i: nat, j: nat)
    requires i < j < |s|
    ensures multiset(Swap(s, i, j)) == multiset(s)
  {
    var t := Swap(s, i, j);
    assert s == s[..i] + [s[i]] + s[i + 1..j] + [s[j]] + s[j + 1..];
    assert t == s[..i] + [s[j]] + s[i + 1..j] + [s[i]] + s[j + 1..];
  }

  /** The links after the adjacent case, `a` directly before `b`: `a`
    * takes `b`'s successor, `b` takes `a`'s predecessor, and the two
    * outer neighbours are pointed at their new partners. */
  function AdjacentNext(next: map<int, int>, a: int, b: int, p: int, q: int): map<int, int> {
    next[a := q][b := a][p := b]
  }

  function AdjacentPrev(prev: map<int, int>, a: int, b: int, p: int, q: int): map<int, int> {
    prev[a := b][b := p][q := a]
  }

  /** The links after the general case: each client takes the other's
    * neighbours, and the four neighbours are pointed at their new
    * partners. */
  function ApartNext(next: map<int, int>, c1: int, c2: int, p1: int, n1: int, p2: int, n2: int): map<int, int> {
    next[c2 := n1][c1 := n2][p1 := c2][p2 := c1]
  }

  function ApartPrev(prev: map<int, int>, c1: int, c2: int, p1: int, n1: int, p2: int, n2: int): map<int, int> {
    prev[c2 := p1][c1 := p2][n1 := c2][n2 := c1]
  }

  /** The adjacent case links the swapped order. */
  lemma AdjacentSwapLinks(s: seq<int>, next: map<int, int>, prev: map<int, int>, i: nat)
    requires Linked(s, next, prev) && i + 1 < |s|
    ensures Linked(Swap(s, i, i + 1),
                   AdjacentNext(next, s[i], s[i + 1], Before(s, i), After(s, i + 1)),
                   AdjacentPrev(prev, s[i], s[i + 1], Before(s, i), After(s, i + 1)))
  {
    var t := Swap(s, i, i + 1);
    var n2 := AdjacentNext(next, s[i], s[i + 1], Before(s, i), After(s, i + 1));
    var p2 := AdjacentPrev(prev, s[i], s[i + 1], Before(s, i), After(s, i + 1));
    SwapShape(s, next, prev, i, i + 1);
    AdjacentEnds(s, next, prev, i);
    forall k | 0 <= k < |t|
      ensures n2[t[k]] == After(t, k) && p2[t[k]] == Before(t, k)
    {
      AdjacentAt(s, next, prev, i, k);
    }
    LinkedIntro(t, n2, p2);
  }

  /** The head's links after the adjacent case. */
  lemma AdjacentEnds(s: seq<int>, next: map<int, int>, prev: map<int, int>, i: nat)
    requires Linked(s, next, prev) && i + 1 < |s|
    ensures var n2 := AdjacentNext(next, s[i], s[i + 1], Before(s, i), After(s, i + 1));
            var p2 := AdjacentPrev(prev, s[i], s[i + 1], Before(s, i), After(s, i + 1));
            n2.Keys == next.Keys && p2.Keys == prev.Keys
            && n2[HEAD] == After(Swap(s, i, i + 1), -1) && p2[HEAD] == Before(Swap(s, i, i + 1), |s|)
  {
  }

  /** The adjacent case in terms of the links the function reads. */
  lemma AdjacentRelinked(s: seq<int>, next: map<int, int>, prev: map<int, int>, a: int, b: int)
    requires Linked(s, next, prev) && a in s && b in s && next[a] == b
    ensures Linked(Swap(s, IndexOf(s, a), IndexOf(s, b)),
                   AdjacentNext(next, a, b, prev[a], next[b]), AdjacentPrev(prev, a, b, prev[a], next[b]))
  {
    var i, j := IndexOf(s, a), IndexOf(s, b);
    assert next[s[i]] == After(s, i);
    assert i + 1 < |s| && s[i + 1] == b;
    DistinctAt(s, i + 1, j);
    assert j == i + 1 && prev[a] == Before(s, i) && next[b] == After(s, i + 1);
    AdjacentSwapLinks(s, next, prev, i);
  }

  /** One position of the adjacent case. */
  lemma AdjacentAt(s: seq<int>, next: map<int, int>, prev: map<int, int>, i: nat, k: nat)
    requires Distinct(s) && HEAD !in s && i + 1 < |s| && k < |s|
    requires s[k] in next && s[k] in prev && next[s[k]] == After(s, k) && prev[s[k]] == Before(s, k)
    ensures AdjacentNext(next, s[i], s[i + 1], Before(s, i), After(s, i + 1))[Swap(s, i, i + 1)[k]] == After(Swap(s, i, i + 1), k)
    ensures AdjacentPrev(prev, s[i], s[i + 1], Before(s, i), After(s, i + 1))[Swap(s, i, i + 1)[k]] == Before(Swap(s, i, i + 1), k)
  {
    DistinctAt(s, k, i);
    DistinctAt(s, k, i + 1);
    if i > 0 { DistinctAt(s, k, i - 1); DistinctAt(s, i - 1, i); DistinctAt(s, i - 1, i + 1); }
    if i + 2 < |s| { DistinctAt(s, k, i + 2); DistinctAt(s, i + 2, i); DistinctAt(s, i + 2, i + 1); }
  }

  /** The general case links the swapped order whenever the two clients
    * are not neighbours (including a client exchanged with itself). */
  lemma ApartSwapLinks(s: seq<int>, next: map<int, int>, prev: map<int, int>, i: nat, j: nat)
    requires Linked(s, next, prev) && i < |s| && j < |s| && j != i + 1 && i != j + 1
    ensures Linked(Swap(s, i, j),
                   ApartNext(next, s[i], s[j], Before(s, i), After(s, i), Before(s, j), After(s, j)),
                   ApartPrev(prev, s[i], s[j], Before(s, i), After(s, i), Before(s, j), After(s, j)))
  {
    var t := Swap(s, i, j);
    var n2 := ApartNext(next, s[i], s[j], Before(s, i), After(s, i), Before(s, j), After(s, j));
    var p2 := ApartPrev(prev, s[i], s[j], Before(s, i), After(s, i), Before(s, j), After(s, j));
    SwapShape(s, next, prev, i, j);
    ApartEnds(s, next, prev, i, j);
    forall k | 0 <= k < |t|
      ensures n2[t[k]] == After(t, k) && p2[t[k]] == Before(t, k)
    {
      ApartAt(s, next, prev, i, j, k);
    }
    LinkedIntro(t, n2, p2);
  }

  /** The head's links after the general case. */
  lemma ApartEnds(s: seq<int>, next: map<int, int>, prev: map<int, int>, i: nat, j: nat)
    requires Linked(s, next, prev) && i < |s| && j < |s| && j != i + 1 && i != j + 1
    ensures var n2 := ApartNext(next, s[i], s[j], Before(s, i), After(s, i), Before(s, j), After(s, j));
            var p2 := ApartPrev(prev, s[i], s[j], Before(s, i), After(s, i), Before(s, j), After(s, j));
            n2.Keys == next.Keys && p2.Keys == prev.Keys
            && n2[HEAD] == After(Swap(s, i, j), -1) && p2[HEAD] == Before(Swap(s, i, j), |s|)
  {
    var t := Swap(s, i, j);
    var a, b, p1, n1, p2, n2 := s[i], s[j], Before(s, i), After(s, i), Before(s, j), After(s, j);
    assert p1 in next && n1 in next && p2 in next && n2 in next;
    KeysKept4(next, b, n1, a, n2, p1, b, p2, a);
    KeysKept4(prev, b, p1, a, p2, n1, b, n2, a);
    if j == 0 {
      assert t[0] == s[i];
    } else if i == 0 {
      assert t[0] == s[j];
    } else {
      assert t[0] == s[0];
    }
    var last := |s| - 1;
    if j == last {
      assert t[last] == s[i];
    } else if i == last {
      assert t[last] == s[j];
    } else {
      assert t[last] == s[last];
    }
  }

  /** The general case in terms of the links the function reads. */
  lemma ApartRelinked(s: seq<int>, next: map<int, int>, prev: map<int, int>, c1: int, c2: int)
    requires Linked(s, next, prev) && c1 in s && c2 in s && next[c1] != c2 && next[c2] != c1
    ensures Linked(Swap(s, IndexOf(s, c1), IndexOf(s, c2)),
                   ApartNext(next, c1, c2, prev[c1], next[c1], prev[c2], next[c2]),
                   ApartPrev(prev, c1, c2, prev[c1], next[c1], prev[c2], next[c2]))
  {
    var i, j := IndexOf(s, c1), IndexOf(s, c2);
    assert j != i + 1 && i != j + 1;
    ApartSwapLinks(s, next, prev, i, j);
  }

  /** One position of the general case. */
  lemma ApartAt(s: seq<int>, next: map<int, int>, prev: map<int, int>, i: nat, j: nat, k: nat)
    requires Distinct(s) && HEAD !in s && i < |s| && j < |s| && j != i + 1 && i != j + 1 && k < |s|
    requires s[k] in next && s[k] in prev && next[s[k]] == After(s, k) && prev[s[k]] == Before(s, k)
    ensures ApartNext(next, s[i], s[j], Before(s, i), After(s, i), Before(s, j), After(s, j))[Swap(s, i, j)[k]] == After(Swap(s, i, j), k)
    ensures ApartPrev(prev, s[i], s[j], Before(s, i), After(s, i), Before(s, j), After(s, j))[Swap(s, i, j)[k]] == Before(Swap(s, i, j), k)
  {
    DistinctAt(s, k, i);
    DistinctAt(s, k, j);
    if i > 0 { DistinctAt(s, k, i - 1); DistinctAt(s, i - 1, j); }
    if j > 0 { DistinctAt(s, k, j - 1); DistinctAt(s, j - 1, i); }
    if i + 1 < |s| { DistinctAt(s, k, i + 1); DistinctAt(s, i + 1, j); }
    if j + 1 < |s| { DistinctAt(s, k, j + 1); DistinctAt(s, j + 1, i); }
  }

  /** Updating keys that are already present keeps the key set. */
  lemma KeysKept4(m: map<int, int>, k1: int, v1: int, k2: int, v2: int, k3: int, v3: int, k4: int, v4: int)
    requires k1 in m && k2 in m && k3 in m && k4 in m
    ensures m[k1 := v1][k2 := v2][k3 := v3][k4 := v4].Keys == m.Keys
  {
    var m1 := m[k1 := v1];
    assert m1.Keys == m.Keys;
    var m2 := m1[k2 := v2];
    assert m2.Keys == m.Keys;
    var m3 := m2[k3 := v3];
    assert m3.Keys == m.Keys;
  }

  /** `Linked` from its parts. */
  lemma LinkedIntro(t: seq<int>, next: map<int, int>, prev: map<int, int>)
    requires Distinct(t) && HEAD !in t && NULL !in t
    requires next.Keys == prev.Keys == {HEAD} + (set x | x in t)
    requires next[HEAD] == After(t, -1) && prev[HEAD] == Before(t, |t|)
    requires forall k :: 0 <= k < |t| ==> next[t[k]] == After(t, k) && prev[t[k]] == Before(t, k)
    ensures Linked(t, next, prev)
  {
  }

  /** What exchanging keeps whatever the links: the swapped order has
    * the same clients, still distinct. */
  lemma SwapShape(s: seq<int>, next: map<int, int>, prev: map<int, int>, i: nat, j: nat)
    requires Linked(s, next, prev) && i < |s| && j < |s|
    ensures Distinct(Swap(s, i, j)) && HEAD !in Swap(s, i, j) && NULL !in Swap(s, i, j)
    ensures (set x | x in Swap(s, i, j)) == (set x | x in s)
  {
    var t := Swap(s, i, j);
    SwapPermutes(s, i, j);
    SameElements(s, t);
    forall a, b | 0 <= a < b < |t| ensures t[a] != t[b] { SwapDistinct(s, i, j, a, b); }
  }

  lemma DistinctAt(s: seq<int>, a: nat, b: nat)
    requires Distinct(s) && a < |s| && b < |s|
    ensures s[a] == s[b] <==> a == b
  {
    if a < b { assert s[a] != s[b]; } else if b < a { assert s[b] != s[a]; }
  }

  lemma SwapDistinct(s: seq<int>, i: nat, j: nat, a: nat, b: nat)
    requires Distinct(s) && i < |s| && j < |s| && a < b < |s|
    ensures Swap(s, i, j)[a] != Swap(s, i, j)[b]
  {
    var t := Swap(s, i, j);
    var a0 := if a == i then j else if a == j then i else a;
    var b0 := if b == i then j else if b == j then i else b;
    assert t[a] == s[a0] && t[b] == s[b0];
    DistinctAt(s, a0, b0);
  }

  lemma SameElements(s: seq<int>, t: seq<int>)
    requires multiset(s) == multiset(t)
    ensures (set x | x in s) == (set x | x in t)
  {
    forall x ensures x in s <==> x in t {
      assert x in s <==> x in multiset(s);
      assert x in t <==> x in multiset(t);
    }
  }

  /** The position of a client in the order. */
  function IndexOf(s: seq<int>, x: int): (k: nat)
    requires x in s
    ensures k < |s| && s[k] == x
  {
    if s[0] == x then 0 else 1 + IndexOf(s[1..], x)
  }

  class Clients {
    var next: map<int, int>
    var prev: map<int, int>
    /** The client order the links describe. */
    ghost var order: seq<int>

    ghost predicate Valid()
      reads this
    {
      Linked(order, next, prev)
    }

    /** An empty list: the head linked to itself. */
    constructor ()
      ensures Valid() && order == []
    {
      next := map[HEAD := HEAD];
      prev := map[HEAD := HEAD];
      order := [];
    }

    /** `exchange_two_client`: nothing happens for a null client or
    * clients on different monitors; otherwise the two clients trade
    * places in the list and every other client keeps its position. */
    method ExchangeTwoClient(c1: int, c2: int, sameMon: bool)
      requires Valid()
      requires c1 == NULL || c1 in order
      requires c2 == NULL || c2 in order
      modifies this
      ensures Valid()
      ensures c1 == NULL || c2 == NULL || !sameMon ==>
                order == old(order) && next == old(next) && prev == old(prev)
      ensures c1 != NULL && c2 != NULL && sameMon ==>
                order == Swap(old(order), IndexOf(old(order), c1), IndexOf(old(order), c2))
    {
      if c1 == NULL || c2 == NULL || !sameMon {
        return;
      }
      if next[c1] == c2 {
        RelinkAdjacent(c1, c2);
      } else if next[c2] == c1 {
        SwapPermutes(order, IndexOf(order, c1), IndexOf(order, c2));
        RelinkAdjacent(c2, c1);
      } else {
        RelinkApart(c1, c2);
      }
    }

    /** The adjacent case, `a` directly before `b` (the source spells it
      * out twice, once for each order of the arguments). */
    method RelinkAdjacent(a: int, b: int)
      requires Valid() && a in order && b in order && next[a] == b
      modifies this
      ensures Valid()
      ensures order == Swap(old(order), IndexOf(old(order), a), IndexOf(old(order), b))
    {
      AdjacentRelinked(order, next, prev, a, b);
      ghost var n0, p0 := next, prev;
      var tmp1Prev := prev[a];
      var tmp2Next := next[b];
      var nx, pv := next, prev;
      nx := nx[a := nx[b]];
      pv := pv[a := b];
      nx := nx[b := a];
      pv := pv[b := tmp1Prev];
      nx := nx[tmp1Prev := b];
      pv := pv[tmp2Next := a];
      assert nx == AdjacentNext(n0, a, b, tmp1Prev, tmp2Next);
      next, prev := nx, pv;
      order := Swap(order, IndexOf(order, a), IndexOf(order, b));
    }

    /** The general case: the two clients are not neighbours. */
    method RelinkApart(c1: int, c2: int)
      requires Valid() && c1 in order && c2 in order && next[c1] != c2 && next[c2] != c1
      modifies this
      ensures Valid()
      ensures order == Swap(old(order), IndexOf(old(order), c1), IndexOf(old(order), c2))
    {
      ApartRelinked(order, next, prev, c1, c2);
      var tmp1Prev, tmp2Prev := prev[c1], prev[c2];
      var tmp1Next, tmp2Next := next[c1], next[c2];
      var nx, pv := next, prev;
      nx := nx[c2 := tmp1Next];
      pv := pv[c2 := tmp1Prev];
      nx := nx[c1 := tmp2Next];
      pv := pv[c1 := tmp2Prev];
      nx := nx[tmp1Prev := c2];
      pv := pv[tmp1Next := c2];
      nx := nx[tmp2Prev := c1];
      pv := pv[tmp2Next := c1];
      next, prev := nx, pv;
      order := Swap(order, IndexOf(order, c1), IndexOf(order, c2));
    }
  }
}
