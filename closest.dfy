/** The nearest-candidate search shared by `center_select` and
  * `find_client_by_direction`: among flagged entries, the first one of
  * least distance. */
module Closest {
  import opened Opt

  /** The first candidate of least distance among the first `k`. */
  function Nearest(cand: seq<bool>, dist: seq<int>, k: nat): (r: Option<nat>)
    requires |cand| == |dist| && k <= |cand|
    ensures r.Some? ==> r.value < k
  {
    if k == 0 then None
    else
      var b := Nearest(cand, dist, k - 1);
      if cand[k - 1] && (b.None? || dist[k - 1] < dist[b.value]) then Some(k - 1) else b
  }

  /** `Nearest` is the first of the nearest candidates, and none exactly
    * when there is no candidate. */
  lemma {:induction false} NearestIsFirstLeast(cand: seq<bool>, dist: seq<int>, k: nat)
    requires |cand| == |dist| && k <= |cand|
    ensures Nearest(cand, dist, k).None? <==> forall j :: 0 <= j < k ==> !cand[j]
    ensures var r := Nearest(cand, dist, k);
            r.Some? ==> cand[r.value]
                        && (forall j :: 0 <= j < k && cand[j] ==> dist[r.value] <= dist[j])
                        && (forall j :: 0 <= j < r.value && cand[j] ==> dist[r.value] < dist[j])
  {
    if k > 0 {
      NearestIsFirstLeast(cand, dist, k - 1);
    }
  }

  /** The selection loop over the candidate flags and distances: a
    * candidate replaces the best so far only when strictly nearer, so the
    * first of the nearest wins. */
  method FirstNearest(cand: seq<bool>, dist: seq<int>) returns (r: Option<nat>)
    requires |cand| == |dist|
    ensures r == Nearest(cand, dist, |cand|)
  {
    var bi: int := -1;
    var best := -1;
    var k := 0;
    while k < |cand|
      invariant k <= |cand| && -1 <= bi < k
      invariant Nearest(cand, dist, k) == if bi >= 0 then Some(bi) else None
      invariant bi >= 0 ==> best == dist[bi]
    {
      if cand[k] && (bi == -1 || dist[k] < best) {
        best := dist[k];
        bi := k;
      }
      k := k + 1;
    }
    r := if bi >= 0 then Some(bi) else None;
  }
}
