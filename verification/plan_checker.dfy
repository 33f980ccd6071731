/**
 * The stand-alone validator of a produced plan (mooring times `ui`, berth
 * positions `vi`) against the loaded data (quay length `s`, vessel count
 * `n`, arrivals `ai`, processing times `pi`, lengths `si`, weights `wi`),
 * and the weighted flow-time computation that goes with it.
 */
module PlanChecker {

  /** The per-vessel data lists and the plan lists have the lengths the
      reading code gives them. */
  predicate Loaded(n: nat, ai: seq<int>, pi: seq<int>, si: seq<int>, ui: seq<int>, vi: seq<int>)
  {
    |ai| == n && |pi| == n && |si| == n && |ui| == |vi|
  }

  /** Every vessel moors at or after its arrival. */
  predicate ArrivalsRespected(ai: seq<int>, ui: seq<int>)
    requires |ui| == |ai|
  {
    forall i :: 0 <= i < |ai| ==> ai[i] <= ui[i]
  }

  /** Every vessel's berth lies wholly on the quay. */
  predicate BerthsOnQuay(s: int, si: seq<int>, vi: seq<int>)
    requires |vi| == |si|
  {
    forall i :: 0 <= i < |si| ==> 0 <= vi[i] <= s - si[i]
  }

  /**
   * The pairwise test as written: vessel `j` starts inside vessel `i`'s
   * berth range and inside `i`'s processing time.
   */
  predicate StartsInside(pi: seq<int>, si: seq<int>, ui: seq<int>, vi: seq<int>, i: nat, j: nat)
    requires i < |pi| && i < |si| && i < |ui| && i < |vi| && j < |ui| && j < |vi|
  {
    && vi[i] <= vi[j] <= vi[i] + si[i] - 1
    && ui[i] <= ui[j] <= ui[i] + pi[i] - 1
  }

  /** No later-indexed vessel starts inside an earlier-indexed one. */
  predicate NoStartsInside(pi: seq<int>, si: seq<int>, ui: seq<int>, vi: seq<int>)
    requires |pi| == |ui| && |si| == |ui| && |vi| == |ui|
  {
    forall i, j :: 0 <= i < j < |ui| ==> !StartsInside(pi, si, ui, vi, i, j)
  }

  /** What the validator accepts. */
  predicate Accepts(s: int, n: nat, ai: seq<int>, pi: seq<int>, si: seq<int>, ui: seq<int>, vi: seq<int>)
    requires Loaded(n, ai, pi, si, ui, vi)
  {
    && |ui| == n
    && ArrivalsRespected(ai, ui)
    && BerthsOnQuay(s, si, vi)
    && NoStartsInside(pi, si, ui, vi)
  }

  /**
   * The validator as written: it rejects a plan whose length is not the
   * vessel count, a vessel moored before its arrival, a berth off the
   * quay, and a pair i < j where j starts inside i in both time and space.
   */
  method Check(s: int, n: nat, ai: seq<int>, pi: seq<int>, si: seq<int>, ui: seq<int>, vi: seq<int>)
    returns (ok: bool)
    requires Loaded(n, ai, pi, si, ui, vi)
    ensures ok == Accepts(s, n, ai, pi, si, ui, vi)
  {
    if |ui| != n {
      return false;
    }
    var i := 0;
    while i < |ai|
      invariant 0 <= i <= |ai|
      invariant forall k :: 0 <= k < i ==> ai[k] <= ui[k]
    {
      if ui[i] < ai[i] {
        return false;
      }
      i := i + 1;
    }
    i := 0;
    while i < |vi|
      invariant 0 <= i <= |vi|
      invariant forall k :: 0 <= k < i ==> 0 <= vi[k] <= s - si[k]
    {
      if vi[i] < 0 || vi[i] > s - si[i] {
        return false;
      }
      i := i + 1;
    }
    i := 0;
    while i < |vi|
      invariant 0 <= i <= |vi|
      invariant forall a, b :: 0 <= a < i && a < b < |ui| ==> !StartsInside(pi, si, ui, vi, a, b)
    {
      var ind := i;
      var lUpper := vi[i] + si[i] - 1;
      var lLower := vi[i];
      while ind < |ui| - 1
        invariant i <= ind <= |ui| - 1
        invariant forall b :: i < b <= ind ==> !StartsInside(pi, si, ui, vi, i, b)
      {
        ind := ind + 1;
        if vi[ind] <= lUpper && vi[ind] >= lLower {
          var tUpper := ui[i] + pi[i] - 1;
          var tLower := ui[i];
          if ui[ind] <= tUpper && ui[ind] >= tLower {
            assert StartsInside(pi, si, ui, vi, i, ind);
            return false;
          }
        }
      }
      i := i + 1;
    }
    return true;
  }

  /** Vessels `i` and `j` overlap both in time and on the quay (each
      occupies the half-open intervals its start and size give). */
  predicate Intersect(pi: seq<int>, si: seq<int>, ui: seq<int>, vi: seq<int>, i: nat, j: nat)
    requires i < |pi| && i < |si| && i < |ui| && i < |vi|
    requires j < |pi| && j < |si| && j < |ui| && j < |vi|
  {
    && ui[i] < ui[j] + pi[j] && ui[j] < ui[i] + pi[i]
    && vi[i] < vi[j] + si[j] && vi[j] < vi[i] + si[i]
  }

  /**
   * With positive processing times and lengths, a pair the validator
   * rejects really overlaps.
   */
  lemma StartsInsideIsIntersect(pi: seq<int>, si: seq<int>, ui: seq<int>, vi: seq<int>, i: nat, j: nat)
    requires |pi| == |ui| && |si| == |ui| && |vi| == |ui| && i < |ui| && j < |ui|
    requires pi[j] > 0 && si[j] > 0
    requires StartsInside(pi, si, ui, vi, i, j)
    ensures Intersect(pi, si, ui, vi, i, j)
  {
  }

  /**
   * The pairwise test is one-sided: the validator accepts a plan in which
   * vessel 1 starts before vessel 0 on the same berth while vessel 0 is
   * still moored there.
   */
  lemma CheckAcceptsOverlap()
    ensures var s, ai, pi, si, ui, vi := 1, [0, 0], [2, 2], [1, 1], [1, 0], [0, 0];
      Accepts(s, 2, ai, pi, si, ui, vi) && Intersect(pi, si, ui, vi, 0, 1)
  {
    var s, ai, pi, si, ui, vi := 1, [0, 0], [2, 2], [1, 1], [1, 0], [0, 0];
    forall i, j | 0 <= i < j < 2
      ensures !StartsInside(pi, si, ui, vi, i, j)
    {
      assert i == 0 && j == 1;
    }
  }

  /** Intervals of sizes `la` and `lb` starting at `a` and `b` overlap:
      one starts inside the other. */
  predicate Overlap1D(a: int, la: int, b: int, lb: int)
  {
    (a <= b <= a + la - 1) || (b <= a <= b + lb - 1)
  }

  /** The two-sided pairwise test. */
  predicate Overlaps(pi: seq<int>, si: seq<int>, ui: seq<int>, vi: seq<int>, i: nat, j: nat)
    requires i < |pi| && i < |si| && i < |ui| && i < |vi|
    requires j < |pi| && j < |si| && j < |ui| && j < |vi|
  {
    Overlap1D(ui[i], pi[i], ui[j], pi[j]) && Overlap1D(vi[i], si[i], vi[j], si[j])
  }

  /** What the corrected validator accepts. */
  predicate AcceptsCorrected(s: int, n: nat, ai: seq<int>, pi: seq<int>, si: seq<int>, ui: seq<int>, vi: seq<int>)
    requires Loaded(n, ai, pi, si, ui, vi)
  {
    && |ui| == n
    && ArrivalsRespected(ai, ui)
    && BerthsOnQuay(s, si, vi)
    && forall i, j :: 0 <= i < j < |ui| ==> !Overlaps(pi, si, ui, vi, i, j)
  }

  /**
   * The validator with the two-sided pairwise test: it also rejects a pair
   * where the earlier-indexed vessel starts inside the later one in either
   * dimension.
   */
  method CheckCorrected(s: int, n: nat, ai: seq<int>, pi: seq<int>, si: seq<int>, ui: seq<int>, vi: seq<int>)
    returns (ok: bool)
    requires Loaded(n, ai, pi, si, ui, vi)
    ensures ok == AcceptsCorrected(s, n, ai, pi, si, ui, vi)
  {
    if |ui| != n {
      return false;
    }
    var i := 0;
    while i < |ai|
      invariant 0 <= i <= |ai|
      invariant forall k :: 0 <= k < i ==> ai[k] <= ui[k]
    {
      if ui[i] < ai[i] {
        return false;
      }
      i := i + 1;
    }
    i := 0;
    while i < |vi|
      invariant 0 <= i <= |vi|
      invariant forall k :: 0 <= k < i ==> 0 <= vi[k] <= s - si[k]
    {
      if vi[i] < 0 || vi[i] > s - si[i] {
        return false;
      }
      i := i + 1;
    }
    i := 0;
    while i < |vi|
      invariant 0 <= i <= |vi|
      invariant forall a, b :: 0 <= a < i && a < b < |ui| ==> !Overlaps(pi, si, ui, vi, a, b)
    {
      var ind := i;
      while ind < |ui| - 1
        invariant i <= ind <= |ui| - 1
        invariant forall b :: i < b <= ind ==> !Overlaps(pi, si, ui, vi, i, b)
      {
        ind := ind + 1;
        var spaceOverlap := (vi[i] <= vi[ind] <= vi[i] + si[i] - 1) || (vi[ind] <= vi[i] <= vi[ind] + si[ind] - 1);
        var timeOverlap := (ui[i] <= ui[ind] <= ui[i] + pi[i] - 1) || (ui[ind] <= ui[i] <= ui[ind] + pi[ind] - 1);
        if spaceOverlap && timeOverlap {
          assert Overlaps(pi, si, ui, vi, i, ind);
          return false;
        }
      }
      i := i + 1;
    }
    return true;
  }

  /**
   * With positive processing times and lengths, the corrected validator
   * accepts exactly the plans of the right length in which every vessel
   * moors after its arrival, on the quay, and no two vessels overlap in
   * both time and space.
   */
  lemma CorrectedAcceptsExactly(s: int, n: nat, ai: seq<int>, pi: seq<int>, si: seq<int>, ui: seq<int>, vi: seq<int>)
    requires Loaded(n, ai, pi, si, ui, vi)
    requires forall i :: 0 <= i < n ==> pi[i] > 0 && si[i] > 0
    ensures AcceptsCorrected(s, n, ai, pi, si, ui, vi) <==>
      && |ui| == n
      && ArrivalsRespected(ai, ui)
      && BerthsOnQuay(s, si, vi)
      && forall i, j :: 0 <= i < n && 0 <= j < n && i != j ==> !Intersect(pi, si, ui, vi, i, j)
  {
    if |ui| == n {
      forall i, j | 0 <= i < n && 0 <= j < n && i != j
        ensures Overlaps(pi, si, ui, vi, i, j) <==> Intersect(pi, si, ui, vi, i, j)
        ensures Intersect(pi, si, ui, vi, i, j) <==> Intersect(pi, si, ui, vi, j, i)
      {
      }
    }
  }

  /** Every plan the corrected validator accepts, the validator as written accepts too. */
  lemma CorrectedIsStricter(s: int, n: nat, ai: seq<int>, pi: seq<int>, si: seq<int>, ui: seq<int>, vi: seq<int>)
    requires Loaded(n, ai, pi, si, ui, vi)
    requires AcceptsCorrected(s, n, ai, pi, si, ui, vi)
    ensures Accepts(s, n, ai, pi, si, ui, vi)
  {
    forall i, j | 0 <= i < j < |ui|
      ensures !StartsInside(pi, si, ui, vi, i, j)
    {
      assert !Overlaps(pi, si, ui, vi, i, j);
    }
  }

  /** The sum of a list. */
  function Sum(xs: seq<int>): int
  {
    if xs == [] then 0 else Sum(xs[..|xs| - 1]) + xs[|xs| - 1]
  }

  /**
   * The flow-time computation: when there is one mooring time per
   * vessel, each vessel's departure `ci`, flow time `fi` and weighted flow
   * time; otherwise three empty lists. `flow` is the sum of the weighted
   * flow times.
   */
  method FlowTime(ai: seq<int>, pi: seq<int>, wi: seq<int>, ui: seq<int>)
    returns (ci: seq<int>, fi: seq<int>, wiFi: seq<int>, flow: int)
    requires |ai| == |pi| && |wi| == |pi|
    ensures |ui| == |pi| ==> |ci| == |ui| && |fi| == |ui| && |wiFi| == |ui|
    ensures |ui| == |pi| ==> forall i :: 0 <= i < |ui| ==>
              ci[i] == ui[i] + pi[i] && fi[i] == ci[i] - ai[i] && wiFi[i] == wi[i] * fi[i]
    ensures |ui| != |pi| ==> ci == [] && fi == [] && wiFi == []
    ensures flow == Sum(wiFi)
  {
    ci, fi, wiFi := [], [], [];
    if |ui| == |pi| {
      var i := 0;
      while i < |ui|
        invariant 0 <= i <= |ui|
        invariant |ci| == i && |fi| == i && |wiFi| == i
        invariant forall k :: 0 <= k < i ==>
                    ci[k] == ui[k] + pi[k] && fi[k] == ci[k] - ai[k] && wiFi[k] == wi[k] * fi[k]
      {
        ci := ci + [ui[i] + pi[i]];
        fi := fi + [ci[i] - ai[i]];
        wiFi := wiFi + [wi[i] * fi[i]];
        i := i + 1;
      }
    }
    flow := Sum(wiFi);
  }
}
