/**
 * What the search side guarantees to the validator side: a solution
 * assembled from a run of offered actions that reaches the goal passes
 * the validator (as written and corrected), and the path cost the run
 * accumulates is the validator's weighted flow-time total.
 */
module CheckerBridge {
  import opened BerthSpace
  import opened BerthRuns
  import PlanChecker

  /** The mooring times of a solution. */
  function Starts(sol: State): (ui: seq<int>)
    ensures |ui| == |sol| && forall i :: 0 <= i < |sol| ==> ui[i] == sol[i].start
  {
    seq(|sol|, i requires 0 <= i < |sol| => sol[i].start)
  }

  /** The berth positions of a solution. */
  function Positions(sol: State): (vi: seq<int>)
    ensures |vi| == |sol| && forall i :: 0 <= i < |sol| ==> vi[i] == sol[i].pos
  {
    seq(|sol|, i requires 0 <= i < |sol| => sol[i].pos)
  }

  /**
   * The validator's rectangle test and the search's overlap relation agree.
   */
  lemma IntersectIsClash(inst: Instance, sol: State, i: nat, j: nat)
    requires Sized(inst) && |sol| == inst.N() && i < |sol| && j < |sol|
    ensures PlanChecker.Intersect(inst.pi, inst.si, Starts(sol), Positions(sol), i, j)
        <==> Clash(inst, i, sol[i], j, sol[j])
  {
  }

  /**
   * With positive processing times and lengths, every pair the validator's
   * one-sided test rejects also clashes under the feasibility test of the
   * search.
   */
  lemma RejectedPairClashes(inst: Instance, sol: State, i: nat, j: nat)
    requires Sized(inst) && Positive(inst) && |sol| == inst.N() && i < |sol| && j < |sol|
    requires PlanChecker.StartsInside(inst.pi, inst.si, Starts(sol), Positions(sol), i, j)
    ensures Clash(inst, i, sol[i], j, sol[j])
  {
    PlanChecker.StartsInsideIsIntersect(inst.pi, inst.si, Starts(sol), Positions(sol), i, j);
    IntersectIsClash(inst, sol, i, j);
  }

  /**
   * A solution assembled from a legal run that reaches the goal passes the
   * corrected validator, and hence the validator as written: right length,
   * no vessel before its arrival, every berth on the quay, no overlaps.
   */
  lemma SolvedPlanPassesCheck(inst: Instance, acts: seq<Action>, sol: State)
    requires Sized(inst) && ArrivalsNonNegative(inst) && Positive(inst)
    requires LegalRun(inst, Initial(inst.N()), acts)
    requires sol == Apply(Initial(inst.N()), acts) && GoalTest(sol)
    ensures PlanChecker.AcceptsCorrected(inst.s, inst.N(), inst.ai, inst.pi, inst.si, Starts(sol), Positions(sol))
    ensures PlanChecker.Accepts(inst.s, inst.N(), inst.ai, inst.pi, inst.si, Starts(sol), Positions(sol))
  {
    var ui, vi := Starts(sol), Positions(sol);
    var n := inst.N();
    ReachableStatesConsistent(inst, acts);
    forall i | 0 <= i < n
      ensures Moored(sol[i]) && inst.ai[i] <= ui[i] && 0 <= vi[i] <= inst.s - inst.si[i]
    {
      assert !Pending(sol[i]);
      assert SlotOk(inst, i, sol[i]);
    }
    forall i, j | 0 <= i < n && 0 <= j < n && i != j
      ensures !PlanChecker.Intersect(inst.pi, inst.si, ui, vi, i, j)
    {
      IntersectIsClash(inst, sol, i, j);
    }
    PlanChecker.CorrectedAcceptsExactly(inst.s, n, inst.ai, inst.pi, inst.si, ui, vi);
    PlanChecker.CorrectedIsStricter(inst.s, n, inst.ai, inst.pi, inst.si, ui, vi);
  }

  /** In a goal state the allocated flow of the first `k` vessels is the
      sum of the first `k` weighted flow times computed from its starts. */
  lemma {:induction false} GoalFlowIsSum(inst: Instance, sol: State, w: seq<int>, k: nat)
    requires Sized(inst) && |sol| == inst.N() && GoalTest(sol) && k <= |sol| && |w| == |sol|
    requires forall i :: 0 <= i < |w| ==> w[i] == inst.wi[i] * ((Starts(sol)[i] + inst.pi[i]) - inst.ai[i])
    ensures AssignedFlow(inst, sol, k) == PlanChecker.Sum(w[..k])
  {
    if k > 0 {
      GoalFlowIsSum(inst, sol, w, k - 1);
      assert !Pending(sol[k - 1]);
      assert w[..k][..k - 1] == w[..k - 1];
    }
  }

  /**
   * The total the search's path cost accumulates along any run that only
   * fills free slots, in whatever vessel order, and reaches the goal `sol`
   * equals the validator's `sum(wi_fi_product)` for the solution's mooring
   * times.
   */
  lemma PlanCostIsFlow(inst: Instance, acts: seq<Action>, sol: State, wiFi: seq<int>)
    requires Sized(inst) && InRange(acts, inst.N())
    requires FillsFreeSlots(Initial(inst.N()), acts)
    requires sol == Apply(Initial(inst.N()), acts) && GoalTest(sol)
    requires |wiFi| == |sol|
    requires forall i :: 0 <= i < |wiFi| ==> wiFi[i] == inst.wi[i] * ((Starts(sol)[i] + inst.pi[i]) - inst.ai[i])
    ensures RunCost(inst, Initial(inst.N()), acts, 0) == PlanChecker.Sum(wiFi)
  {
    PlanCostIsAssignedFlow(inst, acts);
    GoalFlowIsSum(inst, sol, wiFi, |sol|);
    assert wiFi[..|sol|] == wiFi;
  }
}
