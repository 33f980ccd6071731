/**
 * The BAP search problem as an object: the instance it was loaded with,
 * the heuristic cache it fills in, and the operations that scan the state
 * with loops (the feasibility test, action generation, the heuristic and
 * the assembly of the solution from the winning action list).
 */
module BerthProblem {
  import opened Wrappers
  import opened BerthSpace

  class BAProblem {
    /** The loaded problem data. */
    const inst: Instance
    /** The heuristic values computed so far, by state. */
    var heuristicCache: map<State, int>

    /** Every cached value is the heuristic of its state. */
    ghost predicate Valid()
      reads this
    {
      && Sized(inst)
      && forall st :: st in heuristicCache ==> |st| == inst.N() && heuristicCache[st] == Heuristic(inst, st)
    }

    /** A problem over loaded data, with an empty heuristic cache. */
    constructor (inst: Instance)
      requires Sized(inst)
      ensures Valid() && this.inst == inst && heuristicCache == map[]
    {
      this.inst := inst;
      heuristicCache := map[];
    }

    /** True iff vessel `v` at (`t`, `p`) overlaps no moored vessel in both time and space. */
    method IsValidAction(state: State, v: nat, t: int, p: int) returns (ok: bool)
      requires Sized(inst) && |state| == inst.N() && v < inst.N()
      ensures ok == Feasible(inst, state, v, t, p)
    {
      var idx := 0;
      while idx < |state|
        invariant 0 <= idx <= |state|
        invariant forall j :: 0 <= j < idx && Moored(state[j]) ==> !Clash(inst, v, Slot(t, p), j, state[j])
      {
        var other := state[idx];
        if other.start != -1 && other.pos != -1 {
          if !(t + inst.pi[v] <= other.start || other.start + inst.pi[idx] <= t) {
            if p < other.pos + inst.si[idx] && p + inst.si[v] > other.pos {
              return false;
            }
          }
        }
        idx := idx + 1;
      }
      return true;
    }

    /**
     * For each unallocated vessel, in index order, the first (time,
     * position) pair of its window that is valid.
     */
    method Actions(state: State) returns (acts: seq<Action>)
      requires Sized(inst) && |state| == inst.N()
      ensures acts == ActionsOf(inst, state)
    {
      acts := [];
      var vessel := 0;
      while vessel < |state|
        invariant 0 <= vessel <= |state|
        invariant acts == FirstFitActions(inst, state, vessel)
      {
        if state[vessel].start == -1 && state[vessel].pos == -1 {
          var maxUi := 0;
          var idx := 0;
          while idx < |state|
            invariant 0 <= idx <= |state|
            invariant maxUi == LatestEnd(inst, state, idx)
          {
            if state[idx].start != -1 && state[idx].pos != -1 {
              if maxUi < state[idx].start + inst.pi[idx] {
                maxUi := state[idx].start + inst.pi[idx];
              }
            }
            idx := idx + 1;
          }
          if maxUi == 0 {
            maxUi := inst.ai[vessel];
          }
          assert maxUi == Horizon(inst, state, vessel);
          var hiP := inst.s - inst.si[vessel];
          ghost var first := ScanTimes(inst, state, vessel, inst.ai[vessel], maxUi, hiP);
          var actionFound := false;
          ghost var chosen := Free;
          var startTime := inst.ai[vessel];
          while startTime <= maxUi
            invariant !actionFound
            invariant acts == FirstFitActions(inst, state, vessel)
            invariant first == ScanTimes(inst, state, vessel, startTime, maxUi, hiP)
            decreases maxUi - startTime
          {
            var berthPosition := 0;
            while berthPosition <= hiP
              invariant 0 <= berthPosition
              invariant !actionFound
              invariant acts == FirstFitActions(inst, state, vessel)
              invariant ScanPositions(inst, state, vessel, startTime, 0, hiP)
                     == ScanPositions(inst, state, vessel, startTime, berthPosition, hiP)
              decreases hiP - berthPosition
            {
              var valid := IsValidAction(state, vessel, startTime, berthPosition);
              if valid {
                acts := acts + [Action(vessel, Slot(startTime, berthPosition))];
                chosen := Slot(startTime, berthPosition);
                actionFound := true;
                break;
              }
              berthPosition := berthPosition + 1;
            }
            if actionFound {
              break;
            }
            startTime := startTime + 1;
          }
          assert actionFound ==> first == Some(chosen) && acts == FirstFitActions(inst, state, vessel) + [Action(vessel, chosen)];
          assert !actionFound ==> first == None && acts == FirstFitActions(inst, state, vessel);
        }
        FirstFitActionsStep(inst, state, vessel + 1);
        vessel := vessel + 1;
      }
    }

    /**
     * The heuristic of `state`: the cached value when there is one,
     * otherwise the summed weighted flow times of the state's actions,
     * which are then cached.
     */
    method H(state: State) returns (h: int)
      requires Valid() && |state| == inst.N()
      modifies this
      ensures Valid()
      ensures h == Heuristic(inst, state)
      ensures heuristicCache == old(heuristicCache)[state := h]
    {
      if state in heuristicCache {
        h := heuristicCache[state];
        assert heuristicCache[state := h] == heuristicCache;
        return;
      }
      h := 0;
      var acts := Actions(state);
      assert InRange(acts, inst.N());
      var k := 0;
      while k < |acts|
        invariant 0 <= k <= |acts|
        invariant h == ActionsCost(inst, acts[..k])
      {
        var i := acts[k].vessel;
        var ci := acts[k].slot.start + inst.pi[i];
        var fi := ci - inst.ai[i];
        h := h + inst.wi[i] * fi;
        assert acts[..k + 1][..k] == acts[..k];
        k := k + 1;
      }
      assert acts[..|acts|] == acts;
      assert h == Heuristic(inst, state);
      heuristicCache := heuristicCache[state := h];
    }

    /**
     * The solution built from the action list of a goal node: every vessel
     * starts at (-1, -1) and each action writes its pair into its own
     * vessel's slot, in list order; no goal node gives no solution.
     */
    method Solve(plan: Option<seq<Action>>) returns (solution: Option<State>)
      requires plan.Some? ==> InRange(plan.value, inst.N())
      ensures plan.None? ==> solution.None?
      ensures plan.Some? ==> solution == Some(Apply(Initial(inst.N()), plan.value))
    {
      if plan.None? {
        return None;
      }
      var actions := plan.value;
      var slots := new Slot[inst.N()](_ => Free);
      var k := 0;
      while k < |actions|
        invariant 0 <= k <= |actions|
        invariant slots.Length == inst.N()
        invariant forall i :: 0 <= i < slots.Length ==> slots[i] == Apply(Initial(inst.N()), actions[..k])[i]
      {
        var a := actions[k];
        slots[a.vessel] := a.slot;
        assert actions[..k + 1][..k] == actions[..k];
        k := k + 1;
      }
      assert actions[..|actions|] == actions;
      assert slots[..] == Apply(Initial(inst.N()), actions);
      return Some(slots[..]);
    }
  }
}
