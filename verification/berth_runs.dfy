/**
 * Runs of the BAP state space: sequences of actions applied from a state,
 * the invariant every run from the initial state keeps (no two moored
 * vessels overlap, each respects its arrival and the quay), the cost a run
 * accumulates, and properties of the heuristic.
 */
module BerthRuns {
  import opened Wrappers
  import opened BerthSpace

  /** Slot `x` of vessel `i` is unallocated, or moored no earlier than the
      vessel's arrival and wholly on the quay. */
  predicate SlotOk(inst: Instance, i: nat, x: Slot)
    requires Sized(inst) && i < inst.N()
  {
    Unallocated(x) || (Moored(x) && inst.ai[i] <= x.start && 0 <= x.pos <= inst.s - inst.si[i])
  }

  /** The invariant of reachable states: one slot per vessel, every slot
      well placed, and no two moored vessels clash. */
  predicate Consistent(inst: Instance, state: State)
    requires Sized(inst)
  {
    && |state| == inst.N()
    && (forall i :: 0 <= i < |state| ==> SlotOk(inst, i, state[i]))
    && (forall i, j :: 0 <= i < |state| && 0 <= j < |state| && i != j && Moored(state[i]) && Moored(state[j]) ==>
          !Clash(inst, i, state[i], j, state[j]))
  }

  /** Each action of `acts` is one the state it is taken from offers. */
  predicate LegalRun(inst: Instance, state: State, acts: seq<Action>)
    requires Sized(inst) && |state| == inst.N()
  {
    && InRange(acts, |state|)
    && (acts == [] ||
        var prefix := acts[..|acts| - 1];
        && LegalRun(inst, state, prefix)
        && acts[|acts| - 1] in ActionsOf(inst, Apply(state, prefix)))
  }

  /** Taking an offered action from a consistent state gives a consistent state. */
  lemma StepKeepsConsistent(inst: Instance, state: State, a: Action)
    requires Sized(inst) && ArrivalsNonNegative(inst)
    requires Consistent(inst, state) && a in ActionsOf(inst, state)
    ensures a.vessel < |state| && Consistent(inst, Result(state, a))
  {
    OfferedActionIsFirstFit(inst, state, a);
    var v := a.vessel;
    FirstFitIsLeast(inst, state, v);
    assert Unallocated(state[v]) && FirstFit(inst, state, v) == Some(a.slot);
    assert Feasible(inst, state, v, a.slot.start, a.slot.pos);
    var r := Result(state, a);
    assert SlotOk(inst, v, r[v]);
    forall i, j | 0 <= i < |r| && 0 <= j < |r| && i != j && Moored(r[i]) && Moored(r[j])
      ensures !Clash(inst, i, r[i], j, r[j])
    {
      if i == v {
        assert !Clash(inst, v, Slot(a.slot.start, a.slot.pos), j, state[j]);
      } else if j == v {
        assert !Clash(inst, v, Slot(a.slot.start, a.slot.pos), i, state[i]);
      }
    }
  }

  /** Every state a legal run reaches from a consistent state is consistent. */
  lemma {:induction false} RunKeepsConsistent(inst: Instance, state: State, acts: seq<Action>)
    requires Sized(inst) && ArrivalsNonNegative(inst)
    requires Consistent(inst, state) && LegalRun(inst, state, acts)
    ensures Consistent(inst, Apply(state, acts))
  {
    if acts != [] {
      var prefix := acts[..|acts| - 1];
      RunKeepsConsistent(inst, state, prefix);
      StepKeepsConsistent(inst, Apply(state, prefix), acts[|acts| - 1]);
    }
  }

  /**
   * Every state reached from the initial state by offered actions keeps
   * each moored vessel after its arrival and on the quay, and no two
   * moored vessels overlap in time and space.
   */
  lemma ReachableStatesConsistent(inst: Instance, acts: seq<Action>)
    requires Sized(inst) && ArrivalsNonNegative(inst)
    requires LegalRun(inst, Initial(inst.N()), acts)
    ensures Consistent(inst, Apply(Initial(inst.N()), acts))
  {
    RunKeepsConsistent(inst, Initial(inst.N()), acts);
  }

  /** Each action of `acts` writes a non-sentinel pair into a slot that is
      still unallocated when it is taken. */
  predicate FillsFreeSlots(state: State, acts: seq<Action>)
    requires InRange(acts, |state|)
  {
    acts == [] ||
    var prefix := acts[..|acts| - 1];
    var a := acts[|acts| - 1];
    && FillsFreeSlots(state, prefix)
    && Unallocated(Apply(state, prefix)[a.vessel])
    && !Unallocated(a.slot)
  }

  /** A legal run only fills free slots, and gives no vessel two actions. */
  lemma {:induction false} LegalRunFillsFreeSlots(inst: Instance, state: State, acts: seq<Action>)
    requires Sized(inst) && |state| == inst.N()
    requires LegalRun(inst, state, acts)
    ensures FillsFreeSlots(state, acts)
  {
    if acts != [] {
      var prefix := acts[..|acts| - 1];
      var a := acts[|acts| - 1];
      LegalRunFillsFreeSlots(inst, state, prefix);
      var mid := Apply(state, prefix);
      OfferedActionIsFirstFit(inst, mid, a);
      FirstFitIsLeast(inst, mid, a.vessel);
    }
  }

  /** The path cost a run accumulates from `c`, one step's cost per action. */
  function RunCost(inst: Instance, state: State, acts: seq<Action>, c: int): int
    requires Sized(inst) && |state| == inst.N() && InRange(acts, |state|)
  {
    if acts == [] then c
    else
      var prefix := acts[..|acts| - 1];
      var a := acts[|acts| - 1];
      PathCost(inst, RunCost(inst, state, prefix, c), Apply(state, prefix), a, Apply(state, acts))
  }

  /** The summed weighted flow times of the allocated vessels among the first `k`. */
  function AssignedFlow(inst: Instance, state: State, k: nat): int
    requires Sized(inst) && |state| == inst.N() && k <= |state|
  {
    if k == 0 then 0
    else
      AssignedFlow(inst, state, k - 1)
      + (if Unallocated(state[k - 1]) then 0 else WeightedFlow(inst, k - 1, state[k - 1].start))
  }

  /** Filling the free slot of vessel `v` adds exactly that vessel's weighted flow time. */
  lemma {:induction false} AssignedFlowFill(inst: Instance, state: State, v: nat, x: Slot, k: nat)
    requires Sized(inst) && |state| == inst.N() && v < |state| && k <= |state|
    requires Unallocated(state[v]) && !Unallocated(x)
    ensures AssignedFlow(inst, state[v := x], k)
         == AssignedFlow(inst, state, k) + (if v < k then WeightedFlow(inst, v, x.start) else 0)
  {
    if k > 0 {
      AssignedFlowFill(inst, state, v, x, k - 1);
    }
  }

  /** No vessel of the initial state contributes. */
  lemma {:induction false} InitialAssignedFlow(inst: Instance, k: nat)
    requires Sized(inst) && k <= inst.N()
    ensures AssignedFlow(inst, Initial(inst.N()), k) == 0
  {
    if k > 0 {
      InitialAssignedFlow(inst, k - 1);
    }
  }

  /**
   * Along any run that fills free slots, in whatever vessel order, the
   * accumulated path cost grows by exactly the weighted flow times of the
   * vessels it allocates.
   */
  lemma {:induction false} RunCostIsAssignedFlow(inst: Instance, state: State, acts: seq<Action>, c: int)
    requires Sized(inst) && |state| == inst.N() && InRange(acts, |state|)
    requires FillsFreeSlots(state, acts)
    ensures RunCost(inst, state, acts, c)
         == c + AssignedFlow(inst, Apply(state, acts), |state|) - AssignedFlow(inst, state, |state|)
  {
    if acts != [] {
      var prefix := acts[..|acts| - 1];
      var a := acts[|acts| - 1];
      RunCostIsAssignedFlow(inst, state, prefix, c);
      var mid := Apply(state, prefix);
      assert Apply(state, acts) == mid[a.vessel := a.slot];
      AssignedFlowFill(inst, mid, a.vessel, a.slot, |state|);
    }
  }

  /**
   * From the initial state, the cost of any run that fills free slots is
   * the summed weighted flow time of the vessels it allocated.
   */
  lemma PlanCostIsAssignedFlow(inst: Instance, acts: seq<Action>)
    requires Sized(inst) && InRange(acts, inst.N())
    requires FillsFreeSlots(Initial(inst.N()), acts)
    ensures RunCost(inst, Initial(inst.N()), acts, 0) == AssignedFlow(inst, Apply(Initial(inst.N()), acts), inst.N())
  {
    RunCostIsAssignedFlow(inst, Initial(inst.N()), acts, 0);
    InitialAssignedFlow(inst, inst.N());
  }

  /** A goal state offers no action, so its heuristic is 0. */
  lemma GoalHasNoActions(inst: Instance, state: State)
    requires Sized(inst) && |state| == inst.N() && GoalTest(state)
    ensures ActionsOf(inst, state) == [] && Heuristic(inst, state) == 0
  {
    var acts := ActionsOf(inst, state);
    if acts != [] {
      OfferedActionIsFirstFit(inst, state, acts[0]);
      assert Pending(state[acts[0].vessel]);
      assert false;
    }
  }

  /** With non-negative weights and processing times the heuristic is never negative. */
  lemma HeuristicNonNegative(inst: Instance, state: State)
    requires Sized(inst) && |state| == inst.N()
    requires forall i :: 0 <= i < inst.N() ==> inst.wi[i] >= 0 && inst.pi[i] >= 0
    ensures Heuristic(inst, state) >= 0
  {
    var acts := ActionsOf(inst, state);
    forall k | 0 <= k < |acts|
      ensures inst.wi[acts[k].vessel] >= 0 && acts[k].slot.start + inst.pi[acts[k].vessel] >= inst.ai[acts[k].vessel]
    {
      OfferedActionIsFirstFit(inst, state, acts[k]);
      FirstFitIsLeast(inst, state, acts[k].vessel);
    }
    ActionsCostNonNegative(inst, acts);
  }

  /**
   * A vessel whose window reaches past its arrival, on a quay at least as
   * long as the vessel, always gets a first-fit slot: at the horizon every
   * moored vessel has left, so position 0 is free.
   */
  lemma FirstFitExists(inst: Instance, state: State, v: nat)
    requires Sized(inst) && |state| == inst.N() && v < inst.N()
    requires inst.ai[v] >= 0 && inst.si[v] <= inst.s && inst.ai[v] <= Horizon(inst, state, v)
    ensures FirstFit(inst, state, v).Some?
  {
    var h := Horizon(inst, state, v);
    HorizonAfterMoored(inst, state, v);
    assert InWindow(inst, state, v, h, 0);
    forall j | 0 <= j < |state| && Moored(state[j])
      ensures !Clash(inst, v, Slot(h, 0), j, state[j])
    {
      assert state[j].start + inst.pi[j] <= h;
    }
    assert Feasible(inst, state, v, h, 0);
    FirstFitIsLeast(inst, state, v);
  }

  /** The two-vessel instance of `HeuristicNotConsistent`. */
  function LateArrival(): (inst: Instance)
    ensures Sized(inst) && inst.N() == 2
  {
    Instance(1, [0, 10], [1, 1], [1, 1], [1, 1])
  }

  /** Initially each vessel of `LateArrival` is offered its arrival time at position 0. */
  lemma LateArrivalInitialActions()
    ensures ActionsOf(LateArrival(), Initial(2)) == [Action(0, Slot(0, 0)), Action(1, Slot(10, 0))]
  {
    var inst, s0 := LateArrival(), Initial(2);
    assert s0 == [Free, Free];
    assert LatestEnd(inst, s0, 1) == 0;
    assert LatestEnd(inst, s0, 2) == 0;
    assert Feasible(inst, s0, 0, 0, 0);
    assert FirstFit(inst, s0, 0) == Some(Slot(0, 0));
    assert Feasible(inst, s0, 1, 10, 0);
    assert FirstFit(inst, s0, 1) == Some(Slot(10, 0));
    FirstFitActionsStep(inst, s0, 1);
    FirstFitActionsStep(inst, s0, 2);
  }

  /** Once vessel 0 of `LateArrival` moors at (0, 0), vessel 1's window is empty. */
  lemma LateArrivalDeadEnd()
    ensures ActionsOf(LateArrival(), [Slot(0, 0), Free]) == []
  {
    var inst, s1 := LateArrival(), [Slot(0, 0), Free];
    assert LatestEnd(inst, s1, 1) == 1;
    assert LatestEnd(inst, s1, 2) == 1;
    assert FirstFit(inst, s1, 1) == None;
    FirstFitActionsStep(inst, s1, 1);
    FirstFitActionsStep(inst, s1, 2);
  }

  /**
   * The heuristic is not consistent, and a state the search reaches can be
   * a dead end: with a quay of length 1 and two unit vessels arriving at 0
   * and 10, mooring vessel 0 at (0, 0) costs 1 but drops the heuristic from
   * 2 to 0, because vessel 1's scan window (times 10 to 1) is then empty;
   * that successor offers no action and is not a goal.
   */
  lemma HeuristicNotConsistent()
    ensures var inst, s0, a := LateArrival(), Initial(2), Action(0, Slot(0, 0));
      var s1 := Result(s0, a);
      && a in ActionsOf(inst, s0)
      && Heuristic(inst, s0) == 2
      && PathCost(inst, 0, s0, a, s1) == 1
      && Heuristic(inst, s1) == 0
      && ActionsOf(inst, s1) == [] && !GoalTest(s1)
  {
    var inst, s0, a := LateArrival(), Initial(2), Action(0, Slot(0, 0));
    var s1 := Result(s0, a);
    assert s1 == [Slot(0, 0), Free];
    LateArrivalInitialActions();
    LateArrivalDeadEnd();
    var acts := ActionsOf(inst, s0);
    assert acts[..1] == [a] && acts[..1][..0] == [];
    assert Pending(s1[1]);
  }
}
