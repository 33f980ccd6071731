/**
 * The state space of the Berth Allocation Problem as values: the problem
 * data, the per-vessel slots of a search state, the time-and-quay overlap
 * relation, the first-fit choice of a slot for one vessel, the list of
 * actions a state offers, the transition, the goal test, the path cost
 * and the heuristic.
 */
module BerthSpace {
  import opened Wrappers

  /** A vessel's mooring start time and berth position; (-1, -1) marks a
      vessel that has not been allocated. */
  datatype Slot = Slot(start: int, pos: int)

  const Free: Slot := Slot(-1, -1)

  /** One slot per vessel, in vessel-index order. */
  type State = seq<Slot>

  /** An action `(vessel_idx, (start_time, berth_position))`. */
  datatype Action = Action(vessel: nat, slot: Slot)

  /** Quay length `s` and, per vessel, arrival time, processing time,
      length and weight. */
  datatype Instance = Instance(s: int, ai: seq<int>, pi: seq<int>, si: seq<int>, wi: seq<int>)
  {
    /** The number of vessels. */
    function N(): nat { |ai| }
  }

  /** The four per-vessel lists have one entry per vessel. */
  predicate Sized(inst: Instance)
  {
    |inst.pi| == |inst.ai| && |inst.si| == |inst.ai| && |inst.wi| == |inst.ai|
  }

  /** No vessel arrives before time 0. */
  predicate ArrivalsNonNegative(inst: Instance)
  {
    forall i :: 0 <= i < |inst.ai| ==> inst.ai[i] >= 0
  }

  /** Every vessel takes time and quay space. */
  predicate Positive(inst: Instance)
    requires Sized(inst)
  {
    forall i :: 0 <= i < |inst.ai| ==> inst.pi[i] > 0 && inst.si[i] > 0
  }

  // The sentinel tests, which differ between the places that use them.

  /** "Not allocated": both components are -1. */
  predicate Unallocated(x: Slot) { x.start == -1 && x.pos == -1 }

  /** "Moored": neither component is -1. */
  predicate Moored(x: Slot) { x.start != -1 && x.pos != -1 }

  /** Every vessel index of `acts` is below `n`: it names a vessel of an
      instance, or a slot of a state, with `n` entries. */
  predicate InRange(acts: seq<Action>, n: nat)
  {
    forall k :: 0 <= k < |acts| ==> acts[k].vessel < n
  }

  /** The slot the last action on vessel `i` in `acts` writes, or `other` when none acts on it. */
  function LastSlotFor(acts: seq<Action>, i: nat, other: Slot): Slot
  {
    if acts == [] then other
    else if acts[|acts| - 1].vessel == i then acts[|acts| - 1].slot
    else LastSlotFor(acts[..|acts| - 1], i, other)
  }

  /**
   * The state reached by applying the transition for each action of
   * `acts` in turn: every slot holds the pair its last action wrote.
   */
  function Apply(state: State, acts: seq<Action>): (r: State)
    requires InRange(acts, |state|)
    ensures |r| == |state|
    ensures forall i :: 0 <= i < |state| ==> r[i] == LastSlotFor(acts, i, state[i])
  {
    if acts == [] then state
    else Result(Apply(state, acts[..|acts| - 1]), acts[|acts| - 1])
  }

  /** The goal test's "not moored yet": either component is -1. */
  predicate Pending(x: Slot) { x.start == -1 || x.pos == -1 }

  /**
   * Vessel `v` at slot `a` and vessel `j` at slot `b` overlap both in time
   * (neither leaves before or when the other starts) and on the quay.
   */
  predicate Clash(inst: Instance, v: nat, a: Slot, j: nat, b: Slot)
    requires Sized(inst) && v < inst.N() && j < inst.N()
  {
    && !(a.start + inst.pi[v] <= b.start || b.start + inst.pi[j] <= a.start)
    && a.pos < b.pos + inst.si[j] && a.pos + inst.si[v] > b.pos
  }

  /** Mooring vessel `v` at time `t`, position `p` clashes with no moored vessel. */
  predicate Feasible(inst: Instance, state: State, v: nat, t: int, p: int)
    requires Sized(inst) && |state| == inst.N() && v < inst.N()
  {
    forall j :: 0 <= j < |state| && Moored(state[j]) ==> !Clash(inst, v, Slot(t, p), j, state[j])
  }

  /**
   * The largest departure time among the moored vessels of the first `k`
   * slots, starting from 0.
   */
  function LatestEnd(inst: Instance, state: State, k: nat): int
    requires Sized(inst) && |state| == inst.N() && k <= |state|
  {
    if k == 0 then 0
    else
      var m := LatestEnd(inst, state, k - 1);
      if Moored(state[k - 1]) && m < state[k - 1].start + inst.pi[k - 1]
      then state[k - 1].start + inst.pi[k - 1]
      else m
  }

  /**
   * `LatestEnd` is the maximum of 0 and the departure times of the moored
   * vessels among the first `k` slots.
   */
  lemma {:induction false} LatestEndIsMax(inst: Instance, state: State, k: nat)
    requires Sized(inst) && |state| == inst.N() && k <= |state|
    ensures var m := LatestEnd(inst, state, k);
      && m >= 0
      && (forall j :: 0 <= j < k && Moored(state[j]) ==> state[j].start + inst.pi[j] <= m)
      && (m == 0 || exists j :: 0 <= j < k && Moored(state[j]) && m == state[j].start + inst.pi[j])
  {
    if k > 0 {
      LatestEndIsMax(inst, state, k - 1);
    }
  }

  /**
   * The last start time the action generator tries for vessel `v`: the
   * latest departure of a moored vessel, or the vessel's arrival when that
   * latest departure is 0.
   */
  function Horizon(inst: Instance, state: State, v: nat): int
    requires Sized(inst) && |state| == inst.N() && v < inst.N()
  {
    var m := LatestEnd(inst, state, |state|);
    if m == 0 then inst.ai[v] else m
  }

  /**
   * For a vessel that arrives at or after time 0, every moored vessel has
   * left by the horizon; the horizon is the arrival or a positive time.
   */
  lemma HorizonAfterMoored(inst: Instance, state: State, v: nat)
    requires Sized(inst) && |state| == inst.N() && v < inst.N()
    ensures var h := Horizon(inst, state, v);
      && (inst.ai[v] >= 0 ==> forall j :: 0 <= j < |state| && Moored(state[j]) ==> state[j].start + inst.pi[j] <= h)
      && (h == inst.ai[v] || h > 0)
  {
    LatestEndIsMax(inst, state, |state|);
  }

  /** `(t, p)` lies in the scan window of vessel `v`. */
  predicate InWindow(inst: Instance, state: State, v: nat, t: int, p: int)
    requires Sized(inst) && |state| == inst.N() && v < inst.N()
  {
    inst.ai[v] <= t <= Horizon(inst, state, v) && 0 <= p <= inst.s - inst.si[v]
  }

  /** `(t, p)` comes before slot `b` in (time, position) order. */
  predicate LexBefore(t: int, p: int, b: Slot)
  {
    t < b.start || (t == b.start && p < b.pos)
  }

  /** The first position in `p..hiP` at which vessel `v` can moor at time `t`. */
  function ScanPositions(inst: Instance, state: State, v: nat, t: int, p: int, hiP: int): Option<int>
    requires Sized(inst) && |state| == inst.N() && v < inst.N()
    decreases hiP - p
  {
    if p > hiP then None
    else if Feasible(inst, state, v, t, p) then Some(p)
    else ScanPositions(inst, state, v, t, p + 1, hiP)
  }

  /**
   * The position scan finds the least feasible position of `p..hiP`, and
   * finds nothing only when that range holds no feasible position.
   */
  lemma {:induction false} ScanPositionsIsLeast(inst: Instance, state: State, v: nat, t: int, p: int, hiP: int)
    requires Sized(inst) && |state| == inst.N() && v < inst.N()
    ensures var r := ScanPositions(inst, state, v, t, p, hiP);
      && (r.Some? ==> p <= r.value <= hiP && Feasible(inst, state, v, t, r.value))
      && (r.Some? ==> forall q :: p <= q < r.value ==> !Feasible(inst, state, v, t, q))
      && (r.None? ==> forall q :: p <= q <= hiP ==> !Feasible(inst, state, v, t, q))
    decreases hiP - p
  {
    if p <= hiP && !Feasible(inst, state, v, t, p) {
      ScanPositionsIsLeast(inst, state, v, t, p + 1, hiP);
    }
  }

  /**
   * The first (time, position) pair, times from `t` to `hiT` and positions
   * from 0 to `hiP`, at which vessel `v` can moor.
   */
  function ScanTimes(inst: Instance, state: State, v: nat, t: int, hiT: int, hiP: int): Option<Slot>
    requires Sized(inst) && |state| == inst.N() && v < inst.N()
    decreases hiT - t
  {
    if t > hiT then None
    else
      match ScanPositions(inst, state, v, t, 0, hiP)
      case Some(p) => Some(Slot(t, p))
      case None => ScanTimes(inst, state, v, t + 1, hiT, hiP)
  }

  /**
   * The time scan finds the feasible pair of its range that comes first in
   * (time, position) order, and finds nothing only when the range holds no
   * feasible pair.
   */
  lemma {:induction false} ScanTimesIsLeast(inst: Instance, state: State, v: nat, t: int, hiT: int, hiP: int)
    requires Sized(inst) && |state| == inst.N() && v < inst.N()
    ensures var r := ScanTimes(inst, state, v, t, hiT, hiP);
      && (r.Some? ==> t <= r.value.start <= hiT && 0 <= r.value.pos <= hiP)
      && (r.Some? ==> Feasible(inst, state, v, r.value.start, r.value.pos))
      && (r.Some? ==> forall t', q :: t <= t' && 0 <= q <= hiP && LexBefore(t', q, r.value) ==> !Feasible(inst, state, v, t', q))
      && (r.None? ==> forall t', q :: t <= t' <= hiT && 0 <= q <= hiP ==> !Feasible(inst, state, v, t', q))
    decreases hiT - t
  {
    if t <= hiT {
      ScanPositionsIsLeast(inst, state, v, t, 0, hiP);
      if ScanPositions(inst, state, v, t, 0, hiP).None? {
        ScanTimesIsLeast(inst, state, v, t + 1, hiT, hiP);
      }
    }
  }

  /**
   * The slot the action generator picks for vessel `v`: the least feasible
   * (time, position) pair of its window, or nothing when the window holds none.
   */
  function FirstFit(inst: Instance, state: State, v: nat): Option<Slot>
    requires Sized(inst) && |state| == inst.N() && v < inst.N()
  {
    ScanTimes(inst, state, v, inst.ai[v], Horizon(inst, state, v), inst.s - inst.si[v])
  }

  /**
   * A first-fit slot lies in the window, is feasible, and no feasible
   * pair of the window comes before it; with no first-fit slot, the window
   * holds no feasible pair.
   */
  lemma FirstFitIsLeast(inst: Instance, state: State, v: nat)
    requires Sized(inst) && |state| == inst.N() && v < inst.N()
    ensures var r := FirstFit(inst, state, v);
      && (r.Some? ==> InWindow(inst, state, v, r.value.start, r.value.pos))
      && (r.Some? ==> Feasible(inst, state, v, r.value.start, r.value.pos))
      && (r.Some? ==> forall t, p :: InWindow(inst, state, v, t, p) && LexBefore(t, p, r.value) ==> !Feasible(inst, state, v, t, p))
      && (r.None? ==> forall t, p :: InWindow(inst, state, v, t, p) ==> !Feasible(inst, state, v, t, p))
  {
    ScanTimesIsLeast(inst, state, v, inst.ai[v], Horizon(inst, state, v), inst.s - inst.si[v]);
  }

  /**
   * The actions offered for the first `k` vessels: one first-fit action for
   * each unallocated vessel that has one, in vessel order.
   */
  function FirstFitActions(inst: Instance, state: State, k: nat): (r: seq<Action>)
    requires Sized(inst) && |state| == inst.N() && k <= |state|
    ensures forall x :: 0 <= x < |r| ==> r[x].vessel < k
  {
    if k == 0 then []
    else
      var rest := FirstFitActions(inst, state, k - 1);
      if Unallocated(state[k - 1]) then
        match FirstFit(inst, state, k - 1)
        case Some(b) => rest + [Action(k - 1, b)]
        case None => rest
      else rest
  }

  /** One step of the action list: vessel `k - 1` adds its first-fit action, if any, at the end. */
  lemma FirstFitActionsStep(inst: Instance, state: State, k: nat)
    requires Sized(inst) && |state| == inst.N() && 0 < k <= |state|
    ensures var rest := FirstFitActions(inst, state, k - 1);
      FirstFitActions(inst, state, k) ==
        if Unallocated(state[k - 1]) && FirstFit(inst, state, k - 1).Some?
        then rest + [Action(k - 1, FirstFit(inst, state, k - 1).value)]
        else rest
  {
  }

  /** Action `a` is for an unallocated vessel and carries that vessel's first-fit slot. */
  predicate IsFirstFitAction(inst: Instance, state: State, a: Action)
    requires Sized(inst) && |state| == inst.N()
  {
    a.vessel < |state| && Unallocated(state[a.vessel]) && FirstFit(inst, state, a.vessel) == Some(a.slot)
  }

  /** Every listed action is for an unallocated vessel and carries that vessel's first-fit slot. */
  lemma {:induction false} FirstFitActionsSound(inst: Instance, state: State, k: nat)
    requires Sized(inst) && |state| == inst.N() && k <= |state|
    ensures forall x :: 0 <= x < |FirstFitActions(inst, state, k)| ==>
              IsFirstFitAction(inst, state, FirstFitActions(inst, state, k)[x])
  {
    if k > 0 {
      FirstFitActionsSound(inst, state, k - 1);
      FirstFitActionsStep(inst, state, k);
    }
  }

  /** The actions are listed in strictly increasing vessel order, so no vessel gets two. */
  lemma {:induction false} FirstFitActionsOrdered(inst: Instance, state: State, k: nat)
    requires Sized(inst) && |state| == inst.N() && k <= |state|
    ensures var r := FirstFitActions(inst, state, k);
      forall x, y :: 0 <= x < y < |r| ==> r[x].vessel < r[y].vessel
  {
    if k > 0 {
      FirstFitActionsOrdered(inst, state, k - 1);
      FirstFitActionsStep(inst, state, k);
    }
  }

  /** Every unallocated vessel below `k` whose first-fit slot exists has an action in the list. */
  lemma {:induction false} FirstFitActionsComplete(inst: Instance, state: State, k: nat)
    requires Sized(inst) && |state| == inst.N() && k <= |state|
    ensures var r := FirstFitActions(inst, state, k);
      forall v :: 0 <= v < k && Unallocated(state[v]) && FirstFit(inst, state, v).Some? ==>
        exists x :: 0 <= x < |r| && r[x].vessel == v
  {
    if k > 0 {
      FirstFitActionsComplete(inst, state, k - 1);
      FirstFitActionsStep(inst, state, k);
      var rest := FirstFitActions(inst, state, k - 1);
      var r := FirstFitActions(inst, state, k);
      assert |rest| <= |r| && r[..|rest|] == rest;
      forall v | 0 <= v < k && Unallocated(state[v]) && FirstFit(inst, state, v).Some?
        ensures exists x :: 0 <= x < |r| && r[x].vessel == v
      {
        if v == k - 1 {
          assert r[|rest|].vessel == v;
        } else {
          var x :| 0 <= x < |rest| && rest[x].vessel == v;
          assert r[x] == rest[x];
        }
      }
    }
  }

  /** The actions a state offers. */
  function ActionsOf(inst: Instance, state: State): seq<Action>
    requires Sized(inst) && |state| == inst.N()
  {
    FirstFitActions(inst, state, |state|)
  }

  /** An offered action is for an unallocated vessel and carries that vessel's first-fit slot. */
  lemma OfferedActionIsFirstFit(inst: Instance, state: State, a: Action)
    requires Sized(inst) && |state| == inst.N() && a in ActionsOf(inst, state)
    ensures a.vessel < |state| && Unallocated(state[a.vessel]) && FirstFit(inst, state, a.vessel) == Some(a.slot)
  {
    var acts := FirstFitActions(inst, state, |state|);
    FirstFitActionsSound(inst, state, |state|);
    var x :| 0 <= x < |acts| && acts[x] == a;
    assert IsFirstFitAction(inst, state, acts[x]);
  }

  /** The state in which no vessel is allocated. */
  function Initial(n: nat): (r: State)
    ensures |r| == n && forall i :: 0 <= i < n ==> Unallocated(r[i])
  {
    seq(n, _ => Free)
  }

  /** The transition: the acted-on vessel's slot becomes the action's slot. */
  function Result(state: State, a: Action): (r: State)
    requires a.vessel < |state|
    ensures |r| == |state| && r[a.vessel] == a.slot
    ensures forall i :: 0 <= i < |state| && i != a.vessel ==> r[i] == state[i]
  {
    state[a.vessel := a.slot]
  }

  /** The goal test: scans the slots and fails on the first one that still has a -1. */
  function GoalTest(state: State): (r: bool)
    ensures r <==> forall i :: 0 <= i < |state| ==> !Pending(state[i])
  {
    |state| == 0 || (!Pending(state[0]) && GoalTest(state[1..]))
  }

  /** Vessel `v`'s weighted flow time when it moors at `u`: weight × (departure − arrival). */
  function WeightedFlow(inst: Instance, v: nat, u: int): (f: int)
    requires Sized(inst) && v < inst.N()
    ensures inst.wi[v] >= 0 && u + inst.pi[v] >= inst.ai[v] ==> f >= 0
    ensures inst.wi[v] > 0 ==> (f == 0 <==> u + inst.pi[v] == inst.ai[v])
  {
    var ci := u + inst.pi[v];
    var fi := ci - inst.ai[v];
    inst.wi[v] * fi
  }

  /**
   * The path cost after taking action `a` from `s1` to `s2` with cost `c`
   * so far: `c` plus the acted-on vessel's weighted flow time in `s2`.
   */
  function PathCost(inst: Instance, c: int, s1: State, a: Action, s2: State): (r: int)
    requires Sized(inst) && a.vessel < inst.N() && a.vessel < |s2|
    ensures inst.wi[a.vessel] >= 0 && s2[a.vessel].start + inst.pi[a.vessel] >= inst.ai[a.vessel] ==> r >= c
    ensures inst.wi[a.vessel] > 0 && s2[a.vessel].start + inst.pi[a.vessel] > inst.ai[a.vessel] ==> r > c
  {
    c + WeightedFlow(inst, a.vessel, s2[a.vessel].start)
  }

  /** The summed weighted flow times of the slots named by `acts`. */
  function ActionsCost(inst: Instance, acts: seq<Action>): int
    requires Sized(inst) && InRange(acts, inst.N())
  {
    if acts == [] then 0
    else
      var a := acts[|acts| - 1];
      ActionsCost(inst, acts[..|acts| - 1]) + WeightedFlow(inst, a.vessel, a.slot.start)
  }

  /** When every named vessel has a non-negative weight and departs no
      earlier than it arrives, the summed cost is not negative. */
  lemma {:induction false} ActionsCostNonNegative(inst: Instance, acts: seq<Action>)
    requires Sized(inst) && InRange(acts, inst.N())
    requires forall k :: 0 <= k < |acts| ==>
               inst.wi[acts[k].vessel] >= 0 && acts[k].slot.start + inst.pi[acts[k].vessel] >= inst.ai[acts[k].vessel]
    ensures ActionsCost(inst, acts) >= 0
  {
    if acts != [] {
      ActionsCostNonNegative(inst, acts[..|acts| - 1]);
    }
  }

  /** The heuristic: the summed weighted flow times of the state's first-fit actions. */
  function Heuristic(inst: Instance, state: State): int
    requires Sized(inst) && |state| == inst.N()
  {
    ActionsCost(inst, ActionsOf(inst, state))
  }
}
