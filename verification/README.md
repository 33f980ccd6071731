# Berth Allocation Problem: state space and plan validator

This project models two pieces of a Berth Allocation Problem (BAP) code base in Dafny.

**The search problem `BAProblem`** (`3rdAssignment/solution.py`):
- Each of `n` vessels has an arrival time `ai`, a processing time `pi`, a length `si` and a weight `wi`.
- A state gives every vessel a mooring start time and a berth position on a quay of length `s`. The pair `(-1, -1)` marks a vessel that is not allocated yet.
- `actions` offers each unallocated vessel its first feasible (time, position) pair, found by scanning a window:
  - times run from the vessel's arrival up to the latest departure of a moored vessel;
  - positions run from 0 to `s - si`.
- `result` writes one slot.
- `goal_test` accepts a state only when no slot still holds a -1.
- `path_cost` adds the moored vessel's weighted flow time, `wi * (start + pi - ai)`.
- `h` sums the weighted flow times of the first-fit actions and caches the sum per state.
- `solve` assembles the solution from the action list of the goal node.

**The stand-alone validator `check` and the flow-time computation** (`1stAssignment/First_Assignment.py`):
- `check` accepts or rejects a plan, given as the list of mooring times `ui` and the list of berth positions `vi`.
- The flow-time computation builds the lists `ci`, `fi` and `wi*fi` and sums the last into `flow`.

Files and modules:

- `wrappers.dfy` (`Wrappers`): the `Option` type.
- `berth_space.dfy` (`BerthSpace`) defines the state space as values:
  - the slot and action datatypes;
  - the three sentinel tests the source uses: "unallocated" (both -1), "moored" (neither -1) and the goal test's "pending" (either -1);
  - the overlap relation `Clash` and the feasibility test `Feasible`;
  - the scan window and the first-fit choice, with the least-element lemmas;
  - the action list, the transition, the goal test, the path cost and the heuristic.
- `berth_problem.dfy` (`BerthProblem`) defines the class `BAProblem`. It holds the loaded data and the heuristic cache (a `map` field). Its methods follow the loops of the source and are proved equal to the functions of `BerthSpace`:
  - `IsValidAction`, with its early return;
  - `Actions`, with the nested scans, the `action_found` flag and the `break`s;
  - `H`, with its cache;
  - `Solve`, which assembles the solution in an array.
- `berth_runs.dfy` (`BerthRuns`) covers runs of offered actions:
  - the invariant of reachable states, for arrivals at or after 0: every slot is free or moored after its arrival on the quay, and no two moored vessels overlap;
  - the path cost of a run equals the summed weighted flow times;
  - properties of the heuristic, including a concrete instance on which it is not consistent.
- `plan_checker.dfy` (`PlanChecker`) holds:
  - the validator as written (`Check`), which has a one-sided pairwise overlap test;
  - a corrected validator (`CheckCorrected`);
  - the flow-time computation (`FlowTime`).
- `bridge.dfy` (`CheckerBridge`) connects the two programs:
  - with arrivals at or after 0 and positive lengths and processing times, every solution reached by offered actions passes both validators;
  - the accumulated path cost equals the validator's `sum(wi_fi_product)`.

## Model

| member | source | states |
|---|---|---|
| BerthSpace.Initial | 3rdAssignment/solution.py:43 | the initial state has one slot per vessel and every slot is the unallocated pair (-1, -1) |
| BerthProblem.BAProblem.constructor | 3rdAssignment/solution.py:5-21 | a problem over loaded data starts with an empty heuristic cache, so every cached value is trivially correct |
| BerthSpace.Clash | 3rdAssignment/solution.py:84-86 | definition: vessel `v` at one slot and vessel `j` at another overlap in time (neither leaves before or when the other starts) and on the quay (each berth starts before the other one ends) |
| BerthSpace.Feasible | 3rdAssignment/solution.py:79-88 | definition: mooring vessel `v` at (`t`, `p`) clashes with no vessel whose slot has neither component equal to -1 |
| BerthProblem.BAProblem.IsValidAction | 3rdAssignment/solution.py:79-88 | returns true iff no moored vessel overlaps vessel `v` at (`t`, `p`) both in time (neither leaves before or when the other starts) and on the quay |
| BerthSpace.LatestEndIsMax | 3rdAssignment/solution.py:52-57 | the running `max_ui` is 0 or the departure time of some moored vessel, and no moored vessel departs after it |
| BerthSpace.HorizonAfterMoored | 3rdAssignment/solution.py:52-61 | for a vessel arriving at or after 0, every moored vessel has left by the last scanned start time; that time is the arrival or positive |
| BerthSpace.ScanPositionsIsLeast | 3rdAssignment/solution.py:66-72 | the position scan returns the least feasible position of its range, and returns nothing only when no position of the range is feasible |
| BerthSpace.ScanTimesIsLeast | 3rdAssignment/solution.py:64-74 | the nested scan returns the feasible pair that comes first in (time, position) order, and returns nothing only when its whole range holds no feasible pair |
| BerthSpace.FirstFit | 3rdAssignment/solution.py:52-74 | definition: the result of scanning vessel `v`'s window, times from `ai[v]` to the horizon and positions from 0 to `s - si[v]`, for the first feasible pair |
| BerthSpace.FirstFitIsLeast | 3rdAssignment/solution.py:52-74 | a vessel's chosen slot lies in its window [ai, max_ui] × [0, s - si], is feasible, and no feasible pair of the window precedes it; with no chosen slot the window holds no feasible pair |
| BerthSpace.FirstFitActions | 3rdAssignment/solution.py:50-76 | the list for the first `k` vessels names only vessels below `k` |
| BerthSpace.FirstFitActionsSound | 3rdAssignment/solution.py:50-74 | every listed action is for a vessel whose slot is (-1, -1), and it carries that vessel's first-fit slot |
| BerthSpace.FirstFitActionsOrdered | 3rdAssignment/solution.py:50-76 | actions are listed in strictly increasing vessel order, so no vessel gets two |
| BerthSpace.FirstFitActionsComplete | 3rdAssignment/solution.py:50-76 | every unallocated vessel whose window holds a feasible pair gets an action |
| BerthSpace.ActionsOf | 3rdAssignment/solution.py:46-76 | definition: the first-fit action list over all vessels of the state |
| BerthSpace.OfferedActionIsFirstFit | 3rdAssignment/solution.py:46-76 | any action the state offers is for an unallocated vessel and carries its first-fit slot |
| BerthProblem.BAProblem.Actions | 3rdAssignment/solution.py:46-76 | the nested loops with the `action_found` flag and `break`s return exactly the first-fit action list of the state |
| BerthSpace.Result | 3rdAssignment/solution.py:91-97 | the new state has the same length, holds the action's pair at the acted-on vessel and equals the old state everywhere else |
| BerthSpace.Apply | 3rdAssignment/solution.py:91-97 | applying a list of actions keeps the length, and each slot holds the pair written by the last action on that vessel, or its old value |
| BerthProblem.BAProblem.Solve | 3rdAssignment/solution.py:124-137 | no goal node gives no solution; otherwise the solution starts from `n` pairs (-1, -1) and each slot holds the pair its vessel's last action wrote |
| BerthSpace.GoalTest | 3rdAssignment/solution.py:100-105 | true iff no slot has -1 in either component |
| BerthSpace.WeightedFlow | 3rdAssignment/solution.py:112-119 | a vessel's weighted flow time is non-negative when its weight is and it departs no earlier than it arrives; with a positive weight it is 0 iff the vessel departs at its arrival time |
| BerthSpace.PathCost | 3rdAssignment/solution.py:108-122 | the new cost is at least the old cost when the vessel's weight is non-negative and it departs no earlier than it arrives, and strictly more when the weight is positive and it departs after its arrival |
| BerthSpace.Heuristic | 3rdAssignment/solution.py:157-191 | definition: the summed weighted flow times `wi * (t + pi - ai)` of the state's first-fit actions |
| BerthSpace.ActionsCostNonNegative | 3rdAssignment/solution.py:188-191 | the summed weighted flow times of a list of actions are non-negative when each term is |
| BerthProblem.BAProblem.H | 3rdAssignment/solution.py:152-195 | returns the summed weighted flow times of the state's first-fit actions, whether or not the state was cached; the cache gains exactly this state's value and every cached value stays equal to its recomputation |
| BerthRuns.StepKeepsConsistent | 3rdAssignment/solution.py:65-95 | when no vessel arrives before time 0, taking an offered action from a consistent state gives a consistent state: every slot is free or moored after its arrival and on the quay, and no two moored vessels overlap |
| BerthRuns.RunKeepsConsistent | 3rdAssignment/solution.py:65-95 | when no vessel arrives before time 0, every state a run of offered actions reaches from a consistent state is consistent |
| BerthRuns.ReachableStatesConsistent | 3rdAssignment/solution.py:43-95 | when no vessel arrives before time 0, every state reached from the initial state by offered actions is consistent |
| BerthRuns.LegalRunFillsFreeSlots | 3rdAssignment/solution.py:50-95 | on every instance, along a run of offered actions each action writes a non-sentinel pair into a slot that is still free, so no vessel is moored twice |
| BerthRuns.RunCost | 3rdAssignment/solution.py:108-122 | definition: the cost accumulated by calling `path_cost` once per action of a run, each on the state before and after that action |
| BerthRuns.AssignedFlowFill | 3rdAssignment/solution.py:108-122 | filling a free slot adds exactly the vessel's weighted flow time to the summed flow of the allocated vessels |
| BerthRuns.InitialAssignedFlow | 3rdAssignment/solution.py:43 | no vessel of the initial state contributes any flow |
| BerthRuns.RunCostIsAssignedFlow | 3rdAssignment/solution.py:108-122 | along a run that fills free slots, in any vessel order, the accumulated path cost grows by exactly the weighted flow times of the vessels it moors |
| BerthRuns.PlanCostIsAssignedFlow | 3rdAssignment/solution.py:108-122 | from the initial state the accumulated path cost is the summed weighted flow time of the moored vessels |
| BerthRuns.GoalHasNoActions | 3rdAssignment/solution.py:100-105 | a goal state offers no action and its heuristic is 0 |
| BerthRuns.HeuristicNonNegative | 3rdAssignment/solution.py:152-195 | with non-negative weights and processing times the heuristic is never negative |
| BerthRuns.FirstFitExists | 3rdAssignment/solution.py:52-74 | a vessel arriving at or after 0 whose window reaches its arrival, on a quay at least as long as the vessel, always gets a first-fit slot |
| BerthRuns.LateArrivalInitialActions | 3rdAssignment/solution.py:46-76 | on the two-vessel instance with arrivals 0 and 10, the initial state offers each vessel its arrival time at position 0 |
| BerthRuns.LateArrivalDeadEnd | 3rdAssignment/solution.py:52-65 | once vessel 0 moors at (0, 0), vessel 1's window runs from 10 to 1 and is empty, so no action is offered |
| BerthRuns.HeuristicNotConsistent | 3rdAssignment/solution.py:152-195 | a single step costs 1 but lowers the heuristic from 2 to 0, and it leads to a non-goal state with no actions |
| PlanChecker.Accepts | 1stAssignment/First_Assignment.py:90-135 | definition: the verdict of `check`: `n` mooring times, none before its arrival, every berth in [0, s - si], and no pair i < j where j starts inside i both on the quay and in time |
| PlanChecker.Check | 1stAssignment/First_Assignment.py:90-135 | rejects exactly a plan whose length is not `n`, a vessel moored before its arrival, a berth off the quay, or a pair i < j where j starts inside i both on the quay and in time |
| PlanChecker.StartsInsideIsIntersect | 1stAssignment/First_Assignment.py:116-130 | with positive lengths and processing times every pair the pairwise test rejects really overlaps |
| PlanChecker.CheckAcceptsOverlap | 1stAssignment/First_Assignment.py:116-130 | a concrete plan with two vessels overlapping on the same berth is accepted |
| PlanChecker.CheckCorrected | 1stAssignment/First_Assignment.py:90-135 | the validator with the two-sided pairwise test rejects exactly a wrong length, an early mooring, a berth off the quay, or a pair i < j that overlaps with either vessel starting inside the other |
| PlanChecker.CorrectedAcceptsExactly | 1stAssignment/First_Assignment.py:90-135 | with positive lengths and processing times, the corrected validator accepts iff the plan has `n` entries, respects arrivals and the quay, and no two distinct vessels overlap in both time and space |
| PlanChecker.CorrectedIsStricter | 1stAssignment/First_Assignment.py:116-130 | every plan the corrected validator accepts is accepted as written too |
| PlanChecker.FlowTime | 1stAssignment/First_Assignment.py:82-88 | with one mooring time per vessel, `ci`, `fi` and `wi*fi` hold each vessel's departure, flow time and weighted flow time; otherwise all three stay empty; `flow` is the sum of `wi*fi` (line 146) |
| CheckerBridge.IntersectIsClash | 1stAssignment/First_Assignment.py:116-130 | the validator's rectangle overlap and the overlap relation of `is_valid_action` (3rdAssignment/solution.py:84-86) are the same relation |
| CheckerBridge.RejectedPairClashes | 1stAssignment/First_Assignment.py:116-130 | with positive lengths and processing times every pair the validator rejects is a clash under the feasibility test of the search |
| CheckerBridge.SolvedPlanPassesCheck | 1stAssignment/First_Assignment.py:90-135 | when no vessel arrives before time 0 and all lengths and processing times are positive, a solution assembled from offered actions that reaches the goal passes the corrected validator and the validator as written |
| CheckerBridge.GoalFlowIsSum | 1stAssignment/First_Assignment.py:146 | in a goal state the summed flow of the allocated vessels is the sum of the weighted flow times computed from the solution's mooring times |
| CheckerBridge.PlanCostIsFlow | 1stAssignment/First_Assignment.py:146 | the path cost accumulated along any run that only fills free slots, in whatever vessel order, and reaches the goal equals `sum(wi_fi_product)` for the solution's mooring times (3rdAssignment/solution.py:108-122) |

## Left out

- The `search` module is not part of this model: the A* engine, its frontier, explored set and tie-breaking, and `Node.solution`. `Solve` takes the goal node's action list as an `Option` parameter, where `None` stands for "no goal node found".
- The admissibility and optimality claim of the heuristic is not proved. It depends on the whole search tree. `BerthRuns.HeuristicNotConsistent` shows that the heuristic is not consistent.
- File reading and parsing are not modelled: `load`, `read_bap_file`, `process_array` and `ast.literal_eval`. Module-level script code, prints, the `__main__` block and the unused numpy import are also left out. The loaded data is the `Instance` value given to the constructor.
- `__init__`'s placeholder initial state for zero vessels is not modelled. The model uses the initial state built at line 43.
- BerthProblem.BAProblem.H: the source repeats the action-generation loop inside `h`. The model calls `Actions` instead, which computes the same list.
- PlanChecker.Check: the dead `check` flag variable is not modelled. It never changes the result.
- PlanChecker.Check assumes `ui` and `vi` have the same length. They come from one list of pairs. The Python exception a shorter `vi` would raise is not modelled.
- PlanChecker.Check takes `n`, `ai`, `pi` and `si` with matching lengths. The source's second length test (`len(ui) != len(ai)`) therefore never rejects after the first one has passed.
- BerthProblem.BAProblem.Solve requires every action's vessel index to be a vessel of the instance. Python's `IndexError` for a larger index, and its wrap-around for a negative one, are not modelled.
- Window bound: the code ends a vessel's time window at the latest departure of a moored vessel, or at the vessel's arrival when that departure is 0. It does not take the maximum of the two. The window can therefore be empty, and `BerthRuns.LateArrivalDeadEnd` exhibits a reached state with no actions. The model follows the code.
- Negative arrival times: the invariant of reachable states (`BerthRuns.ReachableStatesConsistent` and the lemmas it rests on) and `CheckerBridge.SolvedPlanPassesCheck` assume that no vessel arrives before time 0, as the problem data is meant to be. Neither program checks this. With an arrival of -1, the first-fit scan can moor a vessel at start time -1. That slot then counts neither as unallocated nor as moored, so the feasibility test ignores it and the next vessel can be placed on top of it.
- Zero processing times or lengths: `CheckerBridge.SolvedPlanPassesCheck` also assumes that every processing time and length is positive. With a processing time of 0 the search can moor two vessels at the same time and position, and the validator rejects that plan.
- Integers are unbounded, as in Python.

## Findings

| source | as written | input that shows it | evidently intended | confidence | as-written member | corrected member |
|---|---|---|---|---|---|---|
| 1stAssignment/First_Assignment.py:116-130 | a pair i < j is rejected only when vessel j starts inside vessel i in both berth range and processing time | s = 1; ai = [0, 0]; pi = [2, 2]; si = [1, 1]; ui = [1, 0]; vi = [0, 0]: vessel 1 moors at time 0 on berth 0 and vessel 0 at time 1 on the same berth while vessel 1 is still there, and the plan is accepted | reject every pair that overlaps in both time and space, whichever vessel starts first | not executed | PlanChecker.CheckAcceptsOverlap | PlanChecker.CorrectedAcceptsExactly |
