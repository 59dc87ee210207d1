# Verified model of the builder counters, the factory simulator, document flattening and rule divergence

The project models four parts of the repository in Dafny 4.11 and proves what they promise.

**The builder counting family** (`services/solvers/builder/`). How many multisets of parts fit
the weight, slot and money budgets and clear the obstacles. The reference is a count over raw
attributes (`Puzzle.dfy`). The clip of attributes to the obstacles' caps (`Clip.dfy`), the
saturating lattice DP on a flat table (`Grid.dfy`, `LatticeDp.dfy`, `CountDp.dfy`), the bitmask
doubling enumeration on fixed-width integers (`Subsets.dfy`), meet in the middle with collapsed
keys, thresholds, prefix sums and binary search (`Halves.dfy`, `MeetInMiddle.dfy`,
`MeetCount.dfy`), the factoring of inert parts (`FreeParts.dfy`), the dispatcher (`Solve.dfy`)
and both antichain searches (`Antichain.dfy`) are proved to return that same number, or the set
it stands for. `Counting.dfy` holds the cardinality lemmas.

**The factory** (`services/solvers/factory/`). `Factory.dfy` and `FactoryHours.dfy` define one
hour and one run as functions of the state, under all nine rule flags; the state carries the
tallies of the logs. `Simulation.dfy` is the simulator as it runs, an object updated in place with
its plan memo and its single-source path, proved to end in that state. The laws hold for every
board, every dial and every hour: conservation and caps (`FactoryLaws.dfy`), the totals as sums over
jobs (`FactoryLedger.dfy`), the job clock (`FactoryJobs.dfy`), the money floor
(`FactoryMoney.dfy`), the ramp-up bound (`RampUp.dfy`) resting on the graph fixpoints
(`Relaxation.dfy`, `BreadthFirst.dfy`, `FactoryGraph.dfy`), and the agreement of the optimised
run with the plain one (`FastPath.dfy`). `Search.dfy` and `Config.dfy` hold the optimiser's clamp,
archive and endgame, and configurations with their overrides by the hour.

**Flatten, unflatten, delta** (`services/core/extract/`). `Documents.dfy` (ordered dictionaries,
paths and the token scan), `Flatten.dfy`, `Unflatten.dfy`, `Marker.dfy` (when a rebuild fails) and
`Delta.dfy`.

**Rule divergence** (`services/core/rules/resolve.py`). `Divergence.dfy`.

Where the code and its documentation disagree, the model follows the code:

- `unflatten` is described as total by construction. It fails exactly when the paths leave something
  that is not a dictionary under `__list__` as the only child of a dictionary the collapse visits
  (`Markers.UnflattenFailsIff`). A path that ends at the marker, alone under any parent, fails on
  every value but the empty dictionary (`Markers.MarkerPathFails`); another key under the same parent
  saves it, and so does a list step under that parent that comes earlier. Where no path ends at
  the marker it is total (`Markers.UnflattenIsTotal`).
- In subset mode the fast counters give every part one copy, the reference `min(stock, 1)`. They count
  the reference on the restocked shelf, which exceeds the reference by exactly the accepted builds
  that need a missing part (`Clip.OverCount`), and agree for every puzzle over a set of parts iff no
  part is out of stock (`Clip.AgreementNeedsStock`).
- The subset arrays pick their integer width from the caps alone, while a sum adds two capped values
  before clipping. Counting over them is exact for every puzzle with these caps iff twice the largest cap
  fits (`Subsets.ArraysCountExactlyIffRoom`); otherwise two parts that each reach one threshold obstacle
  are counted short (`Subsets.FullPartsMiscounted`).
- A list element whose id is a number is written with that number as its tag, but the delta compares
  the tag with the number and falls back to the position. The tag leads back to the element exactly when
  the number is the element's own position, counted from either end (`Deltas.TagAddresses`). A change to
  the document is the change to its paths exactly when every list step of the path leads back
  (`Deltas.DeltaCommutesIff`); several misdirected changes can cancel (`Deltas.MisdirectionsCancel`).

Conventions: quantities and counts are unbounded naturals, money is real with the tolerance as a
constant; numpy's 64-bit counts are not bounded. Preconditions that the modules carry are those of
the callers: non-negative weights, slots, costs, attributes, requirements, budgets and initial
storage; distinct edges into a machine; distinct inputs of a recipe.

## Model

| member | source | states |
|---|---|---|
| Puzzle.TotalValidIsCardinality | services/solvers/builder/solve.py:268-290 | the reference total is the cardinality of the set of accepted builds: every count vector inside the stock ranges once, judged by budgets and obstacles |
| Puzzle.BruteForce | services/solvers/builder/solve.py:230-321 | the reference loop returns that total and, per obstacle, the number of budget-feasible builds that miss it; more than 16 parts is refused |
| Puzzle.Judge | services/solvers/builder/solve.py:268-290 | one round of the reference loop says exactly whether a build is accepted and which obstacles it misses |
| Puzzle.RawPassed | services/solvers/builder/solve.py:339-370 | the reference walk: largest affordable set when the order does not matter and failures are counted, otherwise in sequence with each cleared consumable spent |
| Puzzle.LargestAffordable | services/solvers/builder/solve.py:352-361 | no affordable set of obstacles is larger than the one returned, and one of that size exists |
| Clip.WalkClearsAll | services/solvers/builder/clip.py:277-309 | a walk in the given order clears every obstacle iff the capability dominates the sequence need on every attribute (mixed kinds included) |
| Clip.PassedAll | services/solvers/builder/clip.py:277-309 | under every semantics, clearing all obstacles is one elementwise comparison with the required capacity |
| Clip.PassedOne | services/solvers/builder/ordered.py:163-186 | under every semantics and order, at least one obstacle is cleared iff some single obstacle is affordable alone |
| Clip.PruneLosesNothing | services/solvers/builder/ordered.py:163-186 | any build that clears something covers the columnwise cheapest obstacle, so the prune drops none |
| Clip.OrderIsIrrelevant | services/solvers/builder/ordered.py:7-24 | for consumable obstacles, every permutation of the sequence is cleared whole by exactly the same capabilities |
| Clip.WalkIgnoresSaturation | services/solvers/builder/clip.py:186-212 | the stateful walk clears the same number of obstacles from a saturated pool |
| Clip.ClippingIsInvisible | services/solvers/builder/clip.py:186-212 | for every capability, the number of obstacles cleared is the same before and after saturating at the caps of the policy, under threshold, consumable, mixed and largest-subset rules |
| Clip.SaturatingStep | services/solvers/builder/clip.py:26-46 | adding clipped copies to a saturated running total saturates to the same value as adding raw copies |
| Clip.ClippedAggregateIsSaturated | services/solvers/builder/clip.py:262-274 | aggregating clipped attributes with saturation is saturating the raw aggregate, for sum, min and max with the empty-build convention |
| Clip.ClippedValidIsAccepted | services/solvers/builder/clip.py:381-390 | a build is valid on the clipped puzzle iff the reference accepts it on the raw puzzle |
| Clip.CountValidIsTotal | services/solvers/builder/clip.py:150-227 | for every puzzle, the number of valid builds of the clipped puzzle is the reference total on the shelf the counters see, which is the puzzle's own where nothing is out of stock |
| Clip.OverCount | services/solvers/builder/solve.py:254-257 | the clipped count exceeds the reference total by exactly the accepted builds that need an out-of-stock part |
| Clip.AgreementNeedsStock | services/solvers/builder/solve.py:254-257 | the clipped count equals the reference for every puzzle over a set of parts iff no part is out of stock or duplicates are allowed |
| Clip.RequiredCapacity | services/solvers/builder/clip.py:277-309 | the loop over the obstacles computes the required vector of the semantics |
| Clip.PassesCount | services/solvers/builder/clip.py:312-352 | the loop counts what the reference walk clears, or refuses a subset search over more than 14 obstacles |
| Clip.ValidMask | services/solvers/builder/clip.py:381-390 | one row is valid iff its aggregate satisfies the failure mode |
| Clip.ClipPuzzle | services/solvers/builder/clip.py:150-227 | the clipped view: requirements, the caps of the policy, every attribute capped |
| Grids.OffsetInjective | services/solvers/builder/count.py:88-97 | two cells of the lattice never share a slot of the flat table |
| Grids.Grid.AxisMapApply | services/solvers/builder/count.py:88-97 | moving a table along one axis leaves exactly the mass of the mapped cells, dropped ones gone, multiplicities added |
| Grids.Grid.Sum | services/solvers/builder/count.py:179-180 | adding a table adds its mass cell by cell |
| LatticeDp.CellExists | services/solvers/builder/count.py:50-76 | a partial build has a cell iff it fits the budgets; attributes saturate instead of overflowing |
| LatticeDp.MappingMoves | services/solvers/builder/count.py:121-159 | the mapping of an axis sends the index of a partial build to the index with the copies added, or drops it exactly past the axis; the identity mapping means nothing changes |
| LatticeDp.AxisAdvances | services/solvers/builder/count.py:444-451 | moving the axes one after another, saturating each, is one move of the whole state |
| CountDp.MoveOneAxis | services/solvers/builder/count.py:444-453 | one axis of a fold step; an infeasible mapping means no larger number of copies fits either |
| CountDp.FoldPart | services/solvers/builder/count.py:436-455 | folding a part in turns the table of partial builds into the table of builds with 0 to all its copies |
| CountDp.RunDp | services/solvers/builder/count.py:423-456 | the table holds, per cell, exactly the number of builds that fit the budgets and land in it |
| CountDp.SumValid | services/solvers/builder/count.py:165-199 | the sum runs over exactly the cells whose aggregate is valid, the empty build judged apart |
| CountDp.CountByDp | services/solvers/builder/count.py:100-118 | the DP returns the number of valid builds of the clipped puzzle, or refuses a lattice over 20,000,000 states |
| CountDp.CountPuzzle | services/solvers/builder/count.py:100-118 | MAIN: whenever the lattice DP on the clipped puzzle answers, it answers with the number of builds the raw reference accepts, for every aggregation, budget combination, semantics and failure mode; an out-of-stock part is read as one copy where only subsets are counted |
| CountDp.EliminatedByDp | services/solvers/builder/count.py:378-420 | the DP eliminations equal the reference tallies, obstacle by obstacle, on the same reading of stock |
| Subsets.BitmaskOrder | services/solvers/builder/enumerate.py:50-99 | row m of the enumeration is the subset whose members are the set bits of m |
| Subsets.ScalarDouble | services/solvers/builder/enumerate.py:63-72 | the doubling recurrence puts at index m the exact weight (slots, cost) of subset m, and the chosen integer width never overflows |
| Subsets.AggregateDouble | services/solvers/builder/enumerate.py:74-93 | the doubling recurrence over rows is the machine-width fold of each subset |
| Subsets.MachineCountsExactly | services/solvers/builder/enumerate.py:42-97 | where twice the largest cap fits the width, the subsets the arrays make valid are as many as the valid builds |
| Subsets.ArraysCountExactlyIffRoom | services/solvers/builder/enumerate.py:42-125 | counting over the arrays gives the number of valid builds of every puzzle that clips to these caps iff twice the largest cap fits the width picked from the caps alone |
| Subsets.FullPartsMiscounted | services/solvers/builder/enumerate.py:74-93 | the failing input for any such caps: one threshold obstacle and two parts that each reach it; together their sum wraps below zero and the arrays count too few |
| Subsets.SubsetArrays | services/solvers/builder/enumerate.py:50-99 | the arrays hold the machine row of every subset, row 0 overwritten for the empty build, and given that room its exact aggregate |
| Halves.SubsetsArePairs | services/solvers/builder/count.py:290-311 | valid subsets of the whole biject with pairs of half-subsets that meet |
| Halves.HalvesMeet | services/solvers/builder/count.py:325-336 | a whole passes iff its two halves meet: weights add, aggregates combine with saturation |
| Halves.NeutralOverCount | services/solvers/builder/count.py:363-369 | reading the empty build as neutral miscounts by exactly one, and only under min with something required |
| Halves.ReplaceBoth | services/solvers/builder/count.py:211-253 | replacing a half by one with the same keys and multiplicities keeps the number of pairs |
| MeetInMiddle.EncodeDigits | services/solvers/builder/count.py:236-240 | decoding the mixed-radix code of an aggregate gives the aggregate back |
| MeetInMiddle.DigitsEncode | services/solvers/builder/count.py:246-252 | encoding the digits of a code gives the code back |
| MeetInMiddle.KeyRoundTrip | services/solvers/builder/count.py:229-252 | keys of (weight, aggregate) are in range and decode to the same point |
| MeetInMiddle.CollapseHalf | services/solvers/builder/count.py:211-253 | collapsing a half onto distinct keys keeps its partners with every other half; a key space over 5,000,000 is left as it is |
| MeetInMiddle.ThresholdIsExact | services/solvers/builder/count.py:318-336 | a kept left key meets exactly the right keys that are light enough and cover its shortfall; a dropped one meets none |
| MeetInMiddle.SortByWeight | services/solvers/builder/count.py:313-316 | the right half sorted by weight is a permutation in order |
| MeetInMiddle.PrefixCounts | services/solvers/builder/count.py:354-359 | prefix i is the mass of the first i entries that cover the threshold |
| MeetInMiddle.SearchRight | services/solvers/builder/count.py:360-360 | binary search finds the first position heavier than the limit |
| MeetInMiddle.PrefixAnswers | services/solvers/builder/count.py:354-361 | the prefix sum at the search position is the number of partners of a left key |
| MeetCount.CountGroups | services/solvers/builder/count.py:340-361 | the total over threshold groups is the sum of the contributions of all left keys |
| MeetCount.CountMeetInMiddle | services/solvers/builder/count.py:256-370 | MAIN: whenever its guards let it answer, meet in the middle returns the number of valid builds, the DP's number |
| MeetCount.CountPuzzleByHalves | services/solvers/builder/count.py:256-370 | from the raw puzzle: where meet in the middle answers, it answers the reference total |
| FreeParts.FreePartsAreInert | services/solvers/builder/minimal.py:45-83 | a build is valid iff it is valid without its free parts |
| FreeParts.FactoringIsExact | services/solvers/builder/solve.py:104-123 | the count over all parts is the count over the others times the ways to add the free ones, for sum, max and min, any budgets and failure mode |
| FreeParts.FindFreeParts | services/solvers/builder/minimal.py:45-83 | the loop lists exactly the free parts |
| FreeParts.FreeMultiplier | services/solvers/builder/minimal.py:86-99 | the multiplier is 2^|F| for subsets and the product of stock + 1 with duplicates |
| Solve.CountByEnumeration | services/solvers/builder/enumerate.py:102-157 | answers iff subsets only, at most 24 parts and a decidable failure mode; the answer is the number of rows the machine makes valid, which is the number of valid builds given that room |
| Solve.CountCore | services/solvers/builder/solve.py:133-171 | whichever counter the dispatcher picks, the number is that of the valid builds; it answers iff the failure mode is decidable and some counter fits |
| Solve.SolveBuilder | services/solvers/builder/solve.py:65-128 | MAIN: the reported total, through factoring and dispatch, is the reference total, and it is given iff some route can answer |
| Antichain.CoresIncomparable | services/solvers/builder/minimal.py:131-160 | no core contains another |
| Antichain.AntichainDescribes | services/solvers/builder/minimal.py:131-160 | for sum and max a subset is valid iff it fits the budgets and contains a core |
| Antichain.AntichainByEnumeration | services/solvers/builder/minimal.py:131-160 | clearing bits part by part leaves exactly the masks of the cores |
| Antichain.AntichainBySizeSearch | services/solvers/builder/minimal.py:163-210 | the increasing-size search finds exactly the cores: the same set as the enumeration |
| FactoryLaws.DrawTakesNeed | services/solvers/factory/sim.py:1010-1022 | a covered greedy draw removes exactly the need, from that item only |
| FactoryLaws.DrawAllTakesNeeds | services/solvers/factory/sim.py:838-848 | drawing a covered plan removes exactly its amounts, item by item, and never adds stock |
| FactoryLaws.Conservation | services/solvers/factory/sim.py:555-906 | over every run and every flag: initial stock + deposits = stock + consumption + destruction per item, and money = starting money + revenue - cost at every hour |
| FactoryLaws.OutputWithinCap | services/solvers/factory/sim.py:589-608 | over every run, an output slot that started within its cap is within it at every hour's end, under both overflow timings |
| FactoryLedger.TotalsAreSums | services/solvers/factory/sim.py:566-881 | over every run, revenue, cost, deposits and consumption are the sums over the jobs delivered and pending of what their plans sell, charge, make and eat, with deferred charges and cancelled jobs accounted for |
| FactoryLedger.DeliveriesAreWholePlans | services/solvers/factory/sim.py:673-881 | all or nothing: each delivery is the whole plan its machine was dialled to in the hour it started; only a supplier under partial orders delivers less |
| FactoryJobs.JobInvariant | services/solvers/factory/sim.py:566-671 | at every hour's end units are pending iff hours remain, an awaiting job has exactly 2 hours left, and remaining hours follow from the starting hour |
| FactoryJobs.DeliveriesArePunctual | services/solvers/factory/sim.py:568-577 | every delivery comes exactly its production hours after its start |
| FactoryMoney.MoneyFloor | services/solvers/factory/sim.py:706-756 | with charges at the order and inputs taken in the first hour, money never falls below minus the tolerance |
| FactoryMoney.AffordedFits | services/solvers/factory/sim.py:711-728 | a partial order rounded down to whole units is within the purse |
| Relaxation.RelaxationIsShortest | services/solvers/factory/sim.py:308-323 | in-place relaxation for as many rounds as machines, stopping early when quiet, reaches the cost of the cheapest route of every machine |
| Relaxation.ShortestIsUnique | services/solvers/factory/sim.py:224-244 | two tables that bound every route and are attained by routes are equal |
| Relaxation.ShortRoute | services/solvers/factory/sim.py:313-323 | every route has one that visits no machine twice and costs no more: why the rounds are enough |
| Relaxation.Relax | services/solvers/factory/sim.py:388-401 | the loop on its array computes the relaxation rounds |
| BreadthFirst.Hops | services/solvers/factory/sim.py:224-244 | breadth-first search finds the true least number of hops to a seller |
| FactoryGraph.HopTable | services/solvers/factory/sim.py:286-287 | the hop table of the search equals the relaxed distances with every machine live |
| FactoryGraph.LeadTimeIsFastest | services/solvers/factory/sim.py:308-323 | lead time is the production hours of the fastest chain to a seller: no chain is faster, and a finite value is some chain's hours |
| FactoryGraph.LeadTable | services/solvers/factory/sim.py:308-323 | the lead-time loop computes that table |
| FactoryGraph.SortIsPriority | services/solvers/factory/sim.py:368-404 | the order served is strictly by distance, then screen distance where that is the metric, then topmost |
| FactoryGraph.AllLiveOrderIsStatic | services/solvers/factory/sim.py:368-404 | under the hops metric, with every machine live, the recomputed order is the static order |
| RampUp.NothingSoldBeforeLeadTime | services/solvers/factory/sim.py:555-906 | from empty storage without 1-hour mods, no run under any flags books revenue before hour 1 + the least lead time of any supplier |
| RampUp.NothingSoldWithoutChain | services/solvers/factory/sim.py:308-323 | where no supplier reaches a seller, nothing is ever sold |
| RampUp.FedIsLate | services/solvers/factory/sim.py:767-803 | a machine that finds its inputs is no earlier than its potential allows |
| FastPath.SimpleIsGreedy | services/solvers/factory/sim.py:998-1007 | the single-source check and subtraction are the greedy check and draw |
| FastPath.FastRunIsPlain | services/solvers/factory/sim.py:508-549 | over every run, constant settings with plan-less machines dropped and plans frozen reach hour by hour the very state of the per-hour path under a constant matrix |
| FastPath.FastMoneyIsPlain | services/solvers/factory/sim.py:508-549 | and the same money series |
| Simulation.Simulator.PlanFor | services/solvers/factory/sim.py:939-1007 | the memo returns the plan, cached or fresh, through clearing at 200,000 entries |
| Simulation.Simulator.DrawNeed | services/solvers/factory/sim.py:1010-1022 | the greedy loop in place |
| Simulation.Simulator.Take | services/solvers/factory/sim.py:831-851 | whichever path applies, the inputs taken are the greedy ones |
| Simulation.Simulator.AdvanceMachines | services/solvers/factory/sim.py:566-617 | the first pass of an hour, in place |
| Simulation.Simulator.SettleMachines | services/solvers/factory/sim.py:630-671 | the deferred pass of an hour, in place |
| Simulation.Simulator.AllocateMachines | services/solvers/factory/sim.py:673-861 | the allocation pass of an hour, in place, on frozen plans or plans looked up as reached |
| Simulation.Simulator.TrimOverfull | services/solvers/factory/sim.py:883-903 | overflow cleared after production, in place |
| Simulation.Simulator.Play | services/solvers/factory/sim.py:478-933 | the whole run of the object ends in the specified state, and the money it appends hour by hour is the money series |
| Search.ClampLandsInRange | services/solvers/factory/optimize.py:224-239 | clamping lands in the allowed range and moves exactly the vectors outside it |
| Search.ClampInPlace | services/solvers/factory/optimize.py:224-239 | the clamp rewriting the blocks of the vector in place |
| Search.InRangeIsHonest | services/solvers/factory/optimize.py:232-238 | after the clamp every dial above zero can run |
| Search.ClampedValueIsPlain | services/solvers/factory/sim.py:1070-1102 | for every clamped vector, under every flag, the fast value is the value of the per-hour path |
| Search.CanonicalRunsTheSame | services/solvers/factory/optimize.py:393-402 | recipe and mods of a switched-off machine change no state of any hour |
| Search.Explorer.Remember | services/solvers/factory/optimize.py:393-408 | every archived value is what simulating its canonical configuration gives, and the greatest value survives trimming |
| Search.Explorer.Consider | services/solvers/factory/optimize.py:472-493 | a step of the walk keeps the archive maximum equal to the incumbent; a newly starving move that earns no more changes nothing |
| Search.Explorer.Promote | services/solvers/factory/optimize.py:514-524 | a mod variant is adopted only when it beats the incumbent, and is filed |
| Search.Explorer.Restart | services/solvers/factory/optimize.py:497-503 | a restart moves the walk and leaves archive and incumbent alone |
| Search.DrainSchedule | services/solvers/factory/optimize.py:682-697 | the schedule switches off exactly the cells of the window that are too late to reach a seller |
| Search.Explorer.PlantSeeds | services/solvers/factory/optimize.py:410-414 | every seed is filed and the best of them and the baseline is the incumbent, from which the walk starts |
| Search.Endgame | services/solvers/factory/optimize.py:669-745 | MAIN: simulating the returned configuration gives the returned value, which is never below the flat one nor the whole drain schedule; only hours of the last depth + 2 of machines that are on are switched off, and they are those of the greedy pass |
| Search.EndgameReadsBack | services/solvers/factory/sim.py:445-456 | the hourly matrix of the returned configuration is the schedule that was simulated, none where nothing is off, and its vector is the vector |
| Search.WithOverrides | services/solvers/factory/optimize.py:721-744 | copying the switched-off cells into the configuration, in whatever order |
| Search.EndgameNeverWorse | services/solvers/factory/optimize.py:699-719 | the greedy pass ends no lower than the flat value and the drained one |
| Configs.VectorRoundTrip | services/solvers/factory/sim.py:412-442 | one machine of a vector survives the trip through its configuration iff its recipe index exists, or is -1 where there are no recipes |
| Configs.ConfigRoundTrip | services/solvers/factory/sim.py:412-442 | a whole vector survives the trip through a configuration with any overrides iff every recipe can be named |
| Configs.MatrixReadsOverrides | services/solvers/factory/sim.py:445-456 | the hourly matrix is absent iff no machine has an override, and otherwise holds the override of the hour or the setting |
| Documents.TokenizeRender | services/core/extract/schemas.py:324-340 | a rendered path is read back token for token |
| Documents.PathTokens | services/core/extract/delta.py:104-109 | the scan returns every match of the token pattern in order |
| Flattening.FlattenIsEntries | services/core/extract/schemas.py:281-310 | flattening writes each leaf and empty container once, at its own path, in document order |
| Flattening.EntriesSound | services/core/extract/schemas.py:281-310 | no two entries of a well-formed document share a path |
| Unflattening.UnflattenUndoesFlatten | services/core/extract/schemas.py:281-367 | MAIN: unflatten undoes flatten on every document with a dictionary root whose keys and tags can be told apart, list order and empty containers kept |
| Unflattening.CollapseMarked | services/core/extract/schemas.py:356-367 | collapsing the marked tree of a document gives the document |
| Unflattening.Rebuild | services/core/extract/schemas.py:313-353 | the loop over the flat dictionary computes the rebuild |
| Unflattening.ChildrenWin | services/core/extract/schemas.py:316-320 | a scalar or empty container at a path and a value below it leave the same tree, whichever arrives first |
| Markers.UnflattenFailsIff | services/core/extract/schemas.py:313-367 | EXACTLY WHEN: for every flat dictionary of scalars and empty containers, whatever its paths, the rebuild fails iff its writes leave a non-dictionary under the list marker as the only child of a dictionary the collapse visits |
| Markers.BuildHolds | services/core/extract/schemas.py:329-352 | what the tree holds at every place can be read off the paths: a dictionary where a kept write goes below, else the scalar written there, a write being dropped at a list step through a scalar |
| Markers.LoneMarkerFails | services/core/extract/schemas.py:345-360 | where the marker is only a last key and no list goes through a scalar, it fails iff a marker set to a non-dictionary is the only key of its parent |
| Markers.MarkerPathFails | services/core/extract/schemas.py:356-360 | a path that ends at the marker, alone under any parent, fails on every value but the empty dictionary |
| Markers.UnflattenIsTotal | services/core/extract/schemas.py:316-320 | any path set in which no path ends at the list marker rebuilds, however it conflicts |
| Deltas.TagAddresses | services/core/extract/delta.py:124-137 | EXACTLY WHEN the tag written for an element leads back to it: it is known by text or by position, or its id reads as its own position counted from either end |
| Deltas.SetPathReplaces | services/core/extract/delta.py:112-144 | along a path whose list steps lead back to their elements, writing succeeds, keeps every path and tag, and changes that entry only |
| Deltas.WriteCommutesIff | services/core/extract/delta.py:112-144 | EXACTLY WHEN, at any depth: a write along a path that touches no id or name of an element does to the document what it does to its entries iff every list step leads back to its element |
| Deltas.TextKeysLead | services/core/extract/delta.py:128-133 | where elements are known by text or position, every leaf path that does not end in an id or name leads |
| Deltas.LeadsAlike | services/core/extract/delta.py:112-144 | a path leads as well in every document alike in keys, tags and list lengths, so one change never misdirects the next |
| Deltas.ApplyChanges | services/core/extract/delta.py:147-181 | the loop over the changes |
| Deltas.ApplyCommutes | services/core/extract/delta.py:147-181 | MAIN: where the paths of the changes lead back to their elements, flattening the merged document is the flat dictionary with the same changes: every path kept in order, nothing conjured |
| Deltas.ApplyReports | services/core/extract/delta.py:159-180 | on such changes rejected lists exactly the unknown and container paths, changed the moved values, no_ops the rest, in order |
| Deltas.UntouchedValue | services/core/extract/delta.py:112-144 | a path not among the changed holds what it held |
| Deltas.DeltaCommutesIff | services/core/extract/delta.py:147-181 | EXACTLY WHEN, at any depth: a change at a path that ends in a key and touches no id or name of an element does to the document what it does to the paths iff every list step leads back to its element; otherwise the path keeps its value |
| Deltas.MisdirectionsCancel | services/core/extract/delta.py:128-137 | for several changes only one direction holds: two elements whose ids point at each other, written alike, end as if each write had reached its own |
| Deltas.NumericIdMisdirects | services/core/extract/delta.py:128-137 | a failing input: an element with id 1 listed first is tagged [1], and a write there goes into the element at position 1 |
| Divergence.PlanInterpretations | services/core/rules/resolve.py:69-96 | leading flags are pinned to their first option until the rest fits the cap, and no further |
| Divergence.EnumerateIsProduct | services/core/rules/resolve.py:99-107 | an assignment is enumerated iff it is in the cartesian product over the pinned flags |
| Divergence.EnumerateSize | services/core/rules/resolve.py:99-107 | one entry per combination |
| Divergence.BucketsPartition | services/core/rules/resolve.py:211-213 | the buckets partition the readings by the value of the flag |
| Divergence.AtMostOneExplains | services/core/rules/resolve.py:195-229 | MAIN: over the complete product at most one flag is consistent inside its values and distinct across them |
| Divergence.Attribute | services/core/rules/resolve.py:209-231 | the groups name exactly the explaining flags, each with its lists |
| Divergence.GroupRebuilds | services/core/rules/resolve.py:221-229 | the consensus and a value's own list are disjoint and together exactly what every reading with that value recommends |
| Divergence.BestPartial | services/core/rules/resolve.py:235-264 | the flag with at least two values that leaves the least disputed, each value with the union of its lists beyond the consensus |
| Divergence.PartialLists | services/core/rules/resolve.py:254-264 | a value's partial list holds exactly what some reading with that value recommends beyond the consensus |
| Divergence.AttributeDivergence | services/core/rules/resolve.py:188-266 | no group where nothing is disputed; otherwise exactly the explaining flags, or, when there is none, the best partial explanation and its note |
| Divergence.ConsensusAndIndex | services/core/rules/resolve.py:170-184 | the consensus is exactly what every successful reading recommends |
| Divergence.HighestLeverage | services/core/rules/resolve.py:269-292 | a flag of greatest average collapse of disputes |
| Divergence.GainIsNotNegative | services/core/rules/resolve.py:287-288 | splitting by a flag never adds disputes on average |
| Divergence.LeverageFindsTheCause | services/core/rules/resolve.py:269-302 | over the complete product the flag of highest leverage is the one that explains the split, whenever one does |

## Left out

- Solve.SolveBuilder: where a fixed-width array is read (small puzzles whose builds are wanted, tables over the limit) it requires room for one uncapped addition under sum; without it the enumeration counts what `Subsets.CountMachine` says, exactly the valid builds only under `Subsets.ArraysCountExactlyIffRoom`. Consumable, mixed and table-counted puzzles carry no such condition.
- Solve.CountCore: carries that width requirement on the same routes only.
- MeetCount.CountMeetInMiddle: requires room for one uncapped addition under sum, because its halves are read from the fixed-width arrays; what it makes of rows that have wrapped is not modelled.
- MeetCount.CountPuzzleByHalves: carries the same width requirement.
- Antichain.AntichainByEnumeration: carries the width requirement, and ignores the cut at a largest number of cores.
- Antichain.AntichainDescribes: is stated for sum and max only; under min a part can undo a build and the claim is not made.
- Antichain.AntichainBySizeSearch: does not model the caps on combinations, cores and time that set the truncated mark.
- FastPath.FastRunIsPlain: under per-hour priorities it requires that every dial above zero can run, which the clamp guarantees (`Search.InRangeIsHonest`).
- FactoryMoney.MoneyFloor: makes no claim under charges at delivery or late consumption, where the code checks nothing at the moment of the charge.
- RampUp.NothingSoldBeforeLeadTime: requires empty storage, no 1-hour mod and an input in every maker and seller recipe in use; with stock on hand or free goods the first sale is earlier.
- Unflattening.Rebuild: the cursor that mutates nested dictionaries is modelled by rebuilding the dictionaries along the path; aliasing is not captured.
- Deltas.ApplyCommutes: requires the paths of the changes to lead back to their elements and to spare the id or name an element goes by, since such a change renames the paths below it; the write is modelled on values, not through the cursor; integer tags are read as decimals with an optional minus, without plus signs, spaces or underscores.
- Deltas.DeltaCommutesIff: leaves out paths that end in a list step, where a misdirected write can give two elements one tag; `Deltas.WriteCommutesIff` covers them on the entries.
- Search.Endgame: requires recipe positions that a configuration can name, which the clamp guarantees, and leaves out the actions it reports.
- Search.Explorer.Consider: random moves, cooling, wall clock and heartbeat are left out; every move is an arbitrary vector and the Metropolis draw a boolean.
- The copy of the clipped puzzle's names, ids and provenance; obstacles arrive already in sequence order.
- Default rules and their warnings (`resolve_rules`), report notes, best and lightest builds, slack, enriched reports and truncation marks.
- The gate-by-gate eliminations of `ordered.py:212-238` and `best_subset`: easy readings of one loop.
- `validation_errors` and `config_diff`: lists of messages and clicks about a configuration; the actions an endgame reports beside its configuration.
- CP-SAT, GLOP and all of `bounds.py`: foreign solvers; where the dispatcher would call CP-SAT the model answers with an error.
- The steady-state ceiling and `depth`: a chain shorter than the longest can sell earlier, so no bound is claimed.
- Float rounding of money and of the leverage averages; numpy's 64-bit overflow of counts.
- Logs and warning texts of a run; only their totals are kept.
- Repeated edges between two machines, which the code counts twice.
- The type coercion of a changed field is a parameter of the delta; pydantic models are documents already dumped; the writing of a non-text id is a parameter.
- Sorting of a group's actions by key and their wording; errors other than "this reading failed".
- Calibration, the jury, the guard, the rule store, workers, capture, agents and the web applications.
