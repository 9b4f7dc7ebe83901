# Points-to analysis and store instrumentation, verified

A Dafny model of the algorithms at the centre of this repository, with proofs of what they promise: the
analysis engine SVF (detection of strongly connected components, the solvers built on it, points-to data
structures, demand-driven traversal) and the passes that find stores and guard them with `call_kill`.

`dafny verify dfyconfig.toml` checks everything.

## How it is organised

| files | what they model |
|---|---|
| Graphs | finite directed graphs and reachability |
| Scc, SccRecords, SccAnswers, SccDetection | the recursive component search: its invariant on values, how the detector's fields record it, what the answers mean, and the class that updates the fields |
| WorkList | the queue and the stack with unique items |
| FlowProblem, NodeOrder, FsSolver | data-flow problems and their fixpoints, the order of nodes, and the two solvers over components |
| Ir, Instrument, Simulation, Preservation, KillEvents, InstrumentPass | a small block language with small-step semantics, the rewrite of a store, the simulation, whole runs, the kill events in them, and the pass |
| DfPoints, DfPtData, IncPtData, IncRefines, FlowEffects, FlowRuns, FlowSensitive | points-to sets per location, the plain and the incremental store, the refinement, what processing a node does, whole runs, and the analysis that uses it |
| PtData, WaveDiff, WaveSteps, WaveSolve, WaveOrder | points-to data with reverse and propagated sets; the wave solver's invariant, its steps, parts of a round, merging cycles and the order of a pass |
| WaveRounds, WaveFlow, WaveLeast | a round in terms of the state before it: when it adds an edge, ends at rest, and ends with the least solution |
| WaveCalled, WaveCalls, WaveRuns, AndersenWaveDiff, WaveOverlooks | which copies can ever arise, calls through pointers, whole runs as chains of rounds, the class with the whole analysis, and a run that ends without a solution |
| Contexts, CflTraversal, CflSolver | call strings of bounded length and demand-driven traversal |
| FindStores | numbering of values and search in the call graph |
| Orders, PointsToOrder, CondPointsTo, TypeSets | orders on sets, and algorithms on ordered sets |

Where the program changes an object's fields, a class does; each method is tied to the old state by a relation
or function on values, and the lemmas are about those. Ids are natural numbers. A map entry that is missing and
one that is empty mean the same, as they do after `operator[]`.

## What the model takes as given

- The component detector reserves the id `UINT_MAX` for "no representative"; graphs it is run on do not use it.
- The solvers' transfer functions are monotone and make facts from a finite set. `processNode` of the generic
  solvers is a transfer along each out-edge followed by `propagate`.
- The discipline of the incremental store (`IncRefines.Allowed`): a store location consumes IN flags with
  `updateAllDFOutFromIn`; OUT flags are cleared only when everything has been passed on along all edges;
  a new edge is first propagated along without looking at flags; a load has one destination. FlowSensitive
  shows that node processing keeps to it when the variables that an edge carries are fixed. The analysis
  itself adds, for an object without fields told apart, the objects of its fields as they come up; an edge that
  begins to carry one more variable that way is an edge that was not propagated along unflagged.
- In the value-flow graph every definition of a top-level pointer has edges to all its uses, and nodes that pass on
  carry objects only (`FlowRuns.Wired`).
- What a call through a pointer to a function connects is a parameter (`WaveCalls.Sites`).
- Use lists are right about which operand slots hold a value (`InstrumentPass.UsesOk`).
- `call_kill` is an event that leaves memory alone. What other functions outside the module do and return is a
  parameter, the same for both programs.
- The watched global exists; `getGlobalVariableAndCasts` dereferences it without a check.

## Where code and intention differ

- `filter_uses` collects a store for each use of a watched constant, so a store of the global's own address
  somewhere else is instrumented too, and a store of the global to itself twice. The number of kill events is
  exactly the number of watched slots (`InstrumentPass.WatchedStoresAnnounced`).
- With a context limit of zero `pushContext` drops the call site but leaves the context concrete
  (`Contexts.ZeroLimitStaysConcrete`).
- Equality and subset of conditional points-to sets go by entries: an entry with no objects counts, though it has
  no pairs, and intersection leaves such entries behind (`CondPointsTo.EmptyEntryDiffers`,
  `CondPointsTo.IntersectionLeavesEntries`). They mean the pairs exactly if the conditions with entries agree
  (`CondPointsTo.EqualIffSamePairs`, `CondPointsTo.EntryWiseIffPairsWithin`).
- `CFLSolver` keeps no record of what it has processed and so runs forever exactly if it can reach a cycle
  (`CflTraversal.EndsIffAcyclic`).
- A load into a second variable from a location whose flag the first load took off gets nothing
  (`IncRefines.SecondDestinationStarves`).
- `mergeNodeToRep` does not queue the node it merges into. A load or store through one node of a cycle is then not
  resolved for objects that only another node had, unless the merged node gets something in the pass or one of the
  nodes is queued anyway, and the analysis may end with answers that are no solution. `WaveOverlooks.RunOverlooks`
  is such a run, whatever order the solver works in: 3 points to 7, 4 to 0, 7 to 5 and 5 to 6; 1 is copied to 0;
  3 and 4 are loaded into 1, and 0 into 2. The first round brings 5 to 1 and closes the cycle of 0 and 1; the second
  merges them, and 2 never gets 6.
  Only nodes with which a round after the first has merged another can be overlooked (`WaveRuns.ApartIsDone`).
  Which single merge leaves a node neither queued nor done is `WaveSolve.MergeQueuedIff`; what a whole round comes
  to is told exactly, from the state before it, by `WaveLeast.RestIff` and `WaveLeast.LeastIff`; and
  `AndersenWaveDiff.AndersenWaveDiff.Analyze` has a condition on the constraints under which the analysis is right.
- `instrumentStoreInstruction` is declared to return a value and returns none; no caller uses it.

## Model

| member | source | states |
|---|---|---|
| SccDetection.SCCDetection.Find | SVF-devel/include/Util/SCC.h:271-292 | After the search the detector's answers are those the graph determines: two nodes have one representative exactly if they reach each other, sub-nodes of a representative are its component and of any other node empty, the recorded representatives are those of components of two or more nodes, the topological stack holds each representative once with no edge from a lower component to a higher one, and the work stack is empty |
| SccDetection.SCCDetection.Visit | SVF-devel/include/Util/SCC.h:218-257 | Visiting an unvisited node terminates by the count of unvisited nodes, keeps the invariant of the search, leaves older stack entries in place, and leaves the stack as it was if the node closes its component |
| SccDetection.SCCDetection.VisitChild | SVF-devel/include/Util/SCC.h:228-240 | One turn of the loop over the children: after it the provisional representative of v is the oldest node it is known to reach among those in progress |
| SccDetection.SCCDetection.CloseComponent | SVF-devel/include/Util/SCC.h:241-254 | The nodes that are popped are exactly the component of the root, which goes onto the topological stack |
| SccDetection.SCCDetection.GatherComponent | SVF-devel/include/Util/SCC.h:242-252 | Pops exactly the nodes stacked since the root was entered, and no other, into the root's component |
| SccDetection.SCCDetection.SetRep | SVF-devel/include/Util/SCC.h:193-201 | The in-place effect of recording a representative: sub-nodes of the target grow, those of the node are cleared, the set of representatives is updated only if they differ |
| SccDetection.SCCDetection.IsInCycle | SVF-devel/include/Util/SCC.h:135-152 | True exactly if the node reaches itself by a non-empty path |
| SccAnswers.CycleCases | SVF-devel/include/Util/SCC.h:135-152 | A node lies on a cycle exactly if its component has several nodes or its representative has a self-edge |
| SccAnswers.RecordedReps | SVF-devel/include/Util/SCC.h:126-131 | A finished search answers representatives correctly: equal exactly for nodes that reach each other |
| SccAnswers.RecordedSubs | SVF-devel/include/Util/SCC.h:155-164 | A finished search answers sub-nodes and the set of representatives of larger components correctly |
| SccAnswers.RecordedTopo | SVF-devel/include/Util/SCC.h:253-253 | A finished search leaves each representative once on the topological stack, targets of edges between components below sources |
| Scc.SameRepIffMutuallyReach | SVF-devel/include/Util/SCC.h:218-257 | In a complete search state, two nodes share a representative exactly if they reach each other |
| Scc.ReachesNoHigher | SVF-devel/include/Util/SCC.h:241-256 | Nothing reaches a component that was closed later than its own |
| Scc.SubNodesAreComponent | SVF-devel/include/Util/SCC.h:193-201 | In a complete search state, sub-nodes are the component of a root and empty elsewhere, in spite of the provisional additions and clearings |
| Scc.RepNodesExact | SVF-devel/include/Util/SCC.h:193-201 | In a complete search state, the recorded representatives are exactly the roots whose component has another node |
| Scc.EdgesDescend | SVF-devel/include/Util/SCC.h:253-253 | An edge between different components leads to the one that was pushed earlier |
| Scc.EnterKeepsInv | SVF-devel/include/Util/SCC.h:219-223 | Entering a node keeps the invariant of the search |
| Scc.RedirectKeepsInv | SVF-devel/include/Util/SCC.h:233-239 | Lowering the provisional representative keeps the invariant of the search |
| Scc.ChildVisited | SVF-devel/include/Util/SCC.h:231-232 | What a recursive visit leaves lets its caller go on |
| Scc.PushKeepsInv | SVF-devel/include/Util/SCC.h:255-256 | Pushing a node that is not a root keeps the invariant: it reaches a node in progress that is older |
| Scc.ClosingIsComponent | SVF-devel/include/Util/SCC.h:241-252 | The nodes above a root on the stack, with the root, are closed under mutual reachability and mutually reach the root |
| Scc.CloseKeepsInv | SVF-devel/include/Util/SCC.h:241-254 | Closing a component keeps the invariant of the search |
| WorkList.FIFOWorkList.Push | SVF-devel/include/Util/WorkList.h:142-150 | Appends an item exactly if it is not held, keeping list and set in agreement |
| WorkList.FIFOWorkList.Pop | SVF-devel/include/Util/WorkList.h:155-161 | Removes the first item from list and set |
| WorkList.FILOWorkList.Pop | SVF-devel/include/Util/WorkList.h:214-220 | Removes the last item from list and set |
| FsSolver.Solver.SccDetect | SVF-devel/include/WPA/WPAFSSolver.h:62-89 | The node stack becomes a permutation of all nodes with components contiguous and in topological order from the top |
| FsSolver.Solver.Propagate | SVF-devel/include/WPA/WPAFSSolver.h:133-140 | Processing a node delivers along each out-edge what the transfer of that edge makes of the facts at the node; each changed target is put where it will be processed, and the missing facts shrink unless the work list stays as it was |
| FsSolver.Solver.PropFromSrcToDst | SVF-devel/include/WPA/WPAFSSolver.h:133-140 | The facts at the target of an edge grow by what the transfer of that edge makes of the facts at its source, and nothing else changes; true exactly if they grew |
| FsSolver.Solver.AddNodeIntoWorkList | SVF-devel/include/WPA/WPAFSSolver.h:142-145 | A changed node is queued if it is in the current component; in the minimum solver it becomes a candidate otherwise; and nothing else is noted |
| FsSolver.Solver.Settle | SVF-devel/include/WPA/WPAFSSolver.h:127-128 | The inner loop terminates with an empty work list and nothing left to deliver inside the component |
| FsSolver.Solver.SolveTop | SVF-devel/include/WPA/WPAFSSolver.h:187-203 | The turn of one stack entry: afterwards only nodes still on the stack may have undelivered facts |
| FsSolver.Solver.Solve | SVF-devel/include/WPA/WPAFSSolver.h:109-130 | One pass over the components processes every node and ends in the least fixpoint above the start state, for every graph and every monotone transfer, one for each edge, into a finite set of facts |
| FsSolver.Solver.SolveMinimum | SVF-devel/include/WPA/WPAFSSolver.h:174-204 | If every node with undelivered facts is in the work list, or the list is empty, the minimum solver ends in the same least fixpoint, with no candidates left; from a list that is not empty it processes the nodes it starts with, and no others but those whose facts have changed |
| FlowProblem.LeastFixpointUnique | SVF-devel/include/WPA/WPAFSSolver.h:174-204 | Least fixpoints above one start state have the same facts everywhere, so that the two solvers agree |
| FlowProblem.FixpointMeans | SVF-devel/include/WPA/WPAFSSolver.h:133-140 | In a fixpoint every fact that the transfer of an edge makes of the facts at its source is at its target; a node without an entry has no facts |
| FlowProblem.DeliverBelow | SVF-devel/include/WPA/WPAFSSolver.h:133-140 | Delivering along an edge stays below every fixpoint above the start |
| FlowProblem.DeliverOnTrack | SVF-devel/include/WPA/WPAFSSolver.h:133-145 | Delivering along the next edge of a node, and queuing its target if that changed, leaves every unsatisfied node queued, a candidate, or still to come |
| FlowProblem.DeliverMeasure | SVF-devel/include/WPA/WPAFSSolver.h:133-140 | Delivery that changes something takes away from the finite set of missing facts |
| NodeOrder.AscendingIsTopological | SVF-devel/include/WPA/WPAFSSolver.h:62-89 | A stack ascending by component rank is a permutation of the nodes with contiguous components in topological order |
| NodeOrder.SubNodesHaveRank | SVF-devel/include/WPA/WPAFSSolver.h:70-77 | Spelling out the entry at height j of the topological stack adds exactly the nodes of rank j |
| NodeOrder.PopNode | SVF-devel/include/WPA/WPAFSSolver.h:117-125 | Edges out of the component that is popped lead into it or to components still on the stack |
| Instrument.AnnotateTwice | mpi-annotations/mpi/MPI.cpp:385-391 | Announcing twice adds up, also for a store that is collected more than once |
| Instrument.KilledFirstTwice | mpi-annotations/mpi/MPI.cpp:275-304 | A change already announced n times and instrumented m times more is announced n + m times |
| Simulation.InstrumentedLayout | mpi-annotations/mpi/MPI.cpp:252-308 | The rewritten function consists of the first half ending in load, compare and branch, the second half starting with the store, and the calling block; phi nodes of successors follow the terminator |
| Simulation.StepSimulates | mpi-annotations/mpi/MPI.cpp:252-308 | Each step of the original is matched by one or more steps of the instrumented program, from related to related states |
| Simulation.ExecRel | mpi-annotations/mpi/MPI.cpp:252-308 | Every instruction other than the instrumented store acts alike in both programs, whichever block its activation is in now |
| Simulation.FinishRel | mpi-annotations/mpi/MPI.cpp:252-308 | Leaving a block acts alike in both programs, phi nodes included, also from the moved terminator |
| Simulation.InstrumentedStoreRel | mpi-annotations/mpi/MPI.cpp:269-304 | Where the original stores, the instrumented program checks and then stores, and records a kill event exactly if the store changes memory; it traps where the original traps |
| Simulation.RenamedPhisSame | mpi-annotations/mpi/MPI.cpp:261-261 | Phi nodes read, coming from the second half, what they read before coming from the whole block |
| Preservation.InstrumentedPreserves | mpi-annotations/mpi/MPI.cpp:252-308 | From every start state the instrumented program gets wherever the original gets, with the same memory, calls and result, its events being the original ones with kill events added |
| Preservation.PreservesTrans | mpi-annotations/mpi/MPI.cpp:385-391 | Rewrites that preserve programs compose, so that any list of stores may be instrumented one after the other |
| Preservation.OutcomeKept | mpi-annotations/mpi/MPI.cpp:385-391 | Whatever the original has come to after n steps the instrumented program comes to |
| Preservation.OutcomeReflected | mpi-annotations/mpi/MPI.cpp:385-391 | If the instrumented program halts, so does the original, with the same outcome |
| KillEvents.EveryChangeAnnounced | mpi-annotations/mpi/MPI.cpp:269-304 | At every point of every run of the instrumented program, a change of memory by an instrumented store directly follows the event of a call with the arguments -100 and 1 |
| KillEvents.EveryKillIsDue | mpi-annotations/mpi/MPI.cpp:269-304 | At every point of every run, a change of memory directly follows exactly as many kill events as its store was instrumented times, and no other event follows one |
| KillEvents.SameButForKills | mpi-annotations/mpi/MPI.cpp:252-308 | Whatever the original comes to, the instrumented program comes to with the same result and memory, and its events without the kill events are the events of the original; and the other way round when it has halted |
| KillEvents.RunIsPrefix | mpi-annotations/mpi/MPI.cpp:269-304 | What an instrumented program has recorded is at every point a prefix of an annotated trace of the original |
| InstrumentPass.InstrumentedOk | mpi-annotations/mpi/MPI.cpp:252-308 | The rewritten program is well-formed: fresh blocks and registers, each store still once |
| InstrumentPass.StoresKept | mpi-annotations/mpi/MPI.cpp:385-391 | No store is lost by the rewrite, so the ones still to be instrumented are there |
| InstrumentPass.CollectedCount | mpi-annotations/mpi/MPI.cpp:311-343 | Each store is collected once for each of its two operand slots that holds the global or a one-level constant cast of it: the slots for the value count as well as those for the pointer |
| InstrumentPass.CheckInstrumentPass.GetGlobalVariableAndCasts | mpi-annotations/mpi/MPI.cpp:311-331 | The global and then its users that are cast constant expressions, in use order |
| InstrumentPass.CheckInstrumentPass.FilterUses | mpi-annotations/mpi/MPI.cpp:27-40 | For each operand in order, the stores among its users, in use order and with repetitions |
| InstrumentPass.CheckInstrumentPass.InstrumentStoreInstruction | mpi-annotations/mpi/MPI.cpp:252-308 | The steps on blocks in place amount to the rewrite: the first half of the block ends in a load through the pointer, a comparison with the value and a branch to the call with -100 and 1 or past it, and the second half begins with the store |
| InstrumentPass.CheckInstrumentPass.RunOnModule | mpi-annotations/mpi/MPI.cpp:334-393 | The pass delivers a well-formed program that preserves the original one, with each store instrumented once per watched slot |
| InstrumentPass.WatchedStoresAnnounced | mpi-annotations/mpi/MPI.cpp:334-393 | In every run of what the pass delivers a change of memory directly follows one call with the arguments -100 and 1 per watched slot of its store, and no more: one for a store to the global or a cast, none for other stores, two if pointer and value are both watched |
| DfPoints.PlainStepAgrees | SVF-devel/include/MemoryModel/PointsToDFDS.h:115-163 | What an operation of the plain store does to the sets, and answers, depends on the sets alone |
| DfPtData.DFPTData.UpdateDFInFromIn | SVF-devel/include/MemoryModel/PointsToDFDS.h:115-117 | One IN set grows by an IN set; true exactly if it grew |
| DfPtData.DFPTData.UpdateDFInFromOut | SVF-devel/include/MemoryModel/PointsToDFDS.h:119-121 | One IN set grows by an OUT set; true exactly if it grew |
| DfPtData.DFPTData.UpdateDFOutFromIn | SVF-devel/include/MemoryModel/PointsToDFDS.h:123-125 | One OUT set grows by an IN set; true exactly if it grew |
| DfPtData.DFPTData.UpdateAllDFOutFromIn | SVF-devel/include/MemoryModel/PointsToDFDS.h:137-153 | Every OUT set of the location grows by the IN set of its variable, except for the strongly updated one; true exactly if one grew |
| DfPtData.DFPTData.UpdateTLVPts | SVF-devel/include/MemoryModel/PointsToDFDS.h:155-157 | A top-level set grows by an IN set; true exactly if it grew |
| DfPtData.DFPTData.UpdateATVPts | SVF-devel/include/MemoryModel/PointsToDFDS.h:159-161 | An OUT set grows by a top-level set; true exactly if it grew |
| IncPtData.IncDFPTData.UpdateDFInFromIn | SVF-devel/include/MemoryModel/PointsToDFDS.h:282-289 | As in the plain store if the source is flagged, flagging the target if it grew; otherwise nothing and false |
| IncPtData.IncDFPTData.UpdateDFInFromOut | SVF-devel/include/MemoryModel/PointsToDFDS.h:291-298 | As in the plain store if the source is flagged, flagging the target if it grew; otherwise nothing and false |
| IncPtData.IncDFPTData.UpdateDFOutFromIn | SVF-devel/include/MemoryModel/PointsToDFDS.h:300-309 | As above, taking the flag off the source |
| IncPtData.IncDFPTData.UpdateAllDFInFromOut | SVF-devel/include/MemoryModel/PointsToDFDS.h:313-319 | Propagation without looking at flags, flagging the target if it grew |
| IncPtData.IncDFPTData.UpdateAllDFInFromIn | SVF-devel/include/MemoryModel/PointsToDFDS.h:322-328 | Propagation without looking at flags, flagging the target if it grew |
| IncPtData.IncDFPTData.UpdateAllDFOutFromIn | SVF-devel/include/MemoryModel/PointsToDFDS.h:330-346 | The IN sets of the flagged variables but the strongly updated one flow to OUT and lose their flags; the OUT sets that grew are flagged; true exactly if one grew |
| IncPtData.IncDFPTData.UpdateTLVPts | SVF-devel/include/MemoryModel/PointsToDFDS.h:348-354 | A flagged IN set goes to a top-level variable and loses its flag; otherwise nothing and false |
| IncPtData.IncDFPTData.UpdateATVPts | SVF-devel/include/MemoryModel/PointsToDFDS.h:356-362 | An OUT set grows by a top-level set and is flagged if it grew |
| IncPtData.IncDFPTData.ClearAllDFOutUpdatedVar | SVF-devel/include/MemoryModel/PointsToDFDS.h:379-387 | No variable of the location is flagged in OUT; the sets stay |
| IncPtData.FlagsMean | SVF-devel/include/MemoryModel/PointsToDFDS.h:282-387 | Flags are set exactly on what an operation has made grow; an IN flag is taken off exactly when the set is passed on within its location, OUT flags when they are cleared |
| IncPtData.FlushMeans | SVF-devel/include/MemoryModel/PointsToDFDS.h:330-346 | Of the flagged IN sets of a location all but the strongly updated one go to OUT and lose their flags, and exactly the OUT sets that grow are flagged |
| IncRefines.IncStepIsPlain | SVF-devel/include/MemoryModel/PointsToDFDS.h:282-387 | Each operation that the discipline allows does to the sets, and answers, exactly what the plain operation does and answers |
| IncRefines.StepKeeps | SVF-devel/include/MemoryModel/PointsToDFDS.h:282-387 | Each allowed operation keeps this: what is not flagged has been passed on to where it goes |
| IncRefines.RunsAgree | SVF-devel/include/MemoryModel/PointsToDFDS.h:115-161 | In every run within the discipline the incremental store and the plain one hold the same sets at every point and give the same answers |
| IncRefines.NothingLostInRun | SVF-devel/include/MemoryModel/PointsToDFDS.h:282-387 | At every point of every run within the discipline, unflagged sets have been passed on |
| IncRefines.PropagatedMayClear | SVF-devel/lib/WPA/FlowSensitive.cpp:130-136 | Propagating along all edges of a location makes clearing its OUT flags allowed |
| IncRefines.StrongUpdateKeepsFlag | SVF-devel/include/MemoryModel/PointsToDFDS.h:338-340 | The variable that a strong update skips stays flagged and its OUT set as it was |
| IncRefines.WeakUpdateCatchesUp | SVF-devel/include/MemoryModel/PointsToDFDS.h:330-346 | A later weak update passes on all of IN, with what strong updates skipped |
| IncRefines.SecondDestinationStarves | SVF-devel/include/MemoryModel/PointsToDFDS.h:348-354 | Loading one location into a second variable misses facts, unless that variable has them all already: then and only then it agrees with the plain store |
| FlowSensitive.FlowSensitive.ProcessNode | SVF-devel/lib/WPA/FlowSensitive.cpp:130-136 | Processing a node keeps the discipline and, in terms of the sets alone, first does what the kind of node says and then, if that changed something, passes on along all out-edges all that the node has; flags have no influence on the result |
| FlowSensitive.FlowSensitive.ProcessLoad | SVF-devel/lib/WPA/FlowSensitive.cpp:418-449 | The loaded variable grows by all that the objects its pointer points to may hold on entry, constants aside; true exactly if it grew |
| FlowSensitive.FlowSensitive.ProcessStore | SVF-devel/lib/WPA/FlowSensitive.cpp:457-507 | Nothing if the pointer points to nothing; otherwise the value goes to all targets, constants aside, and everything passes through except the one target that is surely overwritten; true exactly if an OUT set grew |
| FlowSensitive.FlowSensitive.IsStrongUpdate | SVF-devel/lib/WPA/FlowSensitive.cpp:512-530 | Strong exactly if the pointer has one target and that is one memory cell |
| FlowSensitive.FlowSensitive.Propagate | SVF-devel/include/WPA/WPASolver.h:124-131 | Every IN set that an out-edge leads to grows by exactly what the node has for the variables the edge carries; the nodes to process are the ends of direct edges and of edges that bring something new, in the order of the edges |
| FlowSensitive.FlowSensitive.PropAlongIndirectEdge | SVF-devel/lib/WPA/FlowSensitive.cpp:283-315 | One edge delivers, for each object it carries, what its source has |
| FlowSensitive.FlowSensitive.ConnectEdge | SVF-devel/lib/WPA/FlowSensitive.cpp:571-611 | A new edge gets what is there already, flagged or not, and keeps the discipline |
| FlowSensitive.MayClear | SVF-devel/lib/WPA/FlowSensitive.cpp:130-136 | When a node has been processed clearing its flags is allowed: everything was propagated, or nothing was flagged |
| FlowSensitive.FlowSensitive.PropVarPtsAfterCgUpdated | SVF-devel/lib/WPA/FlowSensitive.cpp:617-628 | Along a new edge one variable delivers all that its source has, whether flagged or not |
| FlowEffects.PropDelivers | SVF-devel/lib/WPA/FlowSensitive.cpp:283-315 | After propagation all that a store has in OUT has arrived along all its edges |
| FlowSensitive.FlowSensitive.Solve | SVF-devel/include/WPA/WPASolver.h:89-112 | From every start that is on track the run is a chain of turns and nothing else: one for each node from the top of the stack down, and then always that of the first queued node until none is queued. It ends, and then processing any node changes nothing. With strong updates or without, it ends below every state above the start that no node changes when stores overwrite nothing; so without strong updates with the least sets above the start that no node changes |
| FlowRuns.TurnOnTrack | SVF-devel/lib/WPA/FlowSensitive.cpp:130-136 | Processing a node, with or without a strong update, leaves every node either queued or such that processing it changes nothing and what it has is at the ends of its edges |
| FlowRuns.TurnMeasure | SVF-devel/include/WPA/WPASolver.h:107-110 | A turn that queues anything takes from the finitely many facts that are still missing |
| FlowRuns.WorkIsNew | SVF-devel/include/WPA/WPASolver.h:107-110 | A turn that queues a node has changed a set |
| FlowRuns.TurnBelow | SVF-devel/lib/WPA/FlowSensitive.cpp:130-136 | Processing a node, with or without a strong update, stays below whatever is settled everywhere when stores overwrite nothing |
| FlowEffects.StoreMeans | SVF-devel/lib/WPA/FlowSensitive.cpp:457-507 | Object by object what a store does: what the value has goes to the objects pointed to, constants aside, and what an object may hold on entry stays unless the pointer points to it alone and it is one memory cell; through a pointer that points to nothing, nothing |
| FlowEffects.DefinitionMeans | SVF-devel/lib/WPA/FlowSensitive.cpp:418-449 | Object by object what a load, copy or address does: a load gives its variable what the objects pointed to may hold on entry, constants aside |
| FlowRuns.PropMeans | SVF-devel/lib/WPA/FlowSensitive.cpp:283-315 | Propagation brings along each edge, for each object it carries, what a store has on exit and any other node on entry, and nothing else |
| PtData.InverseUnited | SVF-devel/include/MemoryModel/PointsToDS.h:107-118 | Adding objects to a variable and the variable to the reverse set of each keeps the two maps inverse |
| PtData.PTData.AddPts | SVF-devel/include/MemoryModel/PointsToDS.h:107-110 | Adds one pair to both maps, which stay inverse to each other; true exactly if it is new |
| PtData.PTData.UnionPts | SVF-devel/include/MemoryModel/PointsToDS.h:111-114 | Adds the objects of one variable to another in both maps, which stay inverse; true exactly if some are new |
| PtData.PTData.AddRevPts | SVF-devel/include/MemoryModel/PointsToDS.h:136-139 | Adds the variable to the reverse set of each object |
| PtData.DiffPTData.ComputeDiffPts | SVF-devel/include/MemoryModel/PointsToDS.h:200-209 | The difference is what has not been propagated; all counts as propagated afterwards; true exactly if the difference is not empty |
| PtData.DiffPTData.UpdatePropaPtsMap | SVF-devel/include/MemoryModel/PointsToDS.h:215-219 | Only what both have propagated stays propagated for the target |
| WaveDiff.RestIsLeast | SVF-devel/include/WPA/Andersen.h:183-185 | When all differences are empty and loads and stores are resolved, the sets of the representatives are the least solution of the address, copy, load and store constraints |
| WaveDiff.RestSolves | SVF-devel/include/WPA/Andersen.h:183-185 | When all differences are empty and loads and stores are resolved, the answers satisfy all constraints: nothing was lost |
| WaveSteps.PassKeeps | SVF-devel/lib/WPA/AndersenWaveDiff.cpp:42-67 | Propagating a difference keeps this: what counts as propagated is at every successor |
| WaveSteps.PassSound | SVF-devel/lib/WPA/AndersenWaveDiff.cpp:42-67 | Propagating a difference stays below every solution: nothing was invented |
| WaveSteps.CopyKeeps | SVF-devel/include/WPA/Andersen.h:383-392 | Adding a copy edge with a union of everything keeps what holds between steps, in whatever state loads and stores are |
| WaveSteps.CopySound | SVF-devel/include/WPA/Andersen.h:383-392 | Adding a copy edge that a solution obeys stays below that solution |
| WaveSteps.Resolve | SVF-devel/lib/WPA/AndersenWaveDiff.cpp:80-121 | An object of a load or store is resolved once it has its copy edge or is not to be dereferenced |
| WaveSteps.MergeKeeps | SVF-devel/lib/WPA/AndersenWaveDiff.cpp:149-157 | Merging, with the propagated set cut down to what both have propagated, keeps what holds between steps |
| WaveSteps.MergeSound | SVF-devel/lib/WPA/Andersen.cpp:426-449 | Merging a node into another one of its cycle stays below every solution |
| WaveSteps.GrowsAlong | SVF-devel/lib/WPA/Andersen.cpp:426-449 | Solutions grow along paths of copy edges, so they are constant on cycles |
| WaveSteps.ImagePath | SVF-devel/lib/MemoryModel/ConsG.cpp:375-470 | Moving the edges of a merged node keeps paths, up to the merge |
| AndersenWaveDiff.AndersenWaveDiff.HandleCopyGep | SVF-devel/lib/WPA/AndersenWaveDiff.cpp:42-48 | Every successor of the node grows by its difference, and everything the node has counts as propagated |
| AndersenWaveDiff.AndersenWaveDiff.ProcessCopy | SVF-devel/lib/WPA/AndersenWaveDiff.cpp:53-67 | The target grows by the difference of the source; true exactly if it grew |
| AndersenWaveDiff.AndersenWaveDiff.AddCopyCGEdge | SVF-devel/lib/MemoryModel/ConsG.cpp:158-172 | Adds an edge between the representatives unless they are the same or it is there |
| AndersenWaveDiff.AndersenWaveDiff.AddCopyEdge | SVF-devel/include/WPA/Andersen.h:383-392 | Adds a copy edge unless the two are connected or merged already, and then everything flows along it |
| AndersenWaveDiff.AndersenWaveDiff.OnTheFlyCallGraphSolve | SVF-devel/lib/MemoryModel/PointerAnalysis.cpp:607-658 | Finds exactly the calls that pointers make and that are not connected, and records them as connected |
| AndersenWaveDiff.AndersenWaveDiff.ConnectCaller2CalleeParams | SVF-devel/lib/MemoryModel/ConsG.cpp:475-543 | Adds the edges between representatives that are not there, and notes exactly those as new |
| AndersenWaveDiff.AndersenWaveDiff.UpdateCallGraph | SVF-devel/lib/WPA/AndersenWaveDiff.cpp:126-144 | Connects all calls found: first all edges are added, then what each source has flows along its edge, once, and every end of a new edge is queued, grown or not. What it ends with is again sound, and below every solution of constraints and calls; true exactly if there was a new call |
| WaveCalls.ConnectKeeps | SVF-devel/lib/WPA/AndersenWaveDiff.cpp:126-144 | Adding edges first and flowing along them later keeps what holds between steps |
| WaveCalls.ConnectSound | SVF-devel/lib/WPA/AndersenWaveDiff.cpp:126-144 | Connecting stays below every solution of the connections |
| WaveCalls.LeastWithCallsIff | SVF-devel/include/WPA/Andersen.h:101-119 | When no call is missing, the sets are the least solution of constraints and calls exactly if they are the least one of what has been connected |
| AndersenWaveDiff.AndersenWaveDiff.HandleLoad | SVF-devel/lib/WPA/AndersenWaveDiff.cpp:80-98 | Resolves a load for exactly what it was not resolved for; true exactly if the graph got an edge; new edges are those of its objects |
| AndersenWaveDiff.AndersenWaveDiff.HandleStore | SVF-devel/lib/WPA/AndersenWaveDiff.cpp:103-121 | Resolves a store for exactly what it was not resolved for; true exactly if the graph got an edge; new edges are those of its objects |
| AndersenWaveDiff.AndersenWaveDiff.MergeNodeToRep | SVF-devel/lib/WPA/Andersen.cpp:426-449 | Merges a node of a cycle into another: sets united, propagated sets intersected, edges moved and loops dropped |
| AndersenWaveDiff.AndersenWaveDiff.MergeSccNodes | SVF-devel/lib/WPA/Andersen.cpp:291-301 | Merges all nodes of a cycle into its representative, one after the other, and nothing else |
| AndersenWaveDiff.AndersenWaveDiff.ProcessAddr | SVF-devel/lib/WPA/Andersen.cpp:129-136 | An address constraint puts its object into its variable |
| AndersenWaveDiff.AndersenWaveDiff.Finished | SVF-devel/include/WPA/Andersen.h:183-185 | In any interleaving of the operations: when nothing is left to do the answers are the least solution |
| WaveSolve.MergeDoneIff | SVF-devel/lib/WPA/Andersen.cpp:426-449 | Merging two nodes leaves the loads and stores of the merged node done exactly if those of either node have edges also for the objects that only the other had |
| WaveSolve.MergeQueuedIff | SVF-devel/lib/WPA/Andersen.cpp:426-449 | Merging does not queue the merged node. So every node is queued or done after it exactly if one of the two was queued, or their loads and stores were done across |
| WaveSolve.MergeDoneElsewhere | SVF-devel/lib/WPA/Andersen.cpp:426-449 | Merging leaves the loads and stores of all other nodes done |
| WaveSolve.OverlookedStays | SVF-devel/include/WPA/WPASolver.h:107-110 | A node that was neither queued nor done after merging is not done at the end of a round that adds no edge |
| WaveSolve.TrackedTurn | SVF-devel/include/WPA/WPASolver.h:107-110 | Taking a node from the work list and resolving it leaves every other node queued or done, but for those overlooked at the merge |
| WaveSolve.MissingShrinks | SVF-devel/include/WPA/WPASolver.h:107-110 | Whenever something is queued, a finite set of pairs that no points-to set has yet gets smaller |
| WaveSolve.UncoveredShrinks | SVF-devel/include/WPA/Andersen.h:101-119 | A round that adds an edge takes away from the finitely many pairs of nodes that neither edge nor merge connects |
| WaveOrder.MergedOrdered | SVF-devel/lib/WPA/Andersen.cpp:257-285 | When all components are merged, the detector's stack, made for the graph before, is a topological order of the graph now |
| WaveOrder.MayMerge | SVF-devel/lib/WPA/Andersen.cpp:257-285 | Whatever components were merged before, the nodes of the next one stand for themselves and still reach each other |
| WaveOrder.PassSettles | SVF-devel/include/WPA/WPASolver.h:96-102 | In topological order, passing on the difference of a node makes it empty and makes no earlier one non-empty |
| WaveOrder.NonEmptyStayQueued | SVF-devel/lib/WPA/Andersen.cpp:257-285 | If all nodes with objects are queued they are so after any merging |
| WaveRounds.ReadyIff | SVF-devel/include/WPA/WPASolver.h:89-112 | Whether every node is queued or done after merging can be told before: of each cycle of copies some node is queued, or for every load and store through a node of it, and every object that a node of it has, the two ends are on one cycle or an edge joins their cycles |
| WaveRounds.JoinedIff | SVF-devel/lib/WPA/Andersen.cpp:257-285 | Two nodes are one or have an edge after merging exactly if they are on one cycle before, or an edge joins their cycles |
| WaveFlow.FlowPtsAre | SVF-devel/include/WPA/WPASolver.h:96-102 | After merging and the pass a node has exactly what some node has from which it was reached before |
| WaveLeast.AddsNoneIff | SVF-devel/include/WPA/WPASolver.h:89-112 | A round adds no edge exactly if loads and stores of every cycle that is queued, or gets something in the pass, have their edges for all that it then has: a condition on the state before the round |
| WaveLeast.RestIff | SVF-devel/include/WPA/WPASolver.h:89-112 | A round that adds no edge ends at rest exactly if of every cycle some node is queued, or its loads and stores are done: a condition on the state before the round |
| WaveLeast.LeastIff | SVF-devel/include/WPA/WPASolver.h:89-112 | A round that adds no edge ends with the least solution exactly if, of every cycle, some node is queued, or what flows to the one end of each edge it calls for flows to the other: a condition on the state before the round |
| WaveCalled.ResolvingTraced | SVF-devel/lib/WPA/AndersenWaveDiff.cpp:80-121 | Edges added for loads and stores follow copies that the constraints call for in every solution |
| WaveCalled.MergeTraced | SVF-devel/lib/WPA/Andersen.cpp:426-449 | What has been merged lies on a cycle of copies that the constraints call for in every solution |
| WaveCalled.NothingMergedLater | SVF-devel/include/WPA/Andersen.h:101-119 | If called copies close no cycle that the given ones do not close, no round after the first merges anything |
| WaveRuns.ApartIsDone | SVF-devel/include/WPA/Andersen.h:101-119 | At the end of each round of a run that starts with everything queued that has something, every node with which no round after the first has merged another has all its loads and stores done, whatever was merged elsewhere |
| WaveRuns.RoundApart | SVF-devel/include/WPA/WPASolver.h:89-112 | A round leaves a node done that was queued or done and with which it merges no other |
| WaveRuns.ConnectApart | SVF-devel/lib/WPA/AndersenWaveDiff.cpp:126-144 | A node that was done is queued or done after calls have been connected |
| WaveRuns.DoneApart | SVF-devel/lib/WPA/Andersen.cpp:257-285 | Whatever else is merged, a node with which nothing is merged stays done |
| WaveRuns.FirstMerges | SVF-devel/include/WPA/Andersen.h:101-119 | The first round of a run merges exactly the cycles of copies at its start, and what it has merged stays merged |
| WaveSolve.WokenTurn | SVF-devel/include/WPA/WPASolver.h:107-110 | Resolving the first queued node adds edges only for a node that was queued or has grown |
| WaveOverlooks.RunsOverlook | SVF-devel/lib/WPA/Andersen.cpp:426-449 | On eight nodes with four addresses, one copy and three loads, from the state the solver is made with and in whatever order it works: the first round adds edges, and the second merges a cycle, adds none, and ends with answers that are not a solution |
| WaveOverlooks.RunOverlooks | SVF-devel/include/WPA/Andersen.h:92-124 | The analysis of these constraints by its own methods, step by step: it ends after two rounds without a solution |
| AndersenWaveDiff.AndersenWaveDiff.MergeSccCycle | SVF-devel/lib/WPA/Andersen.cpp:257-285 | From the top of the stack down every component found is merged into its representative, and no other node; the stack is restored |
| AndersenWaveDiff.AndersenWaveDiff.SccDetect | SVF-devel/lib/WPA/Andersen.cpp:383-401 | Two nodes have become one exactly if they were on a cycle of copies, and the stack is a topological order of all representatives in the merged graph |
| AndersenWaveDiff.AndersenWaveDiff.PassDown | SVF-devel/include/WPA/WPASolver.h:96-102 | The pass over the stack ends with every difference empty, having queued exactly what has grown |
| AndersenWaveDiff.AndersenWaveDiff.PostProcessNode | SVF-devel/lib/WPA/AndersenWave.cpp:76-97 | All loads and stores through the node are resolved for all it had at the start, and no others; true exactly if the graph got an edge |
| AndersenWaveDiff.AndersenWaveDiff.Solve | SVF-devel/include/WPA/WPASolver.h:89-112 | A round terminates with an empty list. It adds edges only for loads and stores through nodes that were queued or have grown, and objects only along new edges. Exactly from the graph and the work list before it, it can be told whether it adds an edge, and if it adds none whether it ends at rest, and whether it ends with the least solution |
| AndersenWaveDiff.AndersenWaveDiff.SolveUntilStable | SVF-devel/include/WPA/Andersen.h:100-119 | The run is a chain of rounds and nothing else: each starts from exactly the state and the work list that connecting the calls found after the round before leaves, and there is another exactly if a round has added an edge or a call was found. It terminates, with all calls connected. It ends with the least solution exactly if what the last round overlooked is harmless. Given that all nodes with objects were queued at first, every node that has stood for the same nodes since the merging of the first round is done at the end |
| AndersenWaveDiff.AndersenWaveDiff.ProcessAllAddr | SVF-devel/lib/WPA/Andersen.cpp:116-124 | All address constraints are taken up, nothing else happens, and all nodes with objects are queued |
| AndersenWaveDiff.AndersenWaveDiff.Analyze | SVF-devel/include/WPA/Andersen.h:92-124 | The whole analysis takes up the address constraints, and is then such a chain of rounds. It terminates. It ends with the least solution of constraints and calls exactly if what the last round overlooked is harmless, as can be told from the state before that round; and for certain if in some solution the copies that loads, stores and calls call for close no cycle that the given copies do not close. In any case no node is overlooked that has stood for the same nodes since the merging of the first round |
| Contexts.BoundedIsSuffix | SVF-devel/include/Util/DPItem.h:205-235 | For every limit and every sequence of pushes and matches, the bounded context is a suffix of the unbounded stack, no longer than the limit |
| Contexts.PushKeepsWhatFits | SVF-devel/include/Util/DPItem.h:205-222 | After a push the bounded context is as long as the limit allows: its length is the smaller of the limit and one more than before, and its sites are the last ones pushed |
| Contexts.MatchTakesTop | SVF-devel/include/Util/DPItem.h:225-235 | A context that is not empty matches a site exactly if the unbounded stack does, and then both lose their top; one that is empty matches every site and stays empty |
| Contexts.PushThenMatch | SVF-devel/include/Util/DPItem.h:205-235 | Leaving a callee for the site it was entered from always matches and restores the stack; the bounded context lacks the oldest site if it was full |
| Contexts.BoundedAcceptsMore | SVF-devel/include/Util/DPItem.h:225-235 | For every limit, the bounded context accepts every sequence that the unbounded stack accepts |
| Contexts.ConcreteIffWithin | SVF-devel/include/Util/DPItem.h:205-222 | With a limit of at least one, the context is concrete exactly if the stack never outgrew the limit, and then it is the stack |
| Contexts.ConcreteAcceptsSame | SVF-devel/include/Util/DPItem.h:225-235 | While it is concrete, it accepts exactly what the unbounded stack accepts |
| Contexts.ZeroLimitStaysConcrete | SVF-devel/include/Util/DPItem.h:205-222 | With a limit of zero the context stays empty and accepts everything, and is still called concrete |
| Contexts.ContextCond.PushContext | SVF-devel/include/Util/DPItem.h:205-222 | Pushes, dropping at the limit the oldest call site, and no other, and concreteness; true exactly if there was room |
| Contexts.ContextCond.MatchContext | SVF-devel/include/Util/DPItem.h:225-235 | Pops a matching call site; true also on an empty context |
| CflSolver.CFLSolver.ForwardTraverse | SVF-devel/include/SABER/CFLSolver.h:85-99 | From an item that reaches no cycle, stops with an empty work list, having processed exactly the reachable items |
| CflSolver.CFLSolver.BackwardTraverse | SVF-devel/include/SABER/CFLSolver.h:101-115 | The same against the edges: exactly the items that reach the start |
| CflSolver.CFLSolver.Turn | SVF-devel/include/SABER/CFLSolver.h:88-98 | One turn of the loop: the first item is processed and the items of its children are queued unless they are queued already |
| CflTraversal.EndsIffAcyclic | SVF-devel/include/SABER/CFLSolver.h:85-99 | The traversal ends exactly if no cycle can be reached from where it starts |
| CflTraversal.RoundWeight | SVF-devel/include/SABER/CFLSolver.h:88-98 | The number of paths from the queued items falls in each turn, although items may be processed again |
| CflTraversal.RoundInOrder | SVF-devel/include/SABER/CFLSolver.h:88-98 | The first item leaves the list and the items of its children come to its end in the order of the children, if none is there yet |
| CflTraversal.CycleNeverEnds | SVF-devel/include/SABER/CFLSolver.h:85-99 | If a cycle can be reached the work list never empties |
| CflTraversal.RoundOnTrack | SVF-devel/include/SABER/CFLSolver.h:88-98 | Each turn keeps this: only reachable items were queued, and children of processed items were processed or are queued |
| CflTraversal.TrackEnds | SVF-devel/include/SABER/CFLSolver.h:85-99 | When the list is empty exactly the reachable items have been processed |
| FindStores.Unflattener.Unflatten | llvm-kill-memory/source/FindStores.cpp:48-78 | On every finite operand graph, cyclic or not: numbers consecutively and once each only values that can be reached and had no number, the value itself first, and leaves no operand of them without. Whatever gets its number before an operand is reached from an operand before that one |
| FindStores.Unflattener.UnflattenTop | llvm-kill-memory/source/FindStores.cpp:48-78 | From what earlier calls left, exactly the values that can be reached are numbered too, by a bijection onto the next numbers; from an empty map, onto 1 to n |
| FindStores.NumbersTrans | llvm-kill-memory/source/FindStores.cpp:52-75 | Numbering in consecutive stretches is a bijection onto the whole stretch |
| FindStores.EarlierOperandFirst | llvm-kill-memory/source/FindStores.cpp:71-75 | Of two operands that get numbers, the earlier one gets the smaller, unless the later one is reached from an operand before both |
| FindStores.Dfs | llvm-kill-memory/source/FindStores.cpp:177-207 | Returns exactly the call-graph nodes that can be reached, on every finite graph |
| FindStores.SearchStep | llvm-kill-memory/source/FindStores.cpp:183-204 | One turn of the search keeps this: only reachable nodes, and children of visited nodes are visited or on the stack |
| Orders.LexTransitive | SVF-devel/include/Util/DPItem.h:239-241 | Comparing sequences element by element is transitive if the order on elements is a strict total one |
| Orders.LexTotal | SVF-devel/include/Util/DPItem.h:239-241 | Of two different sequences one is before the other |
| Orders.LexLessIff | SVF-devel/include/Util/DPItem.h:239-241 | A proper prefix comes first, and otherwise the sequence with the lesser element where the two first differ |
| PointsToOrder.CmpPts | SVF-devel/include/Util/AnalysisUtil.h:499-512 | The comparison loop computes the order by size and then by first difference |
| PointsToOrder.PtsLessTotal | SVF-devel/include/Util/AnalysisUtil.h:494-512 | The order on points-to sets is a strict total order |
| PointsToOrder.PtsLessIff | SVF-devel/include/Util/AnalysisUtil.h:494-512 | The smaller set comes first, and so every proper subset; of two sets of one size the one that has the smallest element they do not share |
| PointsToOrder.ContextLessTotal | SVF-devel/include/Util/DPItem.h:239-241 | Contexts, which are one kind of condition, are totally ordered: a proper prefix first, and otherwise the smaller site where they first differ |
| PointsToOrder.CondVarLessTotal | SVF-devel/include/MemoryModel/ConditionalPT.h:84-89 | For every type of condition with a strict total order, the order on variables under conditions is one, and goes by id first and then by condition |
| PointsToOrder.CondPtsLessTotal | SVF-devel/include/MemoryModel/ConditionalPT.h:533-569 | For every type of condition with a strict total order, the order on points-to sets under conditions is one |
| PointsToOrder.CondPtsLessIff | SVF-devel/include/MemoryModel/ConditionalPT.h:533-569 | The set with fewer entries comes first; of two with as many it is decided at the first condition where they differ: the one that alone has it comes first, or the one with the lesser set there |
| PointsToOrder.IncomparableIffEqual | SVF-devel/include/MemoryModel/ConditionalPT.h:348-361 | For every type of condition with a strict total order, two sets neither of which is before the other are exactly those that compare as equal |
| CondPointsTo.CondPointsToSet.Equals | SVF-devel/include/MemoryModel/ConditionalPT.h:348-361 | The loop over both entry lists answers whether the maps are the same |
| CondPointsTo.EqualIffSamePairs | SVF-devel/include/MemoryModel/ConditionalPT.h:348-361 | Equality is equality of the pairs exactly if the same conditions have entries |
| CondPointsTo.EntryWiseIffPairsWithin | SVF-devel/include/MemoryModel/ConditionalPT.h:386-405 | The subset test is inclusion of the pairs exactly if all conditions with entries have entries in the other |
| CondPointsTo.EmptyEntryDiffers | SVF-devel/include/MemoryModel/ConditionalPT.h:348-361 | Two sets without pairs, one with an entry and one without, are neither equal nor the one a subset of the other |
| CondPointsTo.IntersectionLeavesEntries | SVF-devel/include/MemoryModel/ConditionalPT.h:474-500 | An intersection that keeps its conditions leaves an entry with no objects for each under which the two share nothing |
| CondPointsTo.CondPointsToSet.Less | SVF-devel/include/MemoryModel/ConditionalPT.h:533-569 | The nested loops compute the order |
| CondPointsTo.CondPointsToSet.Aliased | SVF-devel/include/MemoryModel/ConditionalPT.h:366-383 | True exactly if the two share a (condition, object) pair |
| CondPointsTo.CondPointsToSet.Intersects | SVF-devel/include/MemoryModel/ConditionalPT.h:408-425 | True exactly if the two share a (condition, object) pair, so it always agrees with the aliasing test |
| CondPointsTo.CondPointsToSet.IsSubset | SVF-devel/include/MemoryModel/ConditionalPT.h:386-405 | True exactly if each entry, also one with no objects, has its condition in the other and is contained there |
| CondPointsTo.CondPointsToSet.UnionWith | SVF-devel/include/MemoryModel/ConditionalPT.h:511-523 | The pairs become the union; true exactly if the set of pairs changed; also for a set and itself |
| CondPointsTo.CondPointsToSet.IntersectWith | SVF-devel/include/MemoryModel/ConditionalPT.h:474-500 | The pairs become the intersection, with the conditions kept unless one of the two has no pairs; true exactly if the set of pairs changed; also for a set and itself |
| CondPointsTo.CondPointsToSet.NumElement | SVF-devel/include/MemoryModel/ConditionalPT.h:321-331 | How many pairs of a condition and an object there are; so zero exactly if there are none |
| TypeSets.TypeSet.Intersect | SVF-devel/include/MemoryModel/PTAType.h:124-150 | The walk along both sets, with its shortcuts, answers exactly whether they share a type |
| TypeSets.SkipFirst | SVF-devel/include/MemoryModel/PTAType.h:141-148 | Going past the smaller of two first elements loses no common element |
| TypeSets.Apart | SVF-devel/include/MemoryModel/PTAType.h:138-139 | If the largest of one is before the smallest of the other they share nothing |

## Left out

- The width of the counter `_I`, of `ref_num` and of ids: they are unbounded here.
- `operator[]` making empty entries where the detector and the type maps read: reading gives the default.
- `AndersenWaveDiff.AndersenWaveDiff.Analyze`: the condition on the constraints is sufficient and not exact. There is no exact one on the constraints alone, as for some of them the order decides: let 3 point to 7, 7 to 5, 5 to 6 and 8 to 1; 0 be copied to 1; 3 be loaded into 1, 8 into 0 and 0 into 2. If 3 is taken from the list before 8, then 5 is at 1 when 1 gets its edge to 0, and 0 is queued; if 8 is, the second round merges 0 and 1 and neither is queued. The exact condition is on the state before the last round.
- `FsSolver.Solver.Propagate`: the transfer of a node is abstract; its concrete processing is in FlowSensitive for the kinds of nodes listed there.
- `FlowSensitive.FlowSensitive.ProcessNode`: no gep, phi, parameter and return nodes.
- `FlowSensitive.FlowSensitive.PropAlongIndirectEdge`: an object whose fields are not told apart brings no others.
- `FlowSensitive.FlowSensitive.ConnectEdge`: as above; edges to phi nodes, which only queue their target, are left out.
- `FlowSensitive.FlowSensitive.Solve`: with strong updates processing is not monotone and the result depends on the order of turns, so no least result is stated: what is stated is the chain of turns, that nothing is left to do, and the bound by weak updates. One run; the runs after calls have been connected start from what `ConnectEdge` leaves.
- `FlowSensitive.FlowSensitive.ProcessLoad`: no fields of objects whose fields are not told apart; goes through the targets the pointer has when the load starts; the original iterates over the live set, which can be the one it is adding to if a variable is loaded through itself.
- `AndersenWaveDiff.AndersenWaveDiff.HandleCopyGep`: no gep edges, and so nowhere in the constraint graph the collapsing of fields.
- `AndersenWaveDiff.AndersenWaveDiff.UpdateCallGraph`: no limit on the number of indirect calls.
- `AndersenWaveDiff.AndersenWaveDiff.MergeNodeToRep`: no gep edges and no marking of cycles with them; redirects all that the node stood for in one assignment, where the original walks over its sub-nodes, for a whole batch of merges after the batch; the sub-node map is not modelled.
- Retargeted load and store edges get a new cache in the original; here the cache goes with the pair of ends.
- `FilterUses` reads use lists as they are when the pass starts; loads that the pass inserts are not looked for.
- Values that are poison or of floating-point type in the inserted comparison, loads of uninitialised memory, types and alignment.
- `InstrumentPass.CheckInstrumentPass.InstrumentStoreInstruction`: blocks are a map from ids, so their order in the function is not modelled; the type of an existing `call_kill` is that of two integers.
- What path conditions are: they compare by address, and their guards are computed by a library that is not part of this model. Orders and sets under conditions are for any type of condition.
- `CflSolver.CFLSolver.ForwardTraverse`: for starts that reach a cycle there is no result to state; CflTraversal.EndsIffAcyclic says it does not end.
- `CflSolver.CFLSolver.BackwardTraverse`: the same for starts that a cycle reaches.
- `TypeSets.TypeSet.Intersect`: with an empty set and one of other than one element the original moves an iterator before the beginning; excluded.
- `TypeSystem`, whose two maps are updated one entry at a time.
- `List::push`, which never records what it pushes; `CondStdSet::operator&=`, which removes nothing; the two-argument `intersectWithComplement`, which keeps old conditions of the receiver; `CondPtsSetIterator::operator++`.
- `VFPathCond::addPath`, branch guards, decision diagrams.
- The mutt and leafpad finders, per-application function lists, debug output, statistics, pass registration, and type queries of LLVM.
- What `unflatten` prints.
