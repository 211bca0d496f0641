# Blocking event query reproducers, modelled in Dafny

Two C programs drive the Level Zero API to reproduce a slow or blocking
`zeEventQueryStatus`:

- **test_blocking_event_query.c** does three things. It creates events 1..499 in one 1000-slot pool. It then appends a large dependency graph to a single immediate command list, in four passes:
  - phased local chains;
  - stride-10 cross-links;
  - stride-50 timing chains;
  - a hub of barriers around event 250.

  Finally it queries events 250, 249 and 251 three times each, and sorts the first duration of each into a latency band.
- **ze_trace_replica.c** creates twelve events and replays a fixed trace of eleven appends on two immediate lists. It then times one `zeEventQueryStatus` on the event of the first barrier and reports the query as critical when it takes more than 100 µs.

The model records what the programs submit. An append becomes a `Command`, which holds:

- its kind;
- its list;
- the event it signals;
- the events it waits on.

A run becomes its command log. Events are named by their index in `events[]`, which is also their pool slot.

Each loop of the graph builder is a method proved to append exactly the sequence a specification function defines. The lemmas prove these properties of those sequences:

- every index touched is a created event;
- the phase windows sweep [1, 401) once, in order;
- cross-links point forward;
- the target never waits on itself;
- every wait is on an event that an earlier command signals.

For the trace replay, the model checks the source's own claims: no event is reused, and there is no circular dependency. Beyond the comments, it also shows that event 2 is never used. The two microsecond clocks are modelled with C's truncating division. Their readings are parameters.

Modules:

- `Commands` (commands.dfy): the shared record model. It also holds the generic facts about grounded logs (every wait signalled earlier), acyclicity, and event creation.
- `Clock` (clock.dfy): `get_time_microseconds` and `get_time_us`.
- `BlockingGraph` (blocking_graph.dfy): the four passes as functions of their loop variables, and their properties.
- `BlockingEventQuery` (blocking_event_query.dfy): the event-creation loop, the builder's loops, and the probe.
- `TraceReplica` (trace_replica.dfy): ze_trace_replica.c.

## Model

| member | source | states |
|---|---|---|
| Commands.CreateEvent | test_blocking_event_query.c:205-206 | with the pool as the only modelled cause of failure, creation succeeds exactly when the slot lies inside the pool, giving an event at that slot, unsignalled after the reset |
| Commands.CreateEvents | test_blocking_event_query.c:197-207 | the creation loop fills every slot of [lo, hi) with a fresh unsignalled event at that slot and touches nothing else; it fails if the pool is too small (the only failure modelled) |
| Commands.GroundedConcat | test_blocking_event_query.c:214-282 | a log whose waits are all signalled earlier stays so when a suffix that waits only on ready events or the prefix's signals is appended |
| Commands.GroundedStages | test_blocking_event_query.c:215-282 | four passes run in order are grounded when the first is and signals everything the later ones wait on from outside themselves |
| Commands.EdgeGoesForward | ze_trace_replica.c:302 | in a grounded log without event reuse, the producer of a waited-on event comes strictly before the producer of the waiting command's event |
| Commands.NoCircularDependency | ze_trace_replica.c:302 | in a grounded log without event reuse, no walk along dependency edges returns to its start |
| Clock.TruncDiv | test_blocking_event_query.c:22 | C's integer division: the remainder has the dividend's sign and is smaller than the divisor |
| Clock.MicrosFromTimespec | test_blocking_event_query.c:19-23 | for a normalised reading, the count's seconds part is the reading's seconds and its sub-second part is the nanoseconds truncated to microseconds |
| Clock.MicrosFromTimeval | ze_trace_replica.c:21-25 | for a normalised reading, the count splits back into the reading's seconds and microseconds |
| Clock.TimevalRoundTrip | ze_trace_replica.c:24 | the `struct timeval` conversion and the split of a count into a normalised reading are inverse to each other |
| Clock.TimevalStrictlyIncreasing | ze_trace_replica.c:24 | for normalised readings, a lexicographically later reading gives a strictly larger count, and conversely |
| Clock.AddMicros | ze_trace_replica.c:317 | moving a reading on by d microseconds gives a normalised reading whose count is d larger |
| Clock.LaterByMoreThan | ze_trace_replica.c:317-319 | the difference of two counts exceeds d exactly when the later reading comes after the earlier one moved on by d |
| Clock.TimespecAsTimeval | test_blocking_event_query.c:22 | the nanosecond conversion equals the microsecond conversion of the reading truncated to whole microseconds |
| Clock.TimespecMonotone | test_blocking_event_query.c:22 | the nanosecond conversion never goes backwards, and increases exactly when the seconds or whole microseconds do |
| Clock.TimespecNotInjective | test_blocking_event_query.c:22 | two different readings within the same microsecond give the same count |
| Clock.ConversionsFitLong | test_blocking_event_query.c:22 | both conversions of normalised readings before about 292 000 years fit a 64-bit `long` |
| BlockingGraph.WindowsConsecutive | test_blocking_event_query.c:215-218 | phase 0 starts at 1, each phase window ends where the next starts, phase 9 ends at 401 |
| BlockingGraph.EachIndexInOneWindow | test_blocking_event_query.c:215-218 | every index in [1, 401) lies in exactly one phase window, that of phase (i - 1) / 40 |
| BlockingGraph.PhaseRangeSplit | test_blocking_event_query.c:218 | the inner phase loop over [a, c) appends what it appends over [a, b) followed by [b, c) |
| BlockingGraph.PhasesSweep | test_blocking_event_query.c:215-241 | the first n phases append the same commands as one sweep over [1, 1 + 40 n) |
| BlockingGraph.PhasePassIsOneSweep | test_blocking_event_query.c:215-241 | the phase pass processes every i in [1, 401) exactly once, in increasing order |
| BlockingGraph.PhaseSweepHasCycle | test_blocking_event_query.c:218-230 | the event graph of a phase sweep is not acyclic: blocks i, i + 4 and i + 5 close the walk i + 5 -> i + 6 -> ... -> i + 11 -> i + 5; in the phase pass, the sweep over [1, 401), i = 1 gives 6 -> 7 -> ... -> 12 -> 6 |
| BlockingGraph.PhaseRangeUnguarded | test_blocking_event_query.c:219 | for every index of a range below MAX_EVENTS - 10, the guard `i + 10 < MAX_EVENTS` holds and the iteration appends its whole block |
| BlockingGraph.PhaseStepShape | test_blocking_event_query.c:219-238 | one phase iteration touches only indices in [1, 500) and never waits on its own event |
| BlockingGraph.PhasePassWithin | test_blocking_event_query.c:215-241 | the phase pass touches only indices in [1, 500), and no command of it waits on its own event |
| BlockingGraph.CrossInnerShape | test_blocking_event_query.c:246-250 | every link of the inner loop at i is a barrier waiting on i alone and signalling i + 10, i + 20, i + 30 or i + 40 below 500 |
| BlockingGraph.CrossLinksShape | test_blocking_event_query.c:245-251 | after t outer iterations (i = 50 + 10 t) only such cross-links have been appended |
| BlockingGraph.CrossLinksPointForward | test_blocking_event_query.c:245-251 | every cross-link waits on one event and signals one at a strictly higher index, both in [50, 500) |
| BlockingGraph.TimingChainShape | test_blocking_event_query.c:261-265 | every chain barrier touches only indices in [110, 500) and never waits on its own event |
| BlockingGraph.TimingBlockShape | test_blocking_event_query.c:256-265 | one timing iteration touches only indices in [110, 500) |
| BlockingGraph.TimingShape | test_blocking_event_query.c:255-266 | after t timing iterations (i = 100 + 50 t) only such commands have been appended |
| BlockingGraph.TimingPassWithin | test_blocking_event_query.c:255-266 | the timing pass touches only indices in [110, 500), and no command of it waits on its own event |
| BlockingGraph.HubStepShape | test_blocking_event_query.c:273-281 | one hub iteration appends only barriers waiting on i, which is not the target, into the target or into i + 1 |
| BlockingGraph.HubShape | test_blocking_event_query.c:272-282 | every hub iteration so far appended only such barriers |
| BlockingGraph.HubPassShape | test_blocking_event_query.c:272-282 | the hub pass waits only on [200, 300) minus the target: the target never waits on itself and no hub command waits on the target |
| BlockingGraph.HubStepContents | test_blocking_event_query.c:275-279 | for every i of the window but the target, its iteration appends the barrier into the target and the one into i + 1 |
| BlockingGraph.HubCoversWindow | test_blocking_event_query.c:272-282 | every index of the window below i, but the target, has both barriers in the hub iterations below i |
| BlockingGraph.HubLinksInGraph | test_blocking_event_query.c:272-282 | every index of [200, 300) but the target has a barrier into the target, and one into its successor, in the submitted graph |
| BlockingGraph.HubLinksIntoTarget | test_blocking_event_query.c:272-282 | every index of [200, 300) but the target has a barrier into the target in the submitted graph |
| BlockingGraph.GraphLogWithin | test_blocking_event_query.c:197-282 | the whole graph touches only created events, [1, 500), never index 0; no command waits on its own event |
| BlockingGraph.PhaseBlockGrounded | test_blocking_event_query.c:223-238 | within one phase block every wait but the two back-references is signalled earlier in the block, and the block signals i |
| BlockingGraph.PhaseRangeGrounded | test_blocking_event_query.c:218-240 | the sweep over [1, hi) waits only on earlier signals and signals every index it processes |
| BlockingGraph.CrossInnerWaits | test_blocking_event_query.c:248 | every command of the inner cross-link loop waits on i alone |
| BlockingGraph.CrossInnerGrounded | test_blocking_event_query.c:246-250 | the inner loop waits only on i, and its first link makes i + 10 wait on i |
| BlockingGraph.CrossLinksGroundedStep | test_blocking_event_query.c:245-251 | one more outer iteration keeps the cross-link prefix grounded and signals the next loop index |
| BlockingGraph.CrossLinksGrounded | test_blocking_event_query.c:245-251 | after [1, 401) is signalled, the cross-link iterations below i wait only on signalled events or on links of the iteration ten below |
| BlockingGraph.TimingChainGroundedStep | test_blocking_event_query.c:261-265 | one more chain link keeps the chain grounded and extends the range it signals by one |
| BlockingGraph.TimingChainGrounded | test_blocking_event_query.c:261-265 | each chain barrier waits on i + 19 or on the previous link's event; the first k links signal [i + 20, i + 20 + k) |
| BlockingGraph.TimingBlockGrounded | test_blocking_event_query.c:256-265 | one timing iteration waits on nothing from outside but i + 19 |
| BlockingGraph.TimingGrounded | test_blocking_event_query.c:255-266 | the timing iterations below i wait only on events signalled before the pass or within it |
| BlockingGraph.HubGrounded | test_blocking_event_query.c:272-282 | after [1, 401) is signalled, every wait of the hub pass is on an already signalled event |
| BlockingGraph.PhasePassGrounded | test_blocking_event_query.c:215-241 | the phase pass is grounded and signals every index in [1, 401) |
| BlockingGraph.CrossLinkPassGrounded | test_blocking_event_query.c:243-251 | the cross-link pass waits only on events signalled before it or by its own earlier links |
| BlockingGraph.TimingPassGrounded | test_blocking_event_query.c:253-266 | the timing pass waits only on events signalled before it or by its own earlier commands |
| BlockingGraph.GraphLogGrounded | test_blocking_event_query.c:214-282 | no command of the graph waits on an event that no earlier command signals |
| BlockingEventQuery.CreateGraphEvents | test_blocking_event_query.c:193-207 | `events[1..500)` are created at their own pool slots, `events[0]` is left uncreated, and creation fails if the pool is smaller than 500 (the only failure modelled) |
| BlockingEventQuery.GraphPoolSuffices | test_blocking_event_query.c:167-207 | with the 1000-slot pool every creation of `events[1..500)` succeeds and yields an unsignalled event at its own slot |
| BlockingEventQuery.PhaseStepCommands | test_blocking_event_query.c:219-239 | one phase iteration appends exactly the guarded block of up to eight commands |
| BlockingEventQuery.PhaseWindowCommands | test_blocking_event_query.c:218-240 | the inner phase loop appends the iterations of its window, in order |
| BlockingEventQuery.PhaseCommands | test_blocking_event_query.c:215-241 | the phase pass appends the ten windows in order |
| BlockingEventQuery.CrossInnerCommands | test_blocking_event_query.c:246-250 | the inner cross-link loop appends its guarded links for j = 1 .. 4 |
| BlockingEventQuery.CrossLinkCommands | test_blocking_event_query.c:245-251 | the cross-link pass appends the iterations i = 50, 60, ..., 440 in order |
| BlockingEventQuery.TimingBlockCommands | test_blocking_event_query.c:256-265 | one timing iteration appends the timestamp, the copy and the guarded chain |
| BlockingEventQuery.TimingCommands | test_blocking_event_query.c:255-266 | the timing pass appends the iterations i = 100, 150, ..., 350 in order |
| BlockingEventQuery.HubStepCommands | test_blocking_event_query.c:273-281 | one hub iteration appends its guarded barriers |
| BlockingEventQuery.HubCommands | test_blocking_event_query.c:272-282 | the hub pass appends the iterations over [200, 300) in order |
| BlockingEventQuery.BuildDependencyGraph | test_blocking_event_query.c:214-282 | the builder appends the four passes in program order; what it submits touches only created events, never waits on its own event and never waits on an event no earlier command signals |
| BlockingEventQuery.Classify | test_blocking_event_query.c:308-315 | each duration falls in exactly one band: over 1000 µs blocking, over 100 up to 1000 a slowdown, otherwise fast |
| BlockingEventQuery.ClassifyMonotone | test_blocking_event_query.c:308-315 | a longer duration never falls into a less severe band |
| BlockingEventQuery.ProbeTargets | test_blocking_event_query.c:290 | the probe targets are the target, then its lower, then its upper neighbour, all created events inside the hub window |
| BlockingEventQuery.QueryNumbering | test_blocking_event_query.c:292-296 | the running query number decomposes into the event index and the query number |
| BlockingEventQuery.ProbeDurationNonNegative | test_blocking_event_query.c:298-301 | with `CLOCK_MONOTONIC` readings that do not go backwards, the duration of each query is non-negative |
| BlockingEventQuery.Probe | test_blocking_event_query.c:290-318 | nine queries, three per target in order; each duration is the difference of its two clock readings; exactly the first query of each target is classified, by its duration |
| BlockingEventQuery.ProbeTargetsInHub | test_blocking_event_query.c:269-290 | every index of the hub window but the target, the two probed neighbours included, has a barrier into the target in the submitted graph |
| TraceReplica.CreateReplicaEvents | ze_trace_replica.c:152-160 | `events[0..12)` are created at their own pool slots, unsignalled; creation fails if the pool is smaller than 12 (the only failure modelled) |
| TraceReplica.ReplicaPoolSuffices | ze_trace_replica.c:137-160 | with the 1000-slot pool every one of the twelve creations succeeds |
| TraceReplica.ReplayTrace | ze_trace_replica.c:164-306 | the replay appends the eleven commands of the trace in order, and the host waits on events 0 and 6 after the first and the sixth append |
| TraceReplica.TraceShape | ze_trace_replica.c:166-306 | eleven commands over events [0, 12) on the two lists, each waiting on at most one event, never on its own, and never touching event 2 |
| TraceReplica.TraceUniqueSignals | ze_trace_replica.c:152 | no event is signalled by two commands |
| TraceReplica.TraceGrounded | ze_trace_replica.c:233-306 | every command waits only on an event an earlier command signals |
| TraceReplica.TraceAcyclic | ze_trace_replica.c:302-306 | no walk along the trace's dependency edges returns to where it started |
| TraceReplica.QueriedEventProducer | ze_trace_replica.c:237-313 | the queried `events[1]` is signalled by exactly one command, barrier 1 on list 2, which waits on `events[4]` |
| TraceReplica.HostWaitsSignalled | ze_trace_replica.c:166-256 | each event the host synchronises on is signalled by a command appended before the wait |
| TraceReplica.ReportQuery | ze_trace_replica.c:311-325 | the elapsed time is the difference of the two readings; the query is critical exactly when that exceeds 100 µs; the exit code is 1 when the status is not success and 0 otherwise |
| TraceReplica.CriticalMeansLate | ze_trace_replica.c:316-323 | for normalised readings, critical means the end reading comes after the start moved on by 100 µs; the verdict is the same for every status, and the exit code is the same for every pair of readings |
| TraceReplica.ElapsedNonNegative | ze_trace_replica.c:316-317 | readings that do not go backwards give a non-negative elapsed time |

## Left out

- Commands.CreateEvent: the driver's event creation is replaced by a stand-in that fails only when the slot is at or beyond the pool's capacity. The programs exit on any non-success from `zeEventCreate` or `zeEventHostReset` (test_blocking_event_query.c:205-206, ze_trace_replica.c:155-159); other driver errors are not modelled. The "exactly when" in the creation contracts is a property of the stand-in, not of the program.
- reproducer.c is not part of this model. It only discovers the driver and device and creates a context and a queue.
- The Level Zero bootstrap is not modelled, because these are foreign library calls whose results the model cannot see:
  - driver and device discovery;
  - context, queue and command-list creation;
  - memory allocation;
  - the copy-queue selection.
- What the device does with the commands is not modelled, and neither is the status `zeEventQueryStatus` returns. The model records the log of appends and never simulates signalling. The status is a parameter of `TraceReplica.ReportQuery`.
- `clock_gettime` and `gettimeofday` are not modelled; their readings are parameters. `BlockingEventQuery.Probe` takes the eighteen clock readings of the nine queries.
- The `zeDeviceGetGlobalTimestamps` calls (test_blocking_event_query.c:220, :256; ze_trace_replica.c:224, :290) are dropped. Their readings are never used, and they append nothing to the log.
- The memset prologue of test_blocking_event_query.c:172-188 is outside the graph log. It creates the separate `memsetEvent` at pool slot 0, fills memory, then synchronises. The graph builder never touches that slot.
- zeCommandQueueSynchronize calls are not modelled. They wait on queues, not events.
- The SIGALRM watchdog of ze_trace_replica.c:16-19 and :31-32 is left out. It is signal handling and process termination.
- SPIR-V loading, module and kernel creation and the kernel arguments (ze_trace_replica.c:176-220, :245-282) are left out. They are file I/O and driver calls; only the two launches appear in the log.
- All `printf` output is left out, including the floating-point millisecond values.
- The cleanup and destroy calls are left out.
- BlockingEventQuery.BuildDependencyGraph: describes only the run in which every call succeeds. Each append and each `zeDeviceGetGlobalTimestamps` call is checked (test_blocking_event_query.c:10-17, used at :220-237, :248, :256-263, :275-279). Any failure exits with code 1 after only part of the log has been appended. The model always appends every command.
- TraceReplica.ReplayTrace: describes only the run in which every call succeeds. Each append, `zeDeviceGetGlobalTimestamps` and `zeEventHostSynchronize` call is checked (ze_trace_replica.c:9-13, used at :167, :171, :229-307, :257). Any failure exits with code 1 after part of the log. The model always records all eleven commands and both host waits.
- Clock.ConversionsFitLong: 64-bit `long` overflow is only bounded, for readings before about 292 000 years; beyond that the model's unbounded integers do not wrap as C's would.
- BlockingEventQuery.Probe: requires exactly the eighteen readings its nine queries take, because the readings are inputs rather than calls.
- Event handles are indices. Aliasing between handles cannot arise in the programs and is not modelled.

### Behaviour worth noting

- A duration of exactly 100 µs is fast: the slowdown band starts strictly above 100 (test_blocking_event_query.c:311).
- Only the first of the three queries of each event is classified (test_blocking_event_query.c:308). The other two only report their duration.
- The nanosecond clock is non-decreasing but not strictly increasing: readings within one microsecond coincide (`Clock.TimespecNotInjective`).
- The hub pass skips the target itself (test_blocking_event_query.c:273). The target therefore never waits on itself, and no hub barrier waits on the target.
- The builder's graph is not acyclic. Events here have several signallers: block i signals i + 5 to i + 9, and so do its neighbouring blocks. Its dependency edges also close cycles (`BlockingGraph.PhaseSweepHasCycle`). What the model proves of it is that it is grounded (`BlockingGraph.GraphLogGrounded`): every wait is on an event that an earlier command signals. `Commands.NoCircularDependency` is applied only to the trace replay, whose signals are unique.
