/**
  The imperative part of test_blocking_event_query.c: creating `events[1..500)`
  in the 1000-slot pool, the four nested loops that append the dependency
  graph to the one immediate command list, and the probe that queries the
  target and its two neighbours three times each and sorts the first
  duration of each into a latency band.

  Each loop is proved to append exactly the sequence BlockingGraph defines for
  it, so the properties proved there hold of what the program submits.
*/
module BlockingEventQuery {
  import opened Commands
  import opened BlockingGraph
  import opened Clock

  /** The pool of `zeEventPoolCreate(..., .count = 1000)`. */
  const EventPool: Pool := Pool(1000)

  // ---------------------------------------------------------------------------
  // Event creation

  /**
    `events[MAX_EVENTS]` filled for i = 1 .. 499 at pool slot i; `events[0]`
    is never created (`None`). `ok` is false when the pool is too small, in
    which case the program exits.
  */
  method CreateGraphEvents(pool: Pool) returns (events: array<Option<Event>>, ok: bool)
    ensures fresh(events) && events.Length == MaxEvents
    ensures ok <==> MaxEvents <= pool.capacity
    ensures events[0] == None
    ensures forall i :: 1 <= i < MaxEvents && i < pool.capacity ==> events[i] == Some(Event(i, false))
  {
    events := new Option<Event>[MaxEvents](_ => None);
    ok := CreateEvents(pool, events, 1, MaxEvents);
  }

  /** With the program's pool of 1000 slots, all of `events[1..500)` are created and unsignalled. */
  lemma {:induction false} GraphPoolSuffices()
    ensures MaxEvents <= EventPool.capacity
    ensures forall i :: 1 <= i < MaxEvents ==> CreateEvent(EventPool, i) == Some(Event(i, false))
  {
  }

  // ---------------------------------------------------------------------------
  // The graph builder

  // Each pass (and each inner loop) is a method returning the commands it
  // appends to `cmdList`; appending to the immediate list is concatenation.

  /** The body of the inner phase loop for index `i`. */
  method PhaseStepCommands(i: nat) returns (cmds: seq<Command>)
    ensures cmds == PhaseStep(i)
  {
    cmds := [];
    if i + 10 < MaxEvents {
      cmds := cmds + [TimestampCmd(i + 5)];
      cmds := cmds + [CopyCmd(i + 5, i + 6)];
      cmds := cmds + [BarrierCmd(i + 6, i)];
      cmds := cmds + [BarrierCmd(i + 6, i + 7)];
      cmds := cmds + [BarrierCmd(i + 7, i + 8)];
      cmds := cmds + [BarrierCmd(i + 8, i + 9)];
      assert cmds == PhaseBlock(i)[..6];
      if i > 10 {
        cmds := cmds + [BarrierCmd(i - 10, i)];
      }
      if i > 20 {
        cmds := cmds + [BarrierCmd(i - 20, i)];
      }
    }
  }

  /** The inner phase loop of phase `phase`: i over [1 + 40 p, min(MAX_EVENTS - 20, 1 + 40 (p + 1))). */
  method PhaseWindowCommands(phase: nat) returns (cmds: seq<Command>)
    ensures cmds == PhaseRange(WindowStart(phase), WindowEnd(phase))
  {
    var start := 1 + phase * 40;
    var bound := if MaxEvents - 20 < 1 + (phase + 1) * 40 then MaxEvents - 20 else 1 + (phase + 1) * 40;
    cmds := [];
    var i := start;
    while i < bound
      invariant start <= i && (i <= bound || i == start)
      invariant cmds == PhaseRange(start, i)
    {
      var next := i + 1;
      var step := PhaseStepCommands(i);
      PhaseRangeNext(start, i, next);
      cmds := cmds + step;
      i := next;
    }
  }

  /** Pass 1: the ten phases in order. */
  method PhaseCommands() returns (cmds: seq<Command>)
    ensures cmds == PhasePass()
  {
    cmds := [];
    var phase := 0;
    while phase < PhaseCount
      invariant 0 <= phase <= PhaseCount
      invariant cmds == Phases(phase)
    {
      var next := phase + 1;
      var window := PhaseWindowCommands(phase);
      PhasesNext(phase, next);
      cmds := cmds + window;
      phase := next;
    }
  }

  /** The inner cross-link loop: `events[i + 10 j]` waits on `events[i]` for j = 1 .. 4, when in range. */
  method CrossInnerCommands(i: nat) returns (cmds: seq<Command>)
    ensures cmds == CrossInner(i, 5)
  {
    cmds := [];
    var j := 1;
    while j < 5
      invariant 1 <= j <= 5
      invariant cmds == CrossInner(i, j)
    {
      var next := j + 1;
      CrossInnerNext(i, j, next);
      if i + j * 10 < MaxEvents {
        cmds := cmds + [BarrierCmd(i, i + j * 10)];
      }
      j := next;
    }
  }

  /** Pass 2: i = 50, 60, ... while i < MAX_EVENTS - 50. */
  method CrossLinkCommands() returns (cmds: seq<Command>)
    ensures cmds == CrossLinkPass()
  {
    cmds := [];
    var i := CrossStart;
    ghost var t := 0;
    while i < CrossEnd
      invariant t <= 40 && i == CrossStart + 10 * t
      invariant cmds == CrossLinksBefore(i)
    {
      var next := i + 10;
      var inner := CrossInnerCommands(i);
      CrossLinksNext(i, next);
      cmds := cmds + inner;
      i := next;
      t := t + 1;
    }
  }

  /** One timing iteration: timestamp into `events[i + 10]`, copy into `events[i + 20]`, then the guarded chain. */
  method TimingBlockCommands(i: nat) returns (cmds: seq<Command>)
    ensures cmds == TimingBlock(i)
  {
    cmds := [TimestampCmd(i + 10)];
    cmds := cmds + [CopyCmd(i + 10, i + 20)];
    var k := 0;
    while k < 5
      invariant 0 <= k <= 5
      invariant cmds == [TimestampCmd(i + 10), CopyCmd(i + 10, i + 20)] + TimingChain(i, k)
    {
      var next := k + 1;
      TimingChainNext(i, k, next);
      if i + 20 + k < MaxEvents {
        cmds := cmds + [BarrierCmd(i + 19 + k, i + 20 + k)];
      }
      k := next;
    }
  }

  /** Pass 3: i = 100, 150, ... while i < MAX_EVENTS - 100. */
  method TimingCommands() returns (cmds: seq<Command>)
    ensures cmds == TimingPass()
  {
    cmds := [];
    var i := TimingStart;
    ghost var t := 0;
    while i < TimingEnd
      invariant t <= 6 && i == TimingStart + 50 * t
      invariant cmds == TimingBefore(i)
    {
      var next := i + 50;
      var block := TimingBlockCommands(i);
      TimingBeforeNext(i, next);
      cmds := cmds + block;
      i := next;
      t := t + 1;
    }
    assert t == 6;
  }

  /** One hub iteration: the target waits on `events[i]`, then `events[i + 1]` does, all guarded. */
  method HubStepCommands(i: nat) returns (cmds: seq<Command>)
    ensures cmds == HubStep(i)
  {
    cmds := [];
    var targetEvent := TargetEvent;
    if i > 0 && i < MaxEvents - 1 && i != targetEvent {
      cmds := cmds + [BarrierCmd(i, targetEvent)];
      if i + 1 < MaxEvents {
        cmds := cmds + [BarrierCmd(i, i + 1)];
      }
    }
  }

  /** Pass 4: i over [targetEvent - 50, targetEvent + 50). */
  method HubCommands() returns (cmds: seq<Command>)
    ensures cmds == HubPass()
  {
    cmds := [];
    var i := TargetEvent - 50;
    while i < TargetEvent + 50
      invariant HubStart <= i <= HubEnd
      invariant cmds == HubBefore(i)
    {
      var next := i + 1;
      var step := HubStepCommands(i);
      HubBeforeNext(i, next);
      cmds := cmds + step;
      i := next;
    }
  }

  /**
    The four passes in program order. What it submits touches only created
    events, never makes a command wait on its own completion event, and never
    waits on an event no earlier command signals.
  */
  method BuildDependencyGraph() returns (log: seq<Command>)
    ensures log == GraphLog()
    ensures LogWithin(log, 1, MaxEvents) && NoSelfWait(log)
    ensures Grounded(log)
  {
    var phases := PhaseCommands();
    var crossLinks := CrossLinkCommands();
    var timing := TimingCommands();
    var hub := HubCommands();
    log := phases + crossLinks + timing + hub;
    GraphLogWithin();
    GraphLogGrounded();
  }

  // ---------------------------------------------------------------------------
  // Probe and classification

  /** The three latency bands of the analysis after the first query of an event. */
  datatype Band = Blocking | Slowdown | Fast

  /** Above 1000 µs is blocking, above 100 µs a slowdown, anything else fast. */
  function Classify(duration: int): (b: Band)
    ensures b == Blocking <==> duration > 1000
    ensures b == Slowdown <==> 100 < duration <= 1000
    ensures b == Fast <==> duration <= 100
  {
    if duration > 1000 then Blocking
    else if duration > 100 then Slowdown
    else Fast
  }

  /** Bands ordered by severity. */
  function Severity(b: Band): nat
  {
    match b
    case Fast => 0
    case Slowdown => 1
    case Blocking => 2
  }

  /** A longer query never falls in a less severe band. */
  lemma {:induction false} ClassifyMonotone(d1: int, d2: int)
    requires d1 <= d2
    ensures Severity(Classify(d1)) <= Severity(Classify(d2))
  {
  }

  /** The events probed, in order: the target, then its lower and upper neighbour. */
  function ProbeTargets(): (t: seq<nat>)
    ensures |t| == 3 && t[0] == TargetEvent && t[1] == TargetEvent - 1 && t[2] == TargetEvent + 1
    ensures forall e :: e in t ==> 1 <= e < MaxEvents && HubStart <= e < HubEnd
  {
    [TargetEvent, TargetEvent - 1, TargetEvent + 1]
  }

  /** One query of the probe: the event, which query of it (1 .. 3), the measured duration, and its band if analysed. */
  datatype ProbeLine = ProbeLine(event: nat, query: nat, duration: int, band: Option<Band>)

  /** Duration of query `k`: the clock read before it (`clock[2k]`) subtracted from the one after (`clock[2k + 1]`). */
  function QueryDuration(clock: seq<Timespec>, k: nat): int
    requires 2 * k + 1 < |clock|
  {
    MicrosFromTimespec(clock[2 * k + 1]) - MicrosFromTimespec(clock[2 * k])
  }

  /** With `CLOCK_MONOTONIC` readings that do not go backwards, every measured duration is non-negative. */
  lemma {:induction false} ProbeDurationNonNegative(clock: seq<Timespec>, k: nat)
    requires |clock| == 18 && k < 9
    requires ValidTimespec(clock[2 * k]) && ValidTimespec(clock[2 * k + 1])
    requires TimespecAtMost(clock[2 * k], clock[2 * k + 1])
    ensures QueryDuration(clock, k) >= 0
  {
    TimespecMonotone(clock[2 * k], clock[2 * k + 1]);
  }

  /** Query `k` of the probe, k = 3 * eventIdx + (queryNum - 1): what it queries, how long it took, and its band if analysed. */
  function ExpectedLine(clock: seq<Timespec>, k: nat): ProbeLine
    requires k < 9 && |clock| == 18
  {
    var duration := QueryDuration(clock, k);
    ProbeLine(ProbeTargets()[k / 3], k % 3 + 1, duration, if k % 3 == 0 then Some(Classify(duration)) else None)
  }

  lemma {:induction false} QueryNumbering(eventIdx: nat, queryNum: nat)
    requires eventIdx < 3 && 1 <= queryNum <= 3
    ensures (3 * eventIdx + queryNum - 1) / 3 == eventIdx
    ensures (3 * eventIdx + queryNum - 1) % 3 == queryNum - 1
  {
  }

  /**
    The probe loops: for each of the three targets, three queries, each timed
    by two clock readings; only the first query of each target is classified.
    The readings are the program's clock_gettime results, two per query.
  */
  method Probe(clock: seq<Timespec>) returns (lines: seq<ProbeLine>)
    requires |clock| == 18
    ensures |lines| == 9
    ensures forall k :: 0 <= k < 9 ==> lines[k].event == ProbeTargets()[k / 3] && lines[k].query == k % 3 + 1
    ensures forall k :: 0 <= k < 9 ==> lines[k].duration == QueryDuration(clock, k)
    ensures forall k :: 0 <= k < 9 ==> (lines[k].band.Some? <==> lines[k].query == 1)
    ensures forall k :: 0 <= k < 9 && lines[k].band.Some? ==> lines[k].band.value == Classify(lines[k].duration)
  {
    var testEvents := ProbeTargets();
    lines := [];
    var eventIdx := 0;
    while eventIdx < 3
      invariant 0 <= eventIdx <= 3 && |lines| == 3 * eventIdx
      invariant forall k :: 0 <= k < |lines| ==> lines[k] == ExpectedLine(clock, k)
    {
      var currentEvent := testEvents[eventIdx];
      var queryNum := 1;
      while queryNum <= 3
        invariant 1 <= queryNum <= 4 && |lines| == 3 * eventIdx + queryNum - 1
        invariant forall k :: 0 <= k < |lines| ==> lines[k] == ExpectedLine(clock, k)
      {
        var n := |lines|;
        QueryNumbering(eventIdx, queryNum);
        var startTime := MicrosFromTimespec(clock[2 * n]);
        var endTime := MicrosFromTimespec(clock[2 * n + 1]);
        var duration := endTime - startTime;
        var band := if queryNum == 1 then Some(Classify(duration)) else None;
        lines := lines + [ProbeLine(currentEvent, queryNum, duration, band)];
        queryNum := queryNum + 1;
      }
      eventIdx := eventIdx + 1;
    }
    forall k | 0 <= k < 9
      ensures lines[k].event == ProbeTargets()[k / 3] && lines[k].query == k % 3 + 1
      ensures lines[k].duration == QueryDuration(clock, k)
      ensures lines[k].band.Some? <==> lines[k].query == 1
      ensures lines[k].band.Some? ==> lines[k].band.value == Classify(lines[k].duration)
    {
      assert lines[k] == ExpectedLine(clock, k);
    }
  }

  /**
    What the probe relies on: every index of the hub window but the target,
    the two probed neighbours included, has a barrier into the target in the
    submitted graph.
  */
  lemma {:induction false} ProbeTargetsInHub()
    ensures forall k :: HubStart <= k < HubEnd && k != TargetEvent ==> BarrierCmd(k, TargetEvent) in GraphLog()
    ensures forall e :: e in ProbeTargets() && e != TargetEvent ==> BarrierCmd(e, TargetEvent) in GraphLog()
  {
    HubLinksIntoTarget();
  }

}
