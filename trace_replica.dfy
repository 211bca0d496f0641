/**
  ze_trace_replica.c: a fixed replay of a recorded trace on two immediate
  command lists, followed by one timed zeEventQueryStatus on the event of
  the first barrier.

  The replay is a straight-line series of appends over twelve events; the
  model records it as a command log, together with the two points at which
  the host blocks on an event, and proves what the comments at
  ze_trace_replica.c:152 and :302 claim of it: no event is signalled twice,
  and no command waits on an event that is not signalled before it, so the
  dependencies cannot form a cycle. Beyond the comments, it also proves
  that event 2 is never used.
*/
module TraceReplica {
  import opened Commands
  import opened Clock

  /** `events[12]`: one more than the trace needs, so that no event is reused. */
  const EventCount: nat := 12
  /** The pool of `zeEventPoolCreate(..., .count = 1000)`. */
  const ReplicaPool: Pool := Pool(1000)
  /** `hCmdList1` and `hCmdList2`, the two immediate command lists. */
  const List1: nat := 1
  const List2: nat := 2
  /** `events[1]`, the event of barrier 1, is the one whose status is queried. */
  const QueriedEvent: nat := 1
  /** The event the trace never uses. */
  const SpareEvent: nat := 2
  /** A query slower than this many microseconds is reported as critical. */
  const CriticalMicros: int := 100
  /** `ZE_RESULT_SUCCESS`. */
  const ResultSuccess: int := 0

  /**
    The creation loop of ze_trace_replica.c: `events[i]` at pool slot i for
    i = 0 .. 11, each reset after creation. `ok` is false when the pool is
    too small, in which case the program exits.
  */
  method CreateReplicaEvents(pool: Pool) returns (events: array<Option<Event>>, ok: bool)
    ensures fresh(events) && events.Length == EventCount
    ensures ok <==> EventCount <= pool.capacity
    ensures forall i :: 0 <= i < EventCount && i < pool.capacity ==> events[i] == Some(Event(i, false))
  {
    events := new Option<Event>[EventCount](_ => None);
    ok := CreateEvents(pool, events, 0, EventCount);
  }

  /** With the program's pool of 1000 slots, all twelve events are created and unsignalled. */
  lemma {:induction false} ReplicaPoolSuffices()
    ensures EventCount <= ReplicaPool.capacity
    ensures forall i :: 0 <= i < EventCount ==> CreateEvent(ReplicaPool, i) == Some(Event(i, false))
  {
  }

  // ---------------------------------------------------------------------------
  // The replayed trace

  /** The eleven appends of the replay, in program order. */
  function TraceTable(): seq<Command>
  {
    [ Command(Fill, List1, 0, []),
      Command(Timestamp, List2, 3, []),
      Command(Copy, List2, 4, [3]),
      Command(Barrier, List2, 1, [4]),
      Command(Barrier, List2, 5, [4]),
      Command(Launch, List1, 6, [5]),
      Command(Launch, List2, 7, [5]),
      Command(Timestamp, List2, 8, [7]),
      Command(Copy, List2, 9, [8]),
      Command(Barrier, List2, 11, [9]),
      Command(Barrier, List2, 10, [9]) ]
  }

  /** A zeEventHostSynchronize: the host blocks on `event` once the first `after` commands are appended. */
  datatype HostWait = HostWait(event: nat, after: nat)

  /** The host waits for the fill (events[0]) and for the reset kernel (events[6]). */
  function HostWaits(): seq<HostWait>
  {
    [HostWait(0, 1), HostWait(6, 6)]
  }

  /**
    The replay: each append of ze_trace_replica.c:166-306 adds its command to
    the log, and each zeEventHostSynchronize records the event and how much of
    the log precedes it.
  */
  method ReplayTrace() returns (log: seq<Command>, waits: seq<HostWait>)
    ensures log == TraceTable()
    ensures waits == HostWaits()
  {
    log := [];
    waits := [];
    log := log + [Command(Fill, List1, 0, [])];
    waits := waits + [HostWait(0, |log|)];
    log := log + [Command(Timestamp, List2, 3, [])];
    log := log + [Command(Copy, List2, 4, [3])];
    log := log + [Command(Barrier, List2, 1, [4])];
    log := log + [Command(Barrier, List2, 5, [4])];
    log := log + [Command(Launch, List1, 6, [5])];
    waits := waits + [HostWait(6, |log|)];
    log := log + [Command(Launch, List2, 7, [5])];
    log := log + [Command(Timestamp, List2, 8, [7])];
    log := log + [Command(Copy, List2, 9, [8])];
    log := log + [Command(Barrier, List2, 11, [9])];
    log := log + [Command(Barrier, List2, 10, [9])];
  }

  /**
    Eleven commands over events [0, 12), every one of them a single-wait or
    no-wait command, with event 2 never touched.
  */
  lemma {:induction false} TraceShape()
    ensures |TraceTable()| == 11
    ensures LogWithin(TraceTable(), 0, EventCount)
    ensures NoSelfWait(TraceTable())
    ensures forall c :: c in TraceTable() ==> |c.waits| <= 1 && (c.list == List1 || c.list == List2)
    ensures forall c :: c in TraceTable() ==> !Touches(c, SpareEvent)
  {
    var t := TraceTable();
    forall c | c in t
      ensures CommandWithin(c, 0, EventCount) && c.signal !in c.waits
      ensures |c.waits| <= 1 && (c.list == List1 || c.list == List2)
      ensures !Touches(c, SpareEvent)
    {
      var k :| 0 <= k < |t| && t[k] == c;
      assert c == t[k];
    }
  }

  /** No event is the completion event of two commands: the twelfth event keeps the final barriers off events[1]. */
  lemma {:induction false} TraceUniqueSignals()
    ensures UniqueSignals(TraceTable())
  {
    var t := TraceTable();
    var signals := [0, 3, 4, 1, 5, 6, 7, 8, 9, 11, 10];
    assert forall k :: 0 <= k < |t| ==> t[k].signal == signals[k];
  }

  /** Every command waits only on an event that a command appended before it signals. */
  lemma {:induction false} TraceGrounded()
    ensures Grounded(TraceTable())
  {
    var t := TraceTable();
    // For each command, the position of the command whose event it waits on.
    var producer := [0, 0, 1, 2, 2, 4, 4, 6, 7, 8, 8];
    forall k, w | 0 <= k < |t| && w in t[k].waits
      ensures w in {} || SignalledBefore(t, k, w)
    {
      var j := producer[k];
      assert t[k].waits == [t[j].signal] && j < k;
    }
  }

  /** No walk along the dependency edges of the trace returns to where it started. */
  lemma {:induction false} TraceAcyclic(p: seq<nat>)
    requires IsPath(TraceTable(), p) && |p| >= 2
    ensures p[0] != p[|p| - 1]
  {
    TraceUniqueSignals();
    TraceGrounded();
    NoCircularDependency(TraceTable(), p);
  }

  /**
    The queried event is signalled by exactly one command, barrier 1 on list 2
    (the fourth append), which waits on the copy of the first timestamp.
  */
  lemma {:induction false} QueriedEventProducer()
    ensures exists j :: 0 <= j < |TraceTable()| && TraceTable()[j].signal == QueriedEvent
    ensures UniqueSignals(TraceTable()) && Producer(TraceTable(), QueriedEvent) == 3
    ensures TraceTable()[3] == Command(Barrier, List2, QueriedEvent, [4])
  {
    TraceUniqueSignals();
    var t := TraceTable();
    assert t[3].signal == QueriedEvent;
  }

  /** Each event the host blocks on is signalled by a command appended before the wait. */
  lemma {:induction false} HostWaitsSignalled()
    ensures forall h :: h in HostWaits() ==> h.after <= |TraceTable()| && h.event in Signals(TraceTable()[..h.after])
  {
    var t := TraceTable();
    assert t[0] in t[..1];
    assert t[5] in t[..6];
  }

  // ---------------------------------------------------------------------------
  // The timed query

  /** What the program reports about the query, and how it ends. */
  datatype QueryReport = QueryReport(elapsed: int, critical: bool, exitCode: int)

  /**
    The query is timed by two `get_time_us` readings; it is critical when the
    elapsed time exceeds 100 µs. The program then exits with 1 unless the
    status was `ZE_RESULT_SUCCESS`, in which case it cleans up and returns 0.
  */
  function ReportQuery(start: Timeval, end: Timeval, status: int): (r: QueryReport)
    ensures r.elapsed == MicrosFromTimeval(end) - MicrosFromTimeval(start)
    ensures r.critical <==> r.elapsed > CriticalMicros
    ensures r.exitCode != 0 <==> status != ResultSuccess
    ensures r.exitCode == 0 || r.exitCode == 1
  {
    var elapsed := MicrosFromTimeval(end) - MicrosFromTimeval(start);
    QueryReport(elapsed, elapsed > CriticalMicros, if status == ResultSuccess then 0 else 1)
  }

  /**
    For normalised readings, the query is critical exactly when the end
    reading comes after the start reading moved on by 100 µs; the verdict
    never depends on the status, nor the exit code on the timing.
  */
  lemma {:induction false} CriticalMeansLate(start: Timeval, end: Timeval, status: int, status': int)
    requires ValidTimeval(start) && ValidTimeval(end)
    ensures ReportQuery(start, end, status).critical <==> TimevalBefore(AddMicros(start, CriticalMicros), end)
    ensures ReportQuery(start, end, status).critical == ReportQuery(start, end, status').critical
    ensures forall start', end' :: ReportQuery(start, end, status).exitCode == ReportQuery(start', end', status).exitCode
  {
    LaterByMoreThan(start, end, CriticalMicros);
  }

  /** A query whose readings do not go backwards reports a non-negative elapsed time. */
  lemma {:induction false} ElapsedNonNegative(start: Timeval, end: Timeval, status: int)
    requires ValidTimeval(start) && ValidTimeval(end)
    requires !TimevalBefore(end, start)
    ensures ReportQuery(start, end, status).elapsed >= 0
  {
    TimevalStrictlyIncreasing(end, start);
  }
}
