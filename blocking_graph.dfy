/**
  The dependency graph that test_blocking_event_query.c builds on its single
  immediate command list, as the sequence of commands each pass appends.

  Each pass is given by a function of its loop variable: the commands of all
  iterations that start below it, so that a loop running up to a bound
  appends exactly the function's value at that bound. The methods in
  BlockingEventQuery are proved to append these sequences; the lemmas here say
  what the sequences are: every event index touched lies in [1, MaxEvents),
  the ten phase windows sweep [1, 401) once and in order, cross-links point
  forward, the hub pass never makes the target wait on itself, and every
  command waits only on events an earlier command signals.
*/
module BlockingGraph {
  import opened Commands

  /** `MAX_EVENTS`: size of `events[]`; index 0 is never created. */
  const MaxEvents: nat := 500
  /** Number of phases of the first pass. */
  const PhaseCount: nat := 10
  /** `targetEvent`, the centre of the hub pass and the first event probed. */
  const TargetEvent: nat := 250
  /** The one command list (`cmdList`) every append of the builder goes to. */
  const MainList: nat := 0

  function TimestampCmd(signal: nat): Command
  {
    Command(Timestamp, MainList, signal, [])
  }

  function CopyCmd(wait: nat, signal: nat): Command
  {
    Command(Copy, MainList, signal, [wait])
  }

  function BarrierCmd(wait: nat, signal: nat): Command
  {
    Command(Barrier, MainList, signal, [wait])
  }

  // ---------------------------------------------------------------------------
  // Pass 1: phased local chains

  /** The commands one index `i` of a phase window appends when its guard holds. */
  function PhaseBlock(i: nat): seq<Command>
  {
    [ TimestampCmd(i + 5),
      CopyCmd(i + 5, i + 6),
      BarrierCmd(i + 6, i),
      BarrierCmd(i + 6, i + 7),
      BarrierCmd(i + 7, i + 8),
      BarrierCmd(i + 8, i + 9) ]
    + (if i > 10 then [BarrierCmd(i - 10, i)] else [])
    + (if i > 20 then [BarrierCmd(i - 20, i)] else [])
  }

  /** One iteration of the inner phase loop: guarded by `i + 10 < MAX_EVENTS`. */
  function PhaseStep(i: nat): seq<Command>
  {
    if i + 10 < MaxEvents then PhaseBlock(i) else []
  }

  /** The inner phase loop run over [lo, hi). */
  function PhaseRange(lo: nat, hi: nat): seq<Command>
    decreases hi
  {
    if hi <= lo then [] else PhaseRange(lo, hi - 1) + PhaseStep(hi - 1)
  }

  /** First index of phase `p`; each phase window is 40 indices wide. */
  function WindowStart(p: nat): nat
  {
    1 + p * 40
  }

  /** Bound of phase `p`: the smaller of MAX_EVENTS - 20 and the next phase's start. */
  function WindowEnd(p: nat): nat
  {
    if MaxEvents - 20 < 1 + (p + 1) * 40 then MaxEvents - 20 else 1 + (p + 1) * 40
  }

  /** The first `n` phases. */
  function Phases(n: nat): seq<Command>
  {
    if n == 0 then [] else Phases(n - 1) + PhaseRange(WindowStart(n - 1), WindowEnd(n - 1))
  }

  function PhasePass(): seq<Command>
  {
    Phases(PhaseCount)
  }

  // ---------------------------------------------------------------------------
  // Pass 2: stride-10 cross-links

  const CrossStart: nat := 50
  const CrossEnd: nat := MaxEvents - 50

  /** The inner cross-link loop for `j` in [1, j). */
  function CrossInner(i: nat, j: nat): seq<Command>
    decreases j
  {
    if j <= 1 then []
    else CrossInner(i, j - 1)
         + (if i + (j - 1) * 10 < MaxEvents then [BarrierCmd(i, i + (j - 1) * 10)] else [])
  }

  /** The outer cross-link iterations that start below `i` (i = 50, 60, ...). */
  function CrossLinksBefore(i: nat): seq<Command>
    decreases i
  {
    if i <= CrossStart then [] else CrossLinksBefore(i - 10) + CrossInner(i - 10, 5)
  }

  function CrossLinkPass(): seq<Command>
  {
    CrossLinksBefore(CrossEnd)
  }

  // ---------------------------------------------------------------------------
  // Pass 3: stride-50 timing chains

  const TimingStart: nat := 100
  const TimingEnd: nat := MaxEvents - 100

  /** The chain loop for `k` in [0, k): barrier i+19+k -> i+20+k, each guarded. */
  function TimingChain(i: nat, k: nat): seq<Command>
    decreases k
  {
    if k == 0 then []
    else TimingChain(i, k - 1)
         + (if i + 20 + (k - 1) < MaxEvents then [BarrierCmd(i + 19 + (k - 1), i + 20 + (k - 1))] else [])
  }

  /** One timing iteration: timestamp, copy, then the five-link chain. */
  function TimingBlock(i: nat): seq<Command>
  {
    [TimestampCmd(i + 10), CopyCmd(i + 10, i + 20)] + TimingChain(i, 5)
  }

  /** The timing iterations that start below `i` (i = 100, 150, ...). */
  function TimingBefore(i: nat): seq<Command>
    decreases i
  {
    if i <= TimingStart then [] else TimingBefore(i - 50) + TimingBlock(i - 50)
  }

  function TimingPass(): seq<Command>
  {
    TimingBefore(TimingEnd)
  }

  // ---------------------------------------------------------------------------
  // Pass 4: the hub web around the target

  const HubStart: nat := TargetEvent - 50
  const HubEnd: nat := TargetEvent + 50

  /** One hub iteration: target waits on `i`, then `i + 1` waits on `i`, all guarded. */
  function HubStep(i: nat): seq<Command>
  {
    if 0 < i < MaxEvents - 1 && i != TargetEvent then
      [BarrierCmd(i, TargetEvent)] + (if i + 1 < MaxEvents then [BarrierCmd(i, i + 1)] else [])
    else []
  }

  /** The hub iterations for indices in [HubStart, i). */
  function HubBefore(i: nat): seq<Command>
    decreases i
  {
    if i <= HubStart then [] else HubBefore(i - 1) + HubStep(i - 1)
  }

  function HubPass(): seq<Command>
  {
    HubBefore(HubEnd)
  }

  /** Everything the builder appends, in order. */
  function GraphLog(): seq<Command>
  {
    PhasePass() + CrossLinkPass() + TimingPass() + HubPass()
  }


  // ===========================================================================
  // One more loop iteration
  //
  // The unfolding of each pass function, stated once. The next value of the
  // loop variable is passed in, so that a caller names exactly the term its
  // goal is about.

  lemma {:induction false} PhaseRangeNext(lo: nat, hi: nat, next: nat)
    requires lo <= hi && hi == next - 1
    ensures PhaseRange(lo, next) == PhaseRange(lo, hi) + PhaseStep(hi)
  {
  }

  lemma {:induction false} PhasesNext(n: nat, next: nat)
    requires n == next - 1
    ensures Phases(next) == Phases(n) + PhaseRange(WindowStart(n), WindowEnd(n))
  {
  }

  lemma {:induction false} CrossInnerNext(i: nat, j: nat, next: nat)
    requires 1 <= j && j == next - 1
    ensures CrossInner(i, next) == CrossInner(i, j) + (if i + j * 10 < MaxEvents then [BarrierCmd(i, i + j * 10)] else [])
  {
  }

  lemma {:induction false} CrossLinksNext(i: nat, next: nat)
    requires CrossStart < next && i == next - 10
    ensures CrossLinksBefore(next) == CrossLinksBefore(i) + CrossInner(i, 5)
  {
  }

  lemma {:induction false} TimingChainNext(i: nat, k: nat, next: nat)
    requires k == next - 1
    ensures TimingChain(i, next) == TimingChain(i, k) + (if i + 20 + k < MaxEvents then [BarrierCmd(i + 19 + k, i + 20 + k)] else [])
  {
  }

  lemma {:induction false} TimingBeforeNext(i: nat, next: nat)
    requires TimingStart < next && i == next - 50
    ensures TimingBefore(next) == TimingBefore(i) + TimingBlock(i)
  {
  }

  lemma {:induction false} HubBeforeNext(i: nat, next: nat)
    requires HubStart <= i && i == next - 1
    ensures HubBefore(next) == HubBefore(i) + HubStep(i)
  {
  }

  // ===========================================================================
  // Phase windows

  /** Consecutive windows: phase 0 starts at 1, each ends where the next starts, phase 9 ends at 401. */
  lemma {:induction false} WindowsConsecutive()
    ensures WindowStart(0) == 1
    ensures forall p :: 0 <= p < PhaseCount - 1 ==> WindowEnd(p) == WindowStart(p + 1)
    ensures WindowEnd(PhaseCount - 1) == 401
  {
  }

  /** Every index in [1, 401) lies in exactly one phase window, the one numbered (i - 1) / 40. */
  lemma {:induction false} EachIndexInOneWindow(i: nat)
    requires 1 <= i < 401
    ensures forall p :: 0 <= p < PhaseCount ==> (WindowStart(p) <= i < WindowEnd(p) <==> p == (i - 1) / 40)
  {
    var q := (i - 1) / 40;
    assert q * 40 <= i - 1 < (q + 1) * 40;
    forall p | 0 <= p < PhaseCount
      ensures WindowStart(p) <= i < WindowEnd(p) <==> p == q
    {
      if p < q {
        assert (p + 1) * 40 <= q * 40;
      } else if p > q {
        assert (q + 1) * 40 <= p * 40;
      }
    }
  }

  /** Running the inner phase loop over [a, c) is running it over [a, b) then [b, c). */
  lemma {:induction false} PhaseRangeSplit(a: nat, b: nat, c: nat)
    requires a <= b <= c
    ensures PhaseRange(a, c) == PhaseRange(a, b) + PhaseRange(b, c)
    decreases c
  {
    if b < c {
      var m := c - 1;
      PhaseRangeSplit(a, b, m);
      PhaseRangeNext(a, m, c);
      PhaseRangeNext(b, m, c);
    }
  }

  /** The first `n` phases are one sweep over [1, 1 + 40 n). */
  lemma {:induction false} PhasesSweep(n: nat)
    requires n <= PhaseCount
    ensures Phases(n) == PhaseRange(1, 1 + n * 40)
  {
    if n > 0 {
      var m := n - 1;
      var a, c := 1 + m * 40, 1 + n * 40;
      PhasesSweep(m);
      PhasesNext(m, n);
      assert WindowStart(m) == a && WindowEnd(m) == c;
      PhaseRangeSplit(1, a, c);
    }
  }

  /** The whole phase pass processes every i in [1, 401) exactly once, in increasing order. */
  lemma {:induction false} PhasePassIsOneSweep()
    ensures PhasePass() == PhaseRange(1, 401)
  {
    PhasesSweep(PhaseCount);
  }

  /**
    Events of the phase pass have several signallers, and its dependency
    edges close cycles: blocks i, i + 4 and i + 5 of a sweep link i + 5 ->
    i + 6 -> ... -> i + 11 and back to i + 5 (for the phase pass, which is
    the sweep over [1, 401), i = 1 gives 6 -> 7 -> ... -> 12 -> 6). The log
    is grounded (every wait signalled earlier), but its event graph is not
    acyclic.
  */
  lemma {:induction false} PhaseSweepHasCycle(lo: nat, hi: nat, i: nat)
    requires lo <= i && i + 5 < hi && i + 15 < MaxEvents
    ensures IsPath(PhaseRange(lo, hi), [i + 5, i + 6, i + 7, i + 8, i + 9, i + 10, i + 11, i + 5])
  {
    PhaseSweepCycleEdges(lo, hi, i);
    WalkOfSeven(PhaseRange(lo, hi), i);
  }

  /** The seven edges of that cycle, each from one of the blocks i, i + 4 and i + 5. */
  lemma {:induction false} PhaseSweepCycleEdges(lo: nat, hi: nat, i: nat)
    requires lo <= i && i + 5 < hi && i + 15 < MaxEvents
    ensures Edge(PhaseRange(lo, hi), i + 5, i + 6) && Edge(PhaseRange(lo, hi), i + 6, i + 7)
    ensures Edge(PhaseRange(lo, hi), i + 7, i + 8) && Edge(PhaseRange(lo, hi), i + 8, i + 9)
    ensures Edge(PhaseRange(lo, hi), i + 9, i + 10) && Edge(PhaseRange(lo, hi), i + 10, i + 11)
    ensures Edge(PhaseRange(lo, hi), i + 11, i + 5)
  {
    var j, k := i + 4, i + 5;
    var e6, e7, e8, e9, e10, e11, e12, e13, e14 := i + 6, i + 7, i + 8, i + 9, i + 10, i + 11, i + 12, i + 13, i + 14;
    PhaseBlockEdges(i, k, e6, e7, e8, e9);
    PhaseBlockEdges(j, e9, e10, e11, e12, e13);
    PhaseBlockEdges(k, e10, e11, e12, e13, e14);
    EdgeInRange(lo, i, hi, k, e6);
    EdgeInRange(lo, i, hi, e6, e7);
    EdgeInRange(lo, i, hi, e7, e8);
    EdgeInRange(lo, i, hi, e8, e9);
    EdgeInRange(lo, j, hi, e9, e10);
    EdgeInRange(lo, j, hi, e10, e11);
    EdgeInRange(lo, k, hi, e11, k);
  }

  /** Seven edges i + 5 -> i + 6 -> ... -> i + 11 -> i + 5 make a closed walk. */
  lemma {:induction false} WalkOfSeven(log: seq<Command>, i: nat)
    requires Edge(log, i + 5, i + 6) && Edge(log, i + 6, i + 7) && Edge(log, i + 7, i + 8)
    requires Edge(log, i + 8, i + 9) && Edge(log, i + 9, i + 10) && Edge(log, i + 10, i + 11)
    requires Edge(log, i + 11, i + 5)
    ensures IsPath(log, [i + 5, i + 6, i + 7, i + 8, i + 9, i + 10, i + 11, i + 5])
  {
    var p := [i + 5, i + 6, i + 7, i + 8, i + 9, i + 10, i + 11, i + 5];
    forall n | 0 <= n < |p| - 1
      ensures Edge(log, p[n], p[n + 1])
    {
    }
  }

  /** The edges of one guarded phase block at i, whose indices i + 5 .. i + 9 are passed in. */
  lemma {:induction false} PhaseBlockEdges(i: nat, e5: nat, e6: nat, e7: nat, e8: nat, e9: nat)
    requires i + 10 < MaxEvents
    requires e5 == i + 5 && e6 == i + 6 && e7 == i + 7 && e8 == i + 8 && e9 == i + 9
    ensures Edge(PhaseStep(i), e5, e6) && Edge(PhaseStep(i), e6, i)
    ensures Edge(PhaseStep(i), e6, e7) && Edge(PhaseStep(i), e7, e8) && Edge(PhaseStep(i), e8, e9)
  {
    var s := PhaseStep(i);
    assert s[1] == CopyCmd(e5, e6);
    assert s[2] == BarrierCmd(e6, i);
    assert s[3] == BarrierCmd(e6, e7);
    assert s[4] == BarrierCmd(e7, e8);
    assert s[5] == BarrierCmd(e8, e9);
  }

  /** An edge of one iteration is an edge of every sweep that includes it. */
  lemma {:induction false} EdgeInRange(lo: nat, i: nat, hi: nat, a: nat, b: nat)
    requires lo <= i < hi
    requires Edge(PhaseStep(i), a, b)
    ensures Edge(PhaseRange(lo, hi), a, b)
  {
    var next := i + 1;
    PhaseRangeAround(lo, i, next, hi);
    EdgeInInfix(PhaseRange(lo, i), PhaseStep(i), PhaseRange(next, hi), a, b);
  }

  /** A sweep is the part before index i, the iteration at i, and the part after it. */
  lemma {:induction false} PhaseRangeAround(lo: nat, i: nat, next: nat, hi: nat)
    requires lo <= i < hi && i == next - 1
    ensures PhaseRange(lo, hi) == PhaseRange(lo, i) + PhaseStep(i) + PhaseRange(next, hi)
  {
    PhaseRangeNext(i, i, next);
    assert PhaseRange(i, i) == [];
    PhaseRangeSplit(lo, i, hi);
    PhaseRangeSplit(i, next, hi);
    assert PhaseRange(i, next) == PhaseStep(i);
  }



  /** Below MAX_EVENTS - 10 the guard `i + 10 < MAX_EVENTS` never skips an index: each iteration appends its whole block. */
  lemma {:induction false} PhaseRangeUnguarded(lo: nat, hi: nat)
    requires hi + 10 <= MaxEvents
    ensures forall i :: lo <= i < hi ==> PhaseStep(i) == PhaseBlock(i)
  {
  }

  // ===========================================================================
  // Bounds: every index touched lies in [1, MAX_EVENTS)
  //
  // Each pass is handled the same way: a named per-command property, a lemma
  // that one loop iteration's commands have it, and a lemma, generic in the
  // property, that one more iteration keeps it for the whole prefix.

  /** Touches only indices in [1, MAX_EVENTS) and does not wait on its own completion event. */
  predicate InGraphRange(c: Command)
  {
    CommandWithin(c, 1, MaxEvents) && c.signal !in c.waits
  }

  lemma {:induction false} PhaseStepShape(i: nat)
    requires 1 <= i
    ensures AllCommands(PhaseStep(i), InGraphRange)
  {
    forall c | c in PhaseStep(i) ensures InGraphRange(c) {
    }
  }

  lemma {:induction false} PhaseRangeStep(lo: nat, hi: nat, next: nat, P: Command -> bool)
    requires lo <= hi && hi == next - 1
    requires AllCommands(PhaseRange(lo, hi), P) && AllCommands(PhaseStep(hi), P)
    ensures AllCommands(PhaseRange(lo, next), P)
  {
    PhaseRangeNext(lo, hi, next);
    AllCommandsConcat(PhaseRange(lo, hi), PhaseStep(hi), P);
  }

  lemma {:induction false} PhaseRangeShape(lo: nat, hi: nat)
    requires 1 <= lo
    ensures AllCommands(PhaseRange(lo, hi), InGraphRange)
    decreases hi
  {
    if lo < hi {
      var m := hi - 1;
      PhaseRangeShape(lo, m);
      PhaseStepShape(m);
      PhaseRangeStep(lo, m, hi, InGraphRange);
    }
  }

  lemma {:induction false} PhasesStep(n: nat, next: nat, P: Command -> bool)
    requires n == next - 1
    requires AllCommands(Phases(n), P)
    requires AllCommands(PhaseRange(WindowStart(n), WindowEnd(n)), P)
    ensures AllCommands(Phases(next), P)
  {
    PhasesNext(n, next);
    AllCommandsConcat(Phases(n), PhaseRange(WindowStart(n), WindowEnd(n)), P);
  }

  lemma {:induction false} PhasesShape(n: nat)
    ensures AllCommands(Phases(n), InGraphRange)
  {
    if n > 0 {
      var m := n - 1;
      PhasesShape(m);
      PhaseRangeShape(WindowStart(m), WindowEnd(m));
      PhasesStep(m, n, InGraphRange);
    }
  }

  /** The phase pass touches only indices in [1, MAX_EVENTS) and no command of it waits on itself. */
  lemma {:induction false} PhasePassWithin()
    ensures LogWithin(PhasePass(), 1, MaxEvents)
    ensures NoSelfWait(PhasePass())
  {
    var p := PhasePass();
    assert AllCommands(p, InGraphRange) by {
      PhasesShape(PhaseCount);
    }
    forall c | c in p ensures CommandWithin(c, 1, MaxEvents) && c.signal !in c.waits {
      assert InGraphRange(c);
    }
  }

  /** A cross-link: a barrier from `events[i]`, i in [50, 450), to `events[i + 10 j]`, j in 1..4. */
  predicate IsCrossLink(c: Command)
  {
    && c.kind == Barrier && c.list == MainList && |c.waits| == 1
    && CrossStart <= c.waits[0] < CrossEnd && c.signal < MaxEvents
    && c.signal - c.waits[0] in {10, 20, 30, 40}
  }

  lemma {:induction false} CrossInnerShape(i: nat, j: nat)
    requires CrossStart <= i < CrossEnd && j <= 5
    ensures AllCommands(CrossInner(i, j), IsCrossLink)
    ensures forall c :: c in CrossInner(i, j) ==> c.waits == [i]
    decreases j
  {
    if j > 1 {
      var m := j - 1;
      CrossInnerShape(i, m);
      var link := if i + m * 10 < MaxEvents then [BarrierCmd(i, i + m * 10)] else [];
      CrossInnerNext(i, m, j);
      AllCommandsConcat(CrossInner(i, m), link, IsCrossLink);
    }
  }

  lemma {:induction false} CrossLinksStep(i: nat, next: nat, P: Command -> bool)
    requires CrossStart <= i && i == next - 10
    requires AllCommands(CrossLinksBefore(i), P) && AllCommands(CrossInner(i, 5), P)
    ensures AllCommands(CrossLinksBefore(next), P)
  {
    CrossLinksNext(i, next);
    AllCommandsConcat(CrossLinksBefore(i), CrossInner(i, 5), P);
  }

  /** The outer cross-link loop after `t` iterations, at i = 50 + 10 t, has appended only cross-links. */
  lemma {:induction false} CrossLinksShape(t: nat, i: nat)
    requires t <= 40 && i == CrossStart + 10 * t
    ensures AllCommands(CrossLinksBefore(i), IsCrossLink)
  {
    if t > 0 {
      var u, j := t - 1, i - 10;
      CrossLinksShape(u, j);
      CrossInnerShape(j, 5);
      CrossLinksStep(j, i, IsCrossLink);
    }
  }

  /**
    Every cross-link waits on one event and signals one at a strictly higher
    index, both in [50, MAX_EVENTS).
  */
  lemma {:induction false} CrossLinksPointForward()
    ensures forall c :: c in CrossLinkPass() ==> c.kind == Barrier && |c.waits| == 1 && c.waits[0] < c.signal
    ensures LogWithin(CrossLinkPass(), CrossStart, MaxEvents)
    ensures NoSelfWait(CrossLinkPass())
  {
    var x := CrossLinkPass();
    assert AllCommands(x, IsCrossLink) by {
      CrossLinksShape(40, CrossEnd);
    }
    forall c | c in x
      ensures c.kind == Barrier && |c.waits| == 1 && c.waits[0] < c.signal
      ensures CommandWithin(c, CrossStart, MaxEvents)
      ensures c.signal !in c.waits
    {
      assert IsCrossLink(c);
      assert c.waits == [c.waits[0]];
    }
  }

  /** A timing-pass command: touches only indices in [110, MAX_EVENTS) and does not wait on itself. */
  predicate IsTimingCmd(c: Command)
  {
    CommandWithin(c, TimingStart + 10, MaxEvents) && c.signal !in c.waits
  }

  lemma {:induction false} TimingChainStep(i: nat, k: nat, next: nat, P: Command -> bool)
    requires k == next - 1
    requires AllCommands(TimingChain(i, k), P)
    requires i + 20 + k < MaxEvents ==> P(BarrierCmd(i + 19 + k, i + 20 + k))
    ensures AllCommands(TimingChain(i, next), P)
  {
    var link := if i + 20 + k < MaxEvents then [BarrierCmd(i + 19 + k, i + 20 + k)] else [];
    TimingChainNext(i, k, next);
    AllCommandsConcat(TimingChain(i, k), link, P);
  }

  /** Every chain barrier touches only indices in [110, MAX_EVENTS) and never waits on its own event. */
  lemma {:induction false} TimingChainShape(i: nat, k: nat)
    requires TimingStart <= i
    ensures AllCommands(TimingChain(i, k), IsTimingCmd)
    decreases k
  {
    if k > 0 {
      var m := k - 1;
      TimingChainShape(i, m);
      TimingChainStep(i, m, k, IsTimingCmd);
    }
  }

  lemma {:induction false} TimingBlockShape(i: nat)
    requires TimingStart <= i && i + 20 < MaxEvents
    ensures AllCommands(TimingBlock(i), IsTimingCmd)
  {
    var head := [TimestampCmd(i + 10), CopyCmd(i + 10, i + 20)];
    assert AllCommands(head, IsTimingCmd) by {
      forall c | c in head ensures IsTimingCmd(c) {
      }
    }
    TimingChainShape(i, 5);
    AllCommandsConcat(head, TimingChain(i, 5), IsTimingCmd);
  }

  lemma {:induction false} TimingStep(i: nat, next: nat, P: Command -> bool)
    requires TimingStart <= i && i == next - 50
    requires AllCommands(TimingBefore(i), P) && AllCommands(TimingBlock(i), P)
    ensures AllCommands(TimingBefore(next), P)
  {
    TimingBeforeNext(i, next);
    AllCommandsConcat(TimingBefore(i), TimingBlock(i), P);
  }

  /** After `t` timing iterations, at i = 100 + 50 t, only timing-pass commands were appended. */
  lemma {:induction false} TimingShape(t: nat, i: nat)
    requires t <= 6 && i == TimingStart + 50 * t
    ensures AllCommands(TimingBefore(i), IsTimingCmd)
  {
    if t > 0 {
      var u, j := t - 1, i - 50;
      TimingShape(u, j);
      TimingBlockShape(j);
      TimingStep(j, i, IsTimingCmd);
    }
  }

  /** The timing pass touches only indices in [110, MAX_EVENTS) and no command of it waits on itself. */
  lemma {:induction false} TimingPassWithin()
    ensures LogWithin(TimingPass(), TimingStart + 10, MaxEvents)
    ensures NoSelfWait(TimingPass())
  {
    var t := TimingPass();
    assert AllCommands(t, IsTimingCmd) by {
      TimingShape(6, TimingEnd);
    }
    forall c | c in t ensures CommandWithin(c, TimingStart + 10, MaxEvents) && c.signal !in c.waits {
      assert IsTimingCmd(c);
    }
  }

  /**
    A hub command: a barrier waiting on one index in [200, 300) other than the
    target, signalling either the target or the index just above.
  */
  predicate IsHubLink(c: Command)
  {
    && c.kind == Barrier && c.list == MainList && |c.waits| == 1
    && HubStart <= c.waits[0] < HubEnd && c.waits[0] != TargetEvent
    && (c.signal == TargetEvent || c.signal == c.waits[0] + 1)
  }

  lemma {:induction false} HubStepShape(i: nat)
    requires HubStart <= i < HubEnd
    ensures AllCommands(HubStep(i), IsHubLink)
  {
    forall c | c in HubStep(i) ensures IsHubLink(c) {
    }
  }

  lemma {:induction false} HubBeforeStep(i: nat, next: nat, P: Command -> bool)
    requires HubStart <= i && i == next - 1
    requires AllCommands(HubBefore(i), P) && AllCommands(HubStep(i), P)
    ensures AllCommands(HubBefore(next), P)
  {
    HubBeforeNext(i, next);
    AllCommandsConcat(HubBefore(i), HubStep(i), P);
  }

  lemma {:induction false} HubShape(i: nat)
    requires i <= HubEnd
    ensures AllCommands(HubBefore(i), IsHubLink)
    decreases i
  {
    if i > HubStart {
      var m := i - 1;
      HubShape(m);
      HubStepShape(m);
      HubBeforeStep(m, i, IsHubLink);
    }
  }

  /**
    The hub pass only waits on indices of the window other than the target:
    the target never waits on itself, and no hub command waits on the target.
  */
  lemma {:induction false} HubPassShape()
    ensures forall c :: c in HubPass() ==> IsHubLink(c)
    ensures LogWithin(HubPass(), HubStart, HubEnd + 1)
    ensures NoSelfWait(HubPass())
    ensures forall c :: c in HubPass() ==> TargetEvent !in c.waits
  {
    var h := HubPass();
    assert AllCommands(h, IsHubLink) by {
      HubShape(HubEnd);
    }
    forall c | c in h
      ensures IsHubLink(c) && CommandWithin(c, HubStart, HubEnd + 1)
      ensures c.signal !in c.waits && TargetEvent !in c.waits
    {
      assert IsHubLink(c);
      assert c.waits == [c.waits[0]];
    }
  }

  lemma {:induction false} HubBeforeGrows(i: nat, next: nat, c: Command)
    requires HubStart <= i && i == next - 1
    requires c in HubBefore(i) || c in HubStep(i)
    ensures c in HubBefore(next)
  {
    HubBeforeNext(i, next);
  }

  lemma {:induction false} HubStepContents(k: nat)
    requires HubStart <= k < HubEnd && k != TargetEvent
    ensures BarrierCmd(k, TargetEvent) in HubStep(k) && BarrierCmd(k, k + 1) in HubStep(k)
  {
    var s := HubStep(k);
    assert s == [BarrierCmd(k, TargetEvent), BarrierCmd(k, k + 1)];
    assert s[0] == BarrierCmd(k, TargetEvent) && s[1] == BarrierCmd(k, k + 1);
  }

  /** For every index k of the window but the target, the hub pass makes the target wait on k and k + 1 wait on k. */
  lemma {:induction false} HubCoversWindow(i: nat, k: nat)
    requires HubStart <= k < i <= HubEnd && k != TargetEvent
    ensures BarrierCmd(k, TargetEvent) in HubBefore(i)
    ensures BarrierCmd(k, k + 1) in HubBefore(i)
    decreases i
  {
    var m := i - 1;
    var toTarget, toNext := BarrierCmd(k, TargetEvent), BarrierCmd(k, k + 1);
    if k < m {
      HubCoversWindow(m, k);
      HubBeforeGrows(m, i, toTarget);
      HubBeforeGrows(m, i, toNext);
    } else {
      HubStepContents(k);
      HubBeforeGrows(k, i, toTarget);
      HubBeforeGrows(k, i, toNext);
    }
  }

  /** Every index k of the hub window but the target is a predecessor of the target in the submitted graph. */
  lemma {:induction false} HubLinksInGraph(k: nat)
    requires HubStart <= k < HubEnd && k != TargetEvent
    ensures BarrierCmd(k, TargetEvent) in GraphLog() && BarrierCmd(k, k + 1) in GraphLog()
  {
    HubCoversWindow(HubEnd, k);
    InLastStage(BarrierCmd(k, TargetEvent), PhasePass(), CrossLinkPass(), TimingPass(), HubPass());
    InLastStage(BarrierCmd(k, k + 1), PhasePass(), CrossLinkPass(), TimingPass(), HubPass());
  }

  /** Every index of the hub window but the target has a barrier into the target in the graph. */
  lemma {:induction false} HubLinksIntoTarget()
    ensures forall k :: HubStart <= k < HubEnd && k != TargetEvent ==> BarrierCmd(k, TargetEvent) in GraphLog()
  {
    forall k | HubStart <= k < HubEnd && k != TargetEvent
      ensures BarrierCmd(k, TargetEvent) in GraphLog()
    {
      HubLinksInGraph(k);
    }
  }

  /** Index 0, never created, is never touched, nor is anything at or above MAX_EVENTS; no command waits on itself. */
  lemma {:induction false} GraphLogWithin()
    ensures LogWithin(GraphLog(), 1, MaxEvents)
    ensures NoSelfWait(GraphLog())
  {
    var p, x, t, h := PhasePass(), CrossLinkPass(), TimingPass(), HubPass();
    PhasePassWithin();
    CrossLinksPointForward();
    TimingPassWithin();
    HubPassShape();
    LogWithinWiden(x, CrossStart, MaxEvents, 1, MaxEvents);
    LogWithinWiden(t, TimingStart + 10, MaxEvents, 1, MaxEvents);
    LogWithinWiden(h, HubStart, HubEnd + 1, 1, MaxEvents);
    LogWithinConcat(p, x, 1, MaxEvents);
    LogWithinConcat(p + x, t, 1, MaxEvents);
    LogWithinConcat(p + x + t, h, 1, MaxEvents);
    NoSelfWaitConcat(p, x);
    NoSelfWaitConcat(p + x, t);
    NoSelfWaitConcat(p + x + t, h);
  }

  // ===========================================================================
  // Every wait is signalled by an earlier command

  /** Within one phase block, every wait but the two back-references is signalled earlier in the block. */
  lemma {:induction false} PhaseBlockGrounded(i: nat, ready: set<nat>)
    requires i > 10 ==> i - 10 in ready
    requires i > 20 ==> i - 20 in ready
    ensures GroundedFrom(ready, PhaseBlock(i))
    ensures i in Signals(PhaseBlock(i))
  {
    var b := PhaseBlock(i);
    forall k, w | 0 <= k < |b| && w in b[k].waits
      ensures w in ready || SignalledBefore(b, k, w)
    {
      if k == 1 {
        assert b[0].signal == w;
      } else if k == 2 || k == 3 {
        assert b[1].signal == w;
      } else if k == 4 {
        assert b[3].signal == w;
      } else if k == 5 {
        assert b[4].signal == w;
      }
    }
    assert b[2] in b;
  }

  /** The phase sweep over [1, hi) is grounded and signals every index it processes. */
  lemma {:induction false} PhaseRangeGrounded(hi: nat)
    requires hi + 10 <= MaxEvents
    ensures Grounded(PhaseRange(1, hi))
    ensures forall j :: 1 <= j < hi ==> j in Signals(PhaseRange(1, hi))
    decreases hi
  {
    if hi > 1 {
      var m := hi - 1;
      PhaseRangeGrounded(m);
      var prev := PhaseRange(1, m);
      var block := PhaseBlock(m);
      PhaseRangeNext(1, m, hi);
      assert PhaseStep(m) == block;
      PhaseBlockGrounded(m, Signals(prev));
      GroundedConcat({}, prev, block);
      SignalsConcat(prev, block);
      forall j | 1 <= j < hi ensures j in Signals(PhaseRange(1, hi)) {
        if j < m {
          assert j in Signals(prev);
        } else {
          assert j == m;
        }
      }
    }
  }

  /** Every command of the inner cross-link loop waits on `i` alone. */
  lemma {:induction false} CrossInnerWaits(i: nat, j: nat)
    ensures forall c :: c in CrossInner(i, j) ==> c.waits == [i]
    decreases j
  {
    if j > 1 {
      var m := j - 1;
      CrossInnerWaits(i, m);
      CrossInnerNext(i, m, j);
    }
  }

  /** The inner loop waits only on `i`, and its first link makes `events[i + 10]` wait on it. */
  lemma {:induction false} CrossInnerGrounded(i: nat, ready: set<nat>)
    requires i in ready
    requires i + 10 < MaxEvents
    ensures GroundedFrom(ready, CrossInner(i, 5))
    ensures BarrierCmd(i, i + 10) in CrossInner(i, 5)
  {
    CrossInnerWaits(i, 5);
    var b := CrossInner(i, 5);
    forall k, w | 0 <= k < |b| && w in b[k].waits ensures w in ready {
      assert b[k] in b;
    }
    CrossInnerNext(i, 1, 2);
    CrossInnerNext(i, 2, 3);
    CrossInnerNext(i, 3, 4);
    CrossInnerNext(i, 4, 5);
    assert b[0] == BarrierCmd(i, i + 10);
  }

  /** One outer cross-link iteration keeps the pass grounded, and signals `next`. */
  lemma {:induction false} CrossLinksGroundedStep(i: nat, next: nat, ready: set<nat>)
    requires CrossStart < next && i == next - 10 && next < MaxEvents
    requires GroundedFrom(ready, CrossLinksBefore(i))
    requires i in ready + Signals(CrossLinksBefore(i))
    ensures GroundedFrom(ready, CrossLinksBefore(next))
    ensures next in Signals(CrossLinksBefore(next))
  {
    var prev := CrossLinksBefore(i);
    var inner := CrossInner(i, 5);
    CrossLinksNext(i, next);
    CrossInnerGrounded(i, ready + Signals(prev));
    GroundedConcat(ready, prev, inner);
    var link := BarrierCmd(i, i + 10);
    assert link.signal == next;
    assert link in CrossLinksBefore(next);
  }

  /**
    The cross-link iterations below `i`, run after a prefix that signalled
    every index in [1, 401), are grounded: each `events[i]` they wait on was
    signalled by that prefix or, from 410 on, by the first cross-link of the
    iteration ten below.
  */
  lemma {:induction false} CrossLinksGrounded(i: nat, ready: set<nat>)
    requires forall j :: 1 <= j < 401 ==> j in ready
    requires i <= CrossEnd
    ensures GroundedFrom(ready, CrossLinksBefore(i))
    ensures CrossStart < i ==> i in Signals(CrossLinksBefore(i))
    decreases i
  {
    if CrossStart < i {
      var j := i - 10;
      CrossLinksGrounded(j, ready);
      CrossLinksGroundedStep(j, i, ready);
    }
  }

  lemma {:induction false} TimingChainGroundedStep(i: nat, k: nat, next: nat, ready: set<nat>)
    requires k == next - 1
    requires GroundedFrom(ready, TimingChain(i, k))
    requires forall e :: i + 20 <= e < i + 20 + k ==> e in Signals(TimingChain(i, k))
    requires i + 19 + k in ready + Signals(TimingChain(i, k))
    requires i + 20 + k < MaxEvents
    ensures GroundedFrom(ready, TimingChain(i, next))
    ensures forall e :: i + 20 <= e < i + 20 + next ==> e in Signals(TimingChain(i, next))
  {
    var prev := TimingChain(i, k);
    var link := [BarrierCmd(i + 19 + k, i + 20 + k)];
    TimingChainNext(i, k, next);
    assert GroundedFrom(ready + Signals(prev), link) by {
      assert link[0].waits == [i + 19 + k];
    }
    GroundedConcat(ready, prev, link);
    SignalsConcat(prev, link);
    assert link[0] in link;
  }

  /**
    Each chain barrier waits on i + 19 or on the event the previous barrier
    signals; the first `k` links signal [i + 20, i + 20 + k).
  */
  lemma {:induction false} TimingChainGrounded(i: nat, k: nat, ready: set<nat>)
    requires i + 19 in ready
    requires i + 20 + k <= MaxEvents
    ensures GroundedFrom(ready, TimingChain(i, k))
    ensures forall e :: i + 20 <= e < i + 20 + k ==> e in Signals(TimingChain(i, k))
    decreases k
  {
    if k > 0 {
      var m := k - 1;
      TimingChainGrounded(i, m, ready);
      TimingChainGroundedStep(i, m, k, ready);
    }
  }

  lemma {:induction false} TimingBlockGrounded(i: nat, ready: set<nat>)
    requires i + 19 in ready
    requires i + 25 <= MaxEvents
    ensures GroundedFrom(ready, TimingBlock(i))
  {
    var head := [TimestampCmd(i + 10), CopyCmd(i + 10, i + 20)];
    assert GroundedFrom(ready, head) by {
      forall k, w | 0 <= k < |head| && w in head[k].waits
        ensures w in ready || SignalledBefore(head, k, w)
      {
        assert head[0].signal == w;
      }
    }
    TimingChainGrounded(i, 5, ready + Signals(head));
    GroundedConcat(ready, head, TimingChain(i, 5));
  }

  /** The timing iterations below `i` wait only on events signalled before the pass. */
  lemma {:induction false} TimingGrounded(i: nat, ready: set<nat>)
    requires forall j :: 1 <= j < 401 ==> j in ready
    requires i <= TimingEnd
    ensures GroundedFrom(ready, TimingBefore(i))
    decreases i
  {
    if TimingStart < i {
      var j := i - 50;
      TimingGrounded(j, ready);
      TimingBlockGrounded(j, ready);
      TimingBeforeNext(j, i);
      GroundedUnion(ready, TimingBefore(j), TimingBlock(j));
    }
  }

  lemma {:induction false} HubGrounded(ready: set<nat>)
    requires forall j :: 1 <= j < 401 ==> j in ready
    ensures GroundedFrom(ready, HubPass())
  {
    HubPassShape();
    var b := HubPass();
    forall k, w | 0 <= k < |b| && w in b[k].waits ensures w in ready {
      assert b[k] in b;
    }
  }

  /** The phase pass is grounded and signals every index in [1, 401). */
  lemma {:induction false} PhasePassGrounded()
    ensures Grounded(PhasePass())
    ensures forall j :: 1 <= j < 401 ==> j in Signals(PhasePass())
  {
    var hi := 401;
    PhasePassIsOneSweep();
    PhaseRangeGrounded(hi);
  }

  /** Once [1, 401) is signalled, the cross-link pass waits only on signalled events or its own earlier links. */
  lemma {:induction false} CrossLinkPassGrounded(ready: set<nat>)
    requires forall j :: 1 <= j < 401 ==> j in ready
    ensures GroundedFrom(ready, CrossLinkPass())
  {
    CrossLinksGrounded(CrossEnd, ready);
  }

  /** Once [1, 401) is signalled, the timing pass waits only on signalled events or its own earlier commands. */
  lemma {:induction false} TimingPassGrounded(ready: set<nat>)
    requires forall j :: 1 <= j < 401 ==> j in ready
    ensures GroundedFrom(ready, TimingPass())
  {
    TimingGrounded(TimingEnd, ready);
  }

  /**
    The builder never waits on an event that no earlier command signals:
    submitted in order, every wait of the graph can be satisfied.
  */
  lemma {:induction false} GraphLogGrounded()
    ensures Grounded(GraphLog())
  {
    PhasePassGrounded();
    var ready := Signals(PhasePass());
    CrossLinkPassGrounded(ready);
    TimingPassGrounded(ready);
    HubGrounded(ready);
    GroundedStages(PhasePass(), CrossLinkPass(), TimingPass(), HubPass(), ready);
  }
}
