/**
  The record every Level Zero "append" call of the harness leaves behind.

  Both programs drive immediate command lists: each zeCommandListAppend* call
  names at most one event the command signals when it completes and a list of
  events it waits on before it starts. The model keeps exactly that, as a
  `Command`, and a program run as the sequence of its appends (the command
  log). Events are named by their index in the program's `events[]` array,
  which in both programs is also the event's slot in its pool.

  What the device does with the commands is not modelled; the properties here
  are about the log alone.
*/
module Commands {

  datatype Option<T> = None | Some(value: T)

  /** The five append calls the harness uses. */
  datatype Kind =
    | Fill        // zeCommandListAppendMemoryFill
    | Timestamp   // zeCommandListAppendWriteGlobalTimestamp
    | Copy        // zeCommandListAppendMemoryCopy
    | Barrier     // zeCommandListAppendBarrier
    | Launch      // zeCommandListAppendLaunchKernel

  /** One appended command: on which list, which event it signals, which events it waits on. */
  datatype Command = Command(kind: Kind, list: nat, signal: nat, waits: seq<nat>)

  /** An event handle as zeEventCreate leaves it: its pool slot and whether it is signalled. */
  datatype Event = Event(slot: nat, signalled: bool)

  /** A fixed-capacity event pool (zeEventPoolCreate's `count`). */
  datatype Pool = Pool(capacity: nat)

  /** `e` is the command's completion event or one of the events it waits on. */
  predicate Touches(c: Command, e: nat)
  {
    c.signal == e || e in c.waits
  }

  /** Every event the command touches lies in [lo, hi). */
  predicate CommandWithin(c: Command, lo: int, hi: int)
  {
    lo <= c.signal < hi && forall w :: w in c.waits ==> lo <= w < hi
  }

  /** Every event the log touches lies in [lo, hi). */
  predicate LogWithin(log: seq<Command>, lo: int, hi: int)
  {
    forall c :: c in log ==> CommandWithin(c, lo, hi)
  }

  /** No command waits on its own completion event. */
  predicate NoSelfWait(log: seq<Command>)
  {
    forall c :: c in log ==> c.signal !in c.waits
  }

  /** Every command of the log satisfies `P`. */
  ghost predicate AllCommands(log: seq<Command>, P: Command -> bool)
  {
    forall c :: c in log ==> P(c)
  }

  /** The events signalled by some command of the log. */
  function Signals(log: seq<Command>): set<nat>
  {
    set c | c in log :: c.signal
  }

  /** Some command before position `k` signals `e`. */
  ghost predicate SignalledBefore(log: seq<Command>, k: int, e: nat)
  {
    exists j :: 0 <= j < k && j < |log| && log[j].signal == e
  }

  /**
    Every event a command waits on is either in `ready` or the completion
    event of an earlier command of the log.
  */
  ghost predicate GroundedFrom(ready: set<nat>, log: seq<Command>)
  {
    forall k, w :: 0 <= k < |log| && w in log[k].waits ==> w in ready || SignalledBefore(log, k, w)
  }

  /**
    No command waits on an event that no earlier command signals: executing
    the log in submission order never blocks on a wait that nothing can satisfy.
  */
  ghost predicate Grounded(log: seq<Command>)
  {
    GroundedFrom({}, log)
  }

  /** No event is the completion event of two commands (no event reuse). */
  predicate UniqueSignals(log: seq<Command>)
  {
    forall j, k :: 0 <= j < k < |log| ==> log[j].signal != log[k].signal
  }

  /** A dependency edge a -> b: some command signals b after waiting on a. */
  ghost predicate Edge(log: seq<Command>, a: nat, b: nat)
  {
    exists k :: 0 <= k < |log| && log[k].signal == b && a in log[k].waits
  }

  /** `p` is a walk along dependency edges. */
  ghost predicate IsPath(log: seq<Command>, p: seq<nat>)
  {
    |p| >= 1 && forall i :: 0 <= i < |p| - 1 ==> Edge(log, p[i], p[i + 1])
  }

  /** An edge of a stretch of the log is an edge of the whole log. */
  lemma {:induction false} EdgeInInfix(before: seq<Command>, log: seq<Command>, after: seq<Command>, a: nat, b: nat)
    requires Edge(log, a, b)
    ensures Edge(before + log + after, a, b)
  {
    var k :| 0 <= k < |log| && log[k].signal == b && a in log[k].waits;
    assert (before + log + after)[|before| + k] == log[k];
  }

  /** The position of the command that signals `e`, in a log without event reuse. */
  ghost function Producer(log: seq<Command>, e: nat): (k: nat)
    requires UniqueSignals(log)
    requires exists j :: 0 <= j < |log| && log[j].signal == e
    ensures k < |log| && log[k].signal == e
    ensures forall j :: 0 <= j < |log| && log[j].signal == e ==> j == k
  {
    var j :| 0 <= j < |log| && log[j].signal == e;
    j
  }

  /** Appending a grounded suffix to a grounded prefix keeps the log grounded. */
  lemma {:induction false} GroundedConcat(ready: set<nat>, a: seq<Command>, b: seq<Command>)
    requires GroundedFrom(ready, a)
    requires GroundedFrom(ready + Signals(a), b)
    ensures GroundedFrom(ready, a + b)
  {
    var ab := a + b;
    forall k, w | 0 <= k < |ab| && w in ab[k].waits
      ensures w in ready || SignalledBefore(ab, k, w)
    {
      if k < |a| {
        assert ab[k] == a[k];
        if w !in ready {
          var j :| 0 <= j < k && j < |a| && a[j].signal == w;
          assert ab[j] == a[j];
        }
      } else {
        assert ab[k] == b[k - |a|];
        assert w in ready + Signals(a) || SignalledBefore(b, k - |a|, w);
        if w !in ready {
          if w in Signals(a) {
            var c :| c in a && c.signal == w;
            var j :| 0 <= j < |a| && a[j] == c;
            assert ab[j] == a[j];
          } else {
            var j :| 0 <= j < k - |a| && j < |b| && b[j].signal == w;
            assert ab[j + |a|] == b[j];
          }
        }
      }
    }
  }

  /** Two logs each grounded on `ready` alone are grounded one after the other. */
  lemma {:induction false} GroundedUnion(ready: set<nat>, a: seq<Command>, b: seq<Command>)
    requires GroundedFrom(ready, a) && GroundedFrom(ready, b)
    ensures GroundedFrom(ready, a + b)
  {
    GroundedWeaken(ready, ready + Signals(a), b);
    GroundedConcat(ready, a, b);
  }

  lemma {:induction false} LogWithinConcat(a: seq<Command>, b: seq<Command>, lo: int, hi: int)
    requires LogWithin(a, lo, hi) && LogWithin(b, lo, hi)
    ensures LogWithin(a + b, lo, hi)
  {
  }

  lemma {:induction false} LogWithinWiden(log: seq<Command>, lo: int, hi: int, lo': int, hi': int)
    requires LogWithin(log, lo, hi) && lo' <= lo && hi <= hi'
    ensures LogWithin(log, lo', hi')
  {
    forall c | c in log ensures CommandWithin(c, lo', hi') {
      assert CommandWithin(c, lo, hi);
    }
  }

  lemma {:induction false} NoSelfWaitConcat(a: seq<Command>, b: seq<Command>)
    requires NoSelfWait(a) && NoSelfWait(b)
    ensures NoSelfWait(a + b)
  {
  }

  lemma {:induction false} AllCommandsConcat(a: seq<Command>, b: seq<Command>, P: Command -> bool)
    requires AllCommands(a, P) && AllCommands(b, P)
    ensures AllCommands(a + b, P)
  {
  }

  lemma {:induction false} SignalsConcat(a: seq<Command>, b: seq<Command>)
    ensures Signals(a + b) == Signals(a) + Signals(b)
  {
  }

  /** More ready events never make a grounded log ungrounded. */
  lemma {:induction false} GroundedWeaken(ready: set<nat>, more: set<nat>, log: seq<Command>)
    requires GroundedFrom(ready, log) && ready <= more
    ensures GroundedFrom(more, log)
  {
  }

  /**
    Four grounded stages run one after the other: when the first signals all
    of `ready` and each later stage waits only on `ready` or on its own
    earlier commands, the whole run is grounded.
  */
  lemma {:induction false} GroundedStages(p: seq<Command>, x: seq<Command>, t: seq<Command>, h: seq<Command>, ready: set<nat>)
    requires Grounded(p) && ready <= Signals(p)
    requires GroundedFrom(ready, x) && GroundedFrom(ready, t) && GroundedFrom(ready, h)
    ensures Grounded(p + x + t + h)
  {
    SignalsConcat(p, x);
    SignalsConcat(p + x, t);
    GroundedWeaken(ready, {} + Signals(p), x);
    GroundedConcat({}, p, x);
    GroundedWeaken(ready, {} + Signals(p + x), t);
    GroundedConcat({}, p + x, t);
    GroundedWeaken(ready, {} + Signals(p + x + t), h);
    GroundedConcat({}, p + x + t, h);
  }

  lemma {:induction false} InLastStage(c: Command, p: seq<Command>, x: seq<Command>, t: seq<Command>, h: seq<Command>)
    requires c in h
    ensures c in p + x + t + h
  {
    var k :| 0 <= k < |h| && h[k] == c;
    assert (p + x + t + h)[|p + x + t| + k] == c;
  }

  /**
    In a grounded log without event reuse, the position of an event's
    producer strictly increases along every dependency edge.
  */
  lemma {:induction false} EdgeGoesForward(log: seq<Command>, a: nat, b: nat)
    requires UniqueSignals(log) && Grounded(log)
    requires Edge(log, a, b)
    ensures exists j :: 0 <= j < |log| && log[j].signal == a
    ensures exists j :: 0 <= j < |log| && log[j].signal == b
    ensures Producer(log, a) < Producer(log, b)
  {
    var k :| 0 <= k < |log| && log[k].signal == b && a in log[k].waits;
    assert SignalledBefore(log, k, a);
    var j :| 0 <= j < k && j < |log| && log[j].signal == a;
    assert Producer(log, a) == j;
    assert Producer(log, b) == k;
  }

  /**
    A grounded log without event reuse has no circular dependency: no walk of
    one or more dependency edges returns to the event it started from.
  */
  lemma {:induction false} NoCircularDependency(log: seq<Command>, p: seq<nat>)
    requires UniqueSignals(log) && Grounded(log)
    requires IsPath(log, p) && |p| >= 2
    ensures exists j :: 0 <= j < |log| && log[j].signal == p[0]
    ensures exists j :: 0 <= j < |log| && log[j].signal == p[|p| - 1]
    ensures Producer(log, p[0]) < Producer(log, p[|p| - 1])
    ensures p[0] != p[|p| - 1]
    decreases |p|
  {
    EdgeGoesForward(log, p[|p| - 2], p[|p| - 1]);
    if |p| > 2 {
      var q := p[..|p| - 1];
      assert IsPath(log, q) by {
        forall i | 0 <= i < |q| - 1 ensures Edge(log, q[i], q[i + 1]) {
          assert q[i] == p[i] && q[i + 1] == p[i + 1];
        }
      }
      NoCircularDependency(log, q);
    }
  }

  // ---------------------------------------------------------------------------
  // Event creation

  /**
    zeEventCreate at `slot` followed by zeEventHostReset: the event exists only
    when the slot lies inside the pool, and it starts unsignalled.
  */
  function CreateEvent(pool: Pool, slot: nat): (r: Option<Event>)
    ensures r.Some? <==> slot < pool.capacity
    ensures r.Some? ==> r.value.slot == slot && !r.value.signalled
  {
    if slot < pool.capacity then Some(Event(slot, false)) else None
  }

  /**
    The creation loop `for (i = lo; i < hi; i++)` writing `events[i]` at pool
    slot `i`. The first failing creation ends the program (the harness exits
    on any error), so `ok` is false and the entries from that slot on are left
    as they were.
  */
  method CreateEvents(pool: Pool, events: array<Option<Event>>, lo: nat, hi: nat) returns (ok: bool)
    requires hi <= events.Length
    modifies events
    ensures ok <==> (hi <= lo || hi <= pool.capacity)
    ensures forall i :: lo <= i < hi && i < pool.capacity ==> events[i] == Some(Event(i, false))
    ensures forall i :: 0 <= i < events.Length && !(lo <= i < hi && i < pool.capacity) ==> events[i] == old(events[i])
  {
    var i := lo;
    while i < hi
      invariant lo <= i && (i <= hi || i == lo)
      invariant i == lo || i <= pool.capacity
      invariant forall j :: lo <= j < i ==> events[j] == Some(Event(j, false))
      invariant forall j :: 0 <= j < events.Length && !(lo <= j < i) ==> events[j] == old(events[j])
    {
      var e := CreateEvent(pool, i);
      if e.None? {
        return false;
      }
      events[i] := e;
      i := i + 1;
    }
    return true;
  }
}
