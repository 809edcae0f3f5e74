/**
 * What a hart running the firmware does to its timer: the first arming, then handler runs on traps.
 * The history says nothing of others; what it achieves holds when they leave the timer alone.
 */
module TimerHistory {
  import opened Device
  import opened Runs
  import Timebase
  import opened Interrupts
  import opened TimeAccess
  import opened Compare
  import opened Arming

  /**
   * One hart's doings since cycle `from`: the first arming, by reading `q` and update `k`; the handler
   * runs `ss`; the states in which its traps were on; the cycles of all its own accesses.
   */
  datatype Log = Log(from: nat, q: Round, k: Call, ss: seq<Service>, traps: set<nat>, own: set<nat>)

  /** The cycles of a three-store update. */
  function StoresOf(k: Call): set<nat> { {k.a, k.b, k.d} }

  /** The hart's own accesses are loads, but for the stores of its armings. */
  ghost predicate OwnWrites(run: Run, log: Log)
  {
    forall t :: t in log.own && log.from <= t < |run.ins| ==>
      !run.WritesTimeAt(t) && (run.ins[t].wstrb != 0 ==> t in StoresOf(log.k) || Serving(log.ss, t))
  }

  /** Traps were off until the first arming was done, and the handler ran only on traps. */
  ghost predicate History(run: Run, log: Log, first: nat, offset: nat)
    requires run.Valid()
  {
    && log.from <= log.q.a && Arms(run, log.q, log.k, first)
    && (forall t :: t in log.traps && t > log.from ==> t > log.k.d)
    && Entries(run, log.traps, log.ss, offset, |run.ins|)
    && (log.ss != [] ==> log.k.d < log.ss[0].entry)
    && (forall t :: t in log.own ==> t < |run.ins|)
    && OwnWrites(run, log)
  }

  /** On the cycles from `from` on that are not the driver's, nobody writes `mtime` or hart 0's compare. */
  ghost predicate Undisturbed(run: Run, own: set<nat>, from: nat)
  {
    forall t :: from <= t < |run.ins| && t !in own ==> !run.WritesTimeAt(t) && !run.WritesCmpAt(t, 0)
  }

  /** `mtime` does not wrap before the last state, with room for one more interval. */
  ghost predicate RoomFor(run: Run, start: nat, interval: nat)
    requires run.Valid() && start <= |run.ins|
  {
    run.Time(start) + run.Pulses(start, |run.ins|) + interval <= MAX_TIME
  }

  // ----- how a history grows -----

  lemma EnteredKept(run: Run, longer: Run, traps: set<nat>, traps': set<nat>, ss: seq<Service>, more: seq<Service>,
                    offset: nat, i: nat)
    requires run.Valid() && longer.Valid() && run.Begins(longer) && traps <= traps' && i < |ss|
    requires Entered(run, traps, ss, offset, |run.ins|, i)
    ensures Entered(longer, traps', ss + more, offset, |longer.ins|, i)
  {
    ArmsKept(run, longer, ss[i].q, ss[i].k, offset);
    assert longer.states[ss[i].entry] == run.states[ss[i].entry];
  }

  lemma EntriesKept(run: Run, longer: Run, traps: set<nat>, traps': set<nat>, ss: seq<Service>, offset: nat)
    requires run.Valid() && longer.Valid() && run.Begins(longer) && traps <= traps'
    requires Entries(run, traps, ss, offset, |run.ins|)
    ensures Entries(longer, traps', ss, offset, |longer.ins|)
  {
    forall i: nat | i < |ss| ensures Entered(longer, traps', ss, offset, |longer.ins|, i) {
      assert Entered(run, traps, ss, offset, |run.ins|, i);
      EnteredKept(run, longer, traps, traps', ss, [], offset, i);
      assert ss + [] == ss;
    }
  }

  /** Each further handler run, entered on a trap after the last one finished, is one more entry. */
  lemma EntriesGrow(run: Run, longer: Run, traps: set<nat>, traps': set<nat>, ss: seq<Service>, s: Service, offset: nat)
    requires run.Valid() && longer.Valid() && run.Begins(longer) && traps <= traps'
    requires Entries(run, traps, ss, offset, |run.ins|)
    requires Rearms(longer, s, offset) && |run.ins| <= s.entry && longer.Tip(s.entry, 0) && s.entry in traps'
    ensures Entries(longer, traps', ss + [s], offset, |longer.ins|)
  {
    var n, grown := |ss|, ss + [s];
    forall i: nat | i < |grown| ensures Entered(longer, traps', grown, offset, |longer.ins|, i) {
      if i < n {
        assert Entered(run, traps, ss, offset, |run.ins|, i);
        EnteredKept(run, longer, traps, traps', ss, [s], offset, i);
      } else if n > 0 {
        assert Entered(run, traps, ss, offset, |run.ins|, n - 1);
      }
    }
  }

  /** The driver's accesses since `from` are loads, but for the stores of `k`. */
  ghost predicate OnlyStores(run: Run, own: set<nat>, from: nat, k: Call)
  {
    forall t :: t in own && from <= t < |run.ins| ==>
      !run.WritesTimeAt(t) && (run.ins[t].wstrb != 0 ==> t in StoresOf(k))
  }

  lemma OwnWritesGrow(run: Run, longer: Run, log: Log, log': Log, s: Service)
    requires run.Begins(longer) && OwnWrites(run, log)
    requires log' == log.(ss := log.ss + [s], own := log'.own, traps := log'.traps)
    requires forall t :: t in log.own ==> t < |run.ins|
    requires forall t :: t in log'.own ==> t in log.own || t >= |run.ins|
    requires OnlyStores(longer, log'.own, |run.ins|, s.k)
    ensures OwnWrites(longer, log')
  {
    forall t | t in log'.own && log.from <= t < |longer.ins|
      ensures !longer.WritesTimeAt(t) && (longer.ins[t].wstrb != 0 ==> t in StoresOf(log.k) || Serving(log'.ss, t))
    {
      if t in log.own {
        assert run.ins[t] == longer.ins[t];
        if s' :| s' in log.ss && (t == s'.k.a || t == s'.k.b || t == s'.k.d) {
          assert s' in log'.ss;
        }
      } else if longer.ins[t].wstrb != 0 {
        assert s in log'.ss;
      }
    }
  }

  /** Cycles on which the hart makes no access keep its history. */
  lemma HistoryWaits(run: Run, longer: Run, log: Log, traps: set<nat>, first: nat, offset: nat)
    requires run.Valid() && longer.Valid() && run.Begins(longer) && History(run, log, first, offset)
    requires log.traps <= traps && forall t :: t in traps ==> t in log.traps || t >= |run.ins|
    ensures History(longer, log.(traps := traps), first, offset)
  {
    ArmsKept(run, longer, log.q, log.k, first);
    EntriesKept(run, longer, log.traps, traps, log.ss, offset);
    assert forall t :: 0 <= t < |run.ins| ==> longer.ins[t] == run.ins[t];
  }

  /** A handler run taken on a trap extends it. */
  lemma HistoryServes(run: Run, longer: Run, log: Log, log': Log, s: Service, first: nat, offset: nat)
    requires run.Valid() && longer.Valid() && run.Begins(longer) && History(run, log, first, offset)
    requires log' == log.(ss := log.ss + [s], own := log'.own, traps := log'.traps)
    requires log.traps <= log'.traps && forall t :: t in log'.traps ==> t in log.traps || t >= |run.ins|
    requires Rearms(longer, s, offset) && |run.ins| <= s.entry && longer.Tip(s.entry, 0) && s.entry in log'.traps
    requires forall t :: t in log'.own ==> t in log.own || |run.ins| <= t < |longer.ins|
    requires OnlyStores(longer, log'.own, |run.ins|, s.k)
    ensures History(longer, log', first, offset)
  {
    ArmsKept(run, longer, log.q, log.k, first);
    EntriesGrow(run, longer, log.traps, log'.traps, log.ss, s, offset);
    OwnWritesGrow(run, longer, log, log', s);
  }

  // ----- what it achieves when nobody else touches the timer -----

  ghost predicate Unhindered(run: Run, log: Log, first: nat, offset: nat)
    requires run.Valid()
  {
    History(run, log, first, offset) && Undisturbed(run, log.own, log.from)
  }

  lemma QuietHistory(run: Run, log: Log, first: nat, offset: nat)
    requires run.Valid() && Unhindered(run, log, first, offset)
    ensures run.TimeQuiet(log.from, |run.ins|)
    ensures forall t :: log.from <= t < |run.ins| && run.WritesCmpAt(t, 0) ==> t in StoresOf(log.k) || Serving(log.ss, t)
  {
  }

  /** Hart 0's compare register is written only by the first arming until the first handler run stores. */
  lemma FirstArmingAlone(run: Run, log: Log, first: nat, offset: nat, t: nat)
    requires run.Valid() && Unhindered(run, log, first, offset)
    requires log.k.d < t <= |run.ins| && (log.ss != [] ==> t <= log.ss[0].entry)
    ensures Alone(run, log.k, t)
  {
    QuietHistory(run, log, first, offset);
    forall u | log.k.a <= u < t && u !in StoresOf(log.k) ensures !run.WritesCmpAt(u, 0) {
      if run.WritesCmpAt(u, 0) {
        assert Serving(log.ss, u);
        var s :| s in log.ss && (u == s.k.a || u == s.k.b || u == s.k.d);
        var i: nat :| i < |log.ss| && log.ss[i] == s;
        AfterFirstEntry(run, log.traps, log.ss, offset, |run.ins|, i);
        EntryBounds(run, log.traps, log.ss, offset, |run.ins|, i);
        assert false;
      }
    }
  }

  /** From the first arming to the first handler run, the line is high exactly from the first deadline on. */
  lemma FirstLine(run: Run, log: Log, first: nat, offset: nat, t: nat)
    requires run.Valid() && Unhindered(run, log, first, offset) && RoomFor(run, log.from, first)
    requires log.k.d < t <= |run.ins| && (log.ss != [] ==> t <= log.ss[0].entry)
    ensures run.Cmp(t, 0) == run.Time(log.q.b) + first
    ensures run.Tip(t, 0) <==> run.Time(t) >= run.Time(log.q.b) + first
  {
    var n := |run.ins|;
    QuietHistory(run, log, first, offset);
    FirstArmingAlone(run, log, first, offset, t);
    SteadyTime(run, log.from, log.q.a, t, n);
    SteadyTime(run, log.from, log.from, log.q.b, n);
    PulsesSplit(run, log.from, log.q.b, n);
    ArmedLine(run, log.q, log.k, first, t);
  }

  /**
   * The first trap is never early: in any state since the history began in which traps were on and
   * the line high, up to the first handler entry, the first interval has passed since the reading.
   */
  lemma FirstTrapIsDue(run: Run, log: Log, first: nat, offset: nat, t: nat)
    requires run.Valid() && Unhindered(run, log, first, offset) && RoomFor(run, log.from, first)
    requires t in log.traps && log.from < t <= |run.ins| && run.Tip(t, 0)
    requires log.ss != [] ==> t <= log.ss[0].entry
    ensures run.Time(t) >= run.Time(log.q.b) + first
  {
    FirstLine(run, log, first, offset, t);
  }

  /** The handler runs of an undisturbed history are periodic. */
  lemma HistoryIsPeriodic(run: Run, log: Log, first: nat, offset: nat)
    requires run.Valid() && Unhindered(run, log, first, offset) && RoomFor(run, log.from, offset) && log.ss != []
    ensures Periodic(run, log.traps, log.ss, offset, |run.ins|)
  {
    var n, e := |run.ins|, log.ss[0].entry;
    QuietHistory(run, log, first, offset);
    EntryBounds(run, log.traps, log.ss, offset, n, 0);
    SteadyTime(run, log.from, e, n, n);
    SteadyTime(run, log.from, log.from, e, n);
    PulsesSplit(run, log.from, e, n);
  }

  /**
   * The whole history in one bound: the i-th handler run answers a deadline that has passed, and that
   * lies at least the first interval and i further ones after the first reading.
   */
  lemma HistoryDeadlines(run: Run, log: Log, first: nat, offset: nat, i: nat)
    requires run.Valid() && Unhindered(run, log, first, offset) && i < |log.ss|
    requires RoomFor(run, log.from, first) && RoomFor(run, log.from, offset)
    ensures log.ss[i].entry <= |run.ins|
    ensures run.Time(log.q.b) + first + i * offset <= Deadline(run, log.ss, i) <= run.Time(log.ss[i].entry)
  {
    HistoryIsPeriodic(run, log, first, offset);
    EntryInRange(run, log.traps, log.ss, offset, |run.ins|, 0);
    EntryInRange(run, log.traps, log.ss, offset, |run.ins|, i);
    FirstLine(run, log, first, offset, log.ss[0].entry);
    DeadlinesSpaced(run, log.traps, log.ss, offset, |run.ins|, i);
  }

  // ----- the exact schedule -----

  /** How many of the handler runs were entered before state `t`. */
  ghost function Served(ss: seq<Service>, t: nat): (i: nat)
    ensures i <= |ss|
    ensures i > 0 ==> ss[i - 1].entry < t
    ensures i < |ss| ==> t <= ss[i].entry
  {
    if ss == [] then 0
    else if ss[|ss| - 1].entry < t then |ss|
    else Served(ss[..|ss| - 1], t)
  }

  /** The low-word load that the deadline in force in state `t` was reckoned from. */
  ghost function Reading(log: Log, t: nat): nat
  {
    var i := Served(log.ss, t);
    if i == 0 then log.q.b else log.ss[i - 1].q.b
  }

  /** And the interval it was set at. */
  ghost function Interval(log: Log, t: nat, first: nat, offset: nat): nat
  {
    if Served(log.ss, t) == 0 then first else offset
  }

  /** State `t` comes after the first arming, and no handler run is under way in it. */
  ghost predicate Idle(log: Log, t: nat)
  {
    log.k.d < t && forall s :: s in log.ss && s.entry < t ==> s.k.d < t
  }

  lemma ReadingIsPast(run: Run, log: Log, first: nat, offset: nat, t: nat)
    requires run.Valid() && History(run, log, first, offset) && Idle(log, t) && t <= |run.ins|
    ensures log.from <= Reading(log, t) < t
  {
    var i := Served(log.ss, t);
    if i > 0 {
      EntryBounds(run, log.traps, log.ss, offset, |run.ins|, i - 1);
      AfterFirstEntry(run, log.traps, log.ss, offset, |run.ins|, i - 1);
      assert log.ss[i - 1] in log.ss;
    }
  }

  /**
   * The exact line of an undisturbed history, in every state in which no handler run is under way: it is
   * high exactly if the interval in force has passed since the reading in force.
   */
  lemma HistoryLine(run: Run, log: Log, first: nat, offset: nat, t: nat)
    requires run.Valid() && Unhindered(run, log, first, offset) && Idle(log, t) && t <= |run.ins|
    requires RoomFor(run, log.from, first) && RoomFor(run, log.from, offset)
    ensures Reading(log, t) <= |run.ins|
    ensures run.Tip(t, 0) <==> run.Time(t) >= run.Time(Reading(log, t)) + Interval(log, t, first, offset)
  {
    var i := Served(log.ss, t);
    ReadingIsPast(run, log, first, offset, t);
    if i == 0 {
      FirstLine(run, log, first, offset, t);
    } else {
      HistoryIsPeriodic(run, log, first, offset);
      assert log.ss[i - 1] in log.ss;
      ServiceStep(run, log.traps, log.ss, offset, |run.ins|, i - 1, t);
    }
  }

  /** The same in clock cycles from reset. */
  lemma HistoryLineInCycles(run: Run, log: Log, first: nat, offset: nat, t: nat)
    requires run.FromReset() && Timebase.Ticking(run.c) && first > 0 && offset > 0
    requires Unhindered(run, log, first, offset) && Idle(log, t) && t <= |run.ins|
    requires RoomFor(run, log.from, first) && RoomFor(run, log.from, offset)
    ensures run.Tip(t, 0) <==> t >= DueCycle(Period(run.c), Reading(log, t), Interval(log, t, first, offset))
  {
    var b := Reading(log, t);
    HistoryLine(run, log, first, offset, t);
    ReadingIsPast(run, log, first, offset, t);
    QuietHistory(run, log, first, offset);
    SteadyTime(run, log.from, b, t, |run.ins|);
    DueInCycles(run, b, Interval(log, t, first, offset), t);
  }
}
