/** The example firmware: arming the timer before traps are enabled, and the handler that re-arms it. */
module ExampleFirmware {
  import opened Words
  import opened Device
  import opened Runs
  import opened TimeAccess
  import opened Compare
  import opened SystemBus
  import opened Driver
  import opened Arming
  import opened TimerHistory

  /** `MTIMER_SECONDS_TO_CLOCKS` of 0.001 and of 1, at 100 kHz. */
  const FIRST_INTERVAL: Double := 100
  const INTERVAL: Double := 100000

  const MCAUSE_INTERRUPT: Word := 0x8000_0000
  const INT_POS_MTI: nat := 7

  /** `main`'s accesses, on top of `before`: a timestamp, then the reading and stores of the first arming. */
  ghost predicate Booted(run: Run, before: set<nat>, own: set<nat>, from: nat,
                         stamp: seq<Round>, passes: seq<Round>, k: Call)
    requires run.Valid()
  {
    && Read(run, stamp, from) && Read(run, passes, stamp[|stamp| - 1].d + 1)
    && Arms(run, passes[|passes| - 1], k, 100)
    && own == before + Positions(stamp) + Positions(passes) + StoresOf(k)
  }

  /** The handler's accesses, on top of `before`: the reading and stores of its arming, then a timestamp. */
  ghost predicate Handled(run: Run, before: set<nat>, own: set<nat>, s: Service, passes: seq<Round>, stamp: seq<Round>)
    requires run.Valid()
  {
    && Rearms(run, s, 100000)
    && Read(run, passes, s.entry) && s.q == passes[|passes| - 1]
    && Read(run, stamp, s.k.d + 1)
    && own == before + Positions(passes) + Positions(stamp) + StoresOf(s.k)
  }

  /** The lengths of two polling reads and the value of an update: all that is open in a piece of the firmware. */
  datatype Work = Work(passes: nat, time: Double, stamp: nat)

  function BootScript(s: Script, base: int, w: Work): Script
  {
    Update(Polling(Polling(s, base, w.stamp), base, w.passes), base, 0, w.time)
  }

  function HandlerScript(s: Script, base: int, w: Work): Script
  {
    Polling(Update(Polling(s, base, w.passes), base, 0, w.time), base, w.stamp)
  }

  /** The end of a wait: the handler's accesses, or none. */
  function EndScript(s: Script, base: int, w: Option<Work>): Script
  {
    if w.Some? then HandlerScript(s, base, w.value) else s
  }

  function RunScript(s: Script, base: int, waits: seq<seq<Cycle>>, works: seq<Option<Work>>): Script
    requires |waits| == |works|
  {
    if waits == [] then s
    else
      var n := |waits| - 1;
      EndScript(RunScript(s, base, waits[..n], works[..n]).Do(Pause(waits[n])), base, works[n])
  }

  lemma RunScriptMore(s: Script, base: int, waits: seq<seq<Cycle>>, works: seq<Option<Work>>,
                      wait: seq<Cycle>, w: Option<Work>)
    requires |waits| == |works|
    ensures RunScript(s, base, waits + [wait], works + [w])
         == EndScript(RunScript(s, base, waits, works).Do(Pause(wait)), base, w)
  {
    assert (waits + [wait])[..|waits|] == waits && (works + [w])[..|works|] == works;
  }

  // ----- the latest timestamp -----

  /** `time` is the result of the polling read `stamp`, made before the first arming or after the last handler's. */
  ghost predicate StampedBy(run: Run, log: Log, time: Double, stamp: seq<Round>)
    requires run.Valid()
  {
    && Read(run, stamp, if log.ss == [] then log.from else log.ss[|log.ss| - 1].k.d + 1)
    && time == Result(run, stamp) && (log.ss == [] ==> stamp[|stamp| - 1].d < log.q.a)
  }

  ghost predicate Stamped(run: Run, log: Log, time: Double)
    requires run.Valid()
  {
    exists stamp :: StampedBy(run, log, time, stamp)
  }

  lemma StampWaits(run: Run, longer: Run, log: Log, traps: set<nat>, time: Double)
    requires run.Valid() && longer.Valid() && run.Begins(longer) && Stamped(run, log, time)
    ensures Stamped(longer, log.(traps := traps), time)
  {
    var stamp :| StampedBy(run, log, time, stamp);
    ReadKept(run, longer, stamp, if log.ss == [] then log.from else log.ss[|log.ss| - 1].k.d + 1);
    assert StampedBy(longer, log.(traps := traps), time, stamp);
  }

  lemma ArmedThenStamped(armed: Run, run: Run, before: set<nat>, own: set<nat>, s: Service,
                         passes: seq<Round>, stamp: seq<Round>)
    requires armed.Valid() && run.Valid() && armed.Begins(run) && Read(armed, passes, s.entry)
    requires s.q == passes[|passes| - 1] && Arms(armed, s.q, s.k, INTERVAL) && s.k.d + 1 == |armed.ins|
    requires Read(run, stamp, |armed.ins|) && own == before + Positions(passes) + StoresOf(s.k)
    ensures Handled(run, before, own + Positions(stamp), s, passes, stamp)
  {
    ReadOrder(armed, passes, s.entry);
    ReadKept(armed, run, passes, s.entry);
    ArmsKept(armed, run, s.q, s.k, INTERVAL);
  }

  /** The state `main` leaves is a history with no handler run yet. */
  lemma BootStartsHistory(run: Run, before: set<nat>, own: set<nat>, from: nat,
                          stamp: seq<Round>, passes: seq<Round>, k: Call, traps: set<nat>)
    requires run.Valid() && Booted(run, before, own, from, stamp, passes, k)
    requires (forall t :: t in before ==> t < from) && (forall t :: t in own ==> t < |run.ins|)
    requires forall t :: t in traps ==> t <= from || t > k.d
    ensures History(run, Log(from, passes[|passes| - 1], k, [], traps, own), FIRST_INTERVAL, INTERVAL)
    ensures Stamped(run, Log(from, passes[|passes| - 1], k, [], traps, own), Result(run, stamp))
  {
    ReadsAndStores(run, own, before, stamp, passes, k, from);
    ReadOrder(run, stamp, from);
    ReadOrder(run, passes, stamp[|stamp| - 1].d + 1);
    assert StampedBy(run, Log(from, passes[|passes| - 1], k, [], traps, own), Result(run, stamp), stamp);
  }

  // ----- what the whole firmware is for -----

  ghost predicate AnswersAt(ss: seq<Service>, e: nat)
  {
    exists s :: s in ss && s.entry == e
  }

  /** The handler ran from those of the states `ends` in which the line was high, and from no other. */
  ghost predicate Answered(run: Run, ss: seq<Service>, ends: seq<nat>)
    requires run.Valid()
  {
    && (forall e :: e in ends ==> e <= |run.ins| && (run.Tip(e, 0) <==> AnswersAt(ss, e)))
    && (forall s :: s in ss ==> s.entry in ends)
  }

  lemma AnsweredMore(run: Run, longer: Run, log: Log, log': Log, ends: seq<nat>, e: nat)
    requires run.Valid() && longer.Valid() && run.Begins(longer) && Answered(run, log.ss, ends)
    requires History(longer, log', FIRST_INTERVAL, INTERVAL) && |run.ins| <= e <= |longer.ins|
    requires if longer.Tip(e, 0) then exists s :: log'.ss == log.ss + [s] && s.entry == e else log'.ss == log.ss
    ensures Answered(longer, log'.ss, ends + [e])
  {
    forall s | s in log'.ss ensures s.entry in ends + [e] {
      if s in log.ss {
        assert s.entry in ends;
      }
    }
    forall x | x in ends + [e] ensures x <= |longer.ins| && (longer.Tip(x, 0) <==> AnswersAt(log'.ss, x)) {
      if s :| s in log'.ss && s.entry == x {
        var i: nat :| i < |log'.ss| && log'.ss[i] == s;
        EntryBounds(longer, log'.traps, log'.ss, INTERVAL, |longer.ins|, i);
      }
      if x in ends {
        assert longer.states[x] == run.states[x];
        if s :| s in log.ss && s.entry == x {
          assert s in log'.ss;
        }
      } else if longer.Tip(e, 0) {
        var s :| log'.ss == log.ss + [s] && s.entry == e;
        assert s in log'.ss;
      }
    }
  }

  /**
   * Wait number `i` let the cycles `waits[i]` pass, none of them the hart's own, and ended in state `ends[i]`.
   * It began right after the boot, or right where the previous wait ended with the line low, or
   * when the trap taken at that end was over.
   */
  ghost predicate WaitAt(run: Run, log: Log, waits: seq<seq<Cycle>>, ends: seq<nat>, works: seq<Option<Work>>, i: nat)
    requires run.Valid() && |ends| == |waits| == |works| && i < |ends|
  {
    var start := ends[i] - |waits[i]|;
    && ResumesAt(run, log, ends[..i], start)
    && start <= ends[i] <= |run.ins| && run.ins[start..ends[i]] == waits[i]
    && (forall t :: t in log.own ==> t < start || t >= ends[i])
    && Idle(log, ends[i])
    && Worked(run, log.ss, ends[i], works[i])
  }

  /** The accesses at the end `e` of a wait: those of the handler run entered there, if the line is high. */
  ghost predicate Worked(run: Run, ss: seq<Service>, e: nat, w: Option<Work>)
    requires run.Valid()
  {
    && e <= |run.ins| && (w.Some? <==> run.Tip(e, 0))
    && (w.Some? ==> exists s :: s in ss && s.entry == e && s.k.time == w.value.time)
  }

  /** After the waits that ended in `ends`, the next one begins in state `start`. */
  ghost predicate ResumesAt(run: Run, log: Log, ends: seq<nat>, start: int)
    requires run.Valid()
  {
    if ends == [] then start == log.k.d + 1
    else
      var end := ends[|ends| - 1];
      end <= start && end <= |run.ins| && (!run.Tip(end, 0) ==> start == end)
  }

  /** The waits so far, and the handler runs that answered their ends. */
  ghost predicate Waited(run: Run, log: Log, waits: seq<seq<Cycle>>, ends: seq<nat>, works: seq<Option<Work>>)
    requires run.Valid()
  {
    && |ends| == |waits| == |works|
    && (forall i: nat :: i < |ends| ==> WaitAt(run, log, waits, ends, works, i))
    && ResumesAt(run, log, ends, |run.ins|)
    && Answered(run, log.ss, ends)
  }

  /** What one wait, and the trap at its end if there is one, add. */
  ghost predicate Grown(run: Run, longer: Run, log: Log, log': Log, wait: seq<Cycle>, e: nat, w: Option<Work>)
    requires run.Valid() && longer.Valid()
  {
    && run.Begins(longer) && History(longer, log', FIRST_INTERVAL, INTERVAL)
    && log' == log.(ss := log'.ss, own := log'.own, traps := log'.traps)
    && e == |run.ins| + |wait| <= |longer.ins| && longer.ins[|run.ins|..e] == wait
    && (forall t :: t in log'.own ==> t in log.own || t >= e)
    && (if longer.Tip(e, 0) then
          w.Some? && exists s :: log'.ss == log.ss + [s] && s.entry == e && s.k.time == w.value.time
        else w.None? && log'.ss == log.ss && |longer.ins| == e)
  }

  lemma WaitKept(run: Run, longer: Run, log: Log, log': Log, waits: seq<seq<Cycle>>, ends: seq<nat>,
                 works: seq<Option<Work>>,
                 wait: seq<Cycle>, e: nat, w: Option<Work>, i: nat)
    requires run.Valid() && longer.Valid() && Grown(run, longer, log, log', wait, e, w)
    requires |ends| == |waits| == |works| && i < |ends| && WaitAt(run, log, waits, ends, works, i)
    ensures WaitAt(longer, log', waits + [wait], ends + [e], works + [w], i)
  {
    assert (ends + [e])[..i] == ends[..i];
    assert longer.ins[ends[i] - |waits[i]|..ends[i]] == run.ins[ends[i] - |waits[i]|..ends[i]];
    WorkedMore(run, longer, log.ss, log'.ss, ends[i], works[i]);
    if i > 0 {
      assert longer.states[ends[i - 1]] == run.states[ends[i - 1]];
    }
  }

  lemma WorkedMore(run: Run, longer: Run, ss: seq<Service>, ss': seq<Service>, e: nat, w: Option<Work>)
    requires run.Valid() && longer.Valid() && run.Begins(longer) && ss <= ss' && Worked(run, ss, e, w)
    ensures Worked(longer, ss', e, w)
  {
    assert longer.states[e] == run.states[e];
  }

  lemma NextWait(run: Run, longer: Run, log: Log, log': Log, waits: seq<seq<Cycle>>, ends: seq<nat>,
                 works: seq<Option<Work>>,
                 wait: seq<Cycle>, e: nat, w: Option<Work>)
    requires run.Valid() && longer.Valid() && Grown(run, longer, log, log', wait, e, w)
    requires History(run, log, FIRST_INTERVAL, INTERVAL) && Waited(run, log, waits, ends, works)
    ensures WaitAt(longer, log', waits + [wait], ends + [e], works + [w], |ends|)
  {
    assert (ends + [e])[..|ends|] == ends;
    if ends != [] {
      assert longer.states[ends[|ends| - 1]] == run.states[ends[|ends| - 1]];
    }
    RunsAreOver(run, log);
  }

  lemma RunsAreOver(run: Run, log: Log)
    requires run.Valid() && History(run, log, FIRST_INTERVAL, INTERVAL)
    ensures forall s :: s in log.ss ==> s.k.d < |run.ins|
  {
    forall s | s in log.ss ensures s.k.d < |run.ins| {
      var i: nat :| i < |log.ss| && log.ss[i] == s;
      EntryBounds(run, log.traps, log.ss, INTERVAL, |run.ins|, i);
    }
  }

  lemma WaitedMore(run: Run, longer: Run, log: Log, log': Log, waits: seq<seq<Cycle>>, ends: seq<nat>,
                   works: seq<Option<Work>>,
                   wait: seq<Cycle>, e: nat, w: Option<Work>)
    requires run.Valid() && longer.Valid() && Grown(run, longer, log, log', wait, e, w)
    requires History(run, log, FIRST_INTERVAL, INTERVAL) && Waited(run, log, waits, ends, works)
    ensures Waited(longer, log', waits + [wait], ends + [e], works + [w])
  {
    forall i: nat | i < |ends + [e]| ensures WaitAt(longer, log', waits + [wait], ends + [e], works + [w], i) {
      if i < |ends| {
        WaitKept(run, longer, log, log', waits, ends, works, wait, e, w, i);
      } else {
        NextWait(run, longer, log, log', waits, ends, works, wait, e, w);
      }
    }
    AnsweredMore(run, longer, log, log', ends, e);
  }

  /**
   * The handler runs are periodic, none early; and a wait's end is answered exactly if the interval in
   * force there has passed since the reading in force.
   */
  ghost predicate OnSchedule(run: Run, log: Log, ends: seq<nat>)
    requires run.Valid() && History(run, log, FIRST_INTERVAL, INTERVAL)
  {
    && (log.ss != [] ==> Periodic(run, log.traps, log.ss, INTERVAL, |run.ins|))
    && (forall i: nat :: i < |log.ss| ==> Due(run, log, i))
    && (forall e :: e in ends ==> (AnswersAt(log.ss, e) <==> Passed(run, log, e)))
  }

  /** In state `e`, 100 ticks have passed since the first reading, or 100000 since the last handler's. */
  ghost predicate Passed(run: Run, log: Log, e: nat)
    requires run.Valid()
  {
    && e <= |run.ins| && Reading(log, e) <= |run.ins|
    && run.Time(e) >= run.Time(Reading(log, e)) + Interval(log, e, 100, 100000)
  }

  ghost predicate Due(run: Run, log: Log, i: nat)
    requires run.Valid() && log.q.b <= |run.ins| && i < |log.ss|
  {
    && log.ss[i].entry <= |run.ins|
    && run.Time(log.q.b) + 100 + i * 100000 <= Deadline(run, log.ss, i) <= run.Time(log.ss[i].entry)
  }

  /** What the firmware is for: if nobody else touches the timer and it does not wrap, it is on schedule. */
  lemma UndisturbedIsOnSchedule(run: Run, log: Log, waits: seq<seq<Cycle>>, ends: seq<nat>, works: seq<Option<Work>>)
    requires run.Valid() && History(run, log, FIRST_INTERVAL, INTERVAL) && log.from <= |run.ins|
    requires Waited(run, log, waits, ends, works)
    ensures Undisturbed(run, log.own, log.from) && RoomFor(run, log.from, INTERVAL) ==> OnSchedule(run, log, ends)
  {
    if Undisturbed(run, log.own, log.from) && RoomFor(run, log.from, INTERVAL) {
      if log.ss != [] {
        HistoryIsPeriodic(run, log, FIRST_INTERVAL, INTERVAL);
      }
      forall i: nat | i < |log.ss| ensures Due(run, log, i) {
        HistoryDeadlines(run, log, FIRST_INTERVAL, INTERVAL, i);
      }
      forall e | e in ends ensures AnswersAt(log.ss, e) <==> Passed(run, log, e) {
        var i: nat :| i < |ends| && ends[i] == e;
        assert WaitAt(run, log, waits, ends, works, i);
        HistoryLine(run, log, FIRST_INTERVAL, INTERVAL, e);
      }
    }
  }

  /**
   * The schedule by the clock, for any clock that ticks, in every state from reset with no handler run under
   * way: until the first handler run the line is high once 1 ms has passed since the first reading, and
   * low for up to 99 timer periods after it; from then on it is high once 1 s has passed since the
   * last handler's reading, and low for up to 99999 periods after it.
   */
  lemma FirmwareByTheClock(run: Run, log: Log, t: nat)
    requires run.FromReset() && 100000 <= run.c.freq < 102500000
    requires History(run, log, FIRST_INTERVAL, INTERVAL) && Undisturbed(run, log.own, log.from)
    requires log.from <= |run.ins| && RoomFor(run, log.from, 100000) && Idle(log, t) && t <= |run.ins|
    ensures var since, f := t - Reading(log, t), run.c.freq;
            if forall s :: s in log.ss ==> t <= s.entry then
              (1000 * since >= f ==> run.Tip(t, 0)) && (since <= 99 * (f / 100000) ==> !run.Tip(t, 0))
            else
              (since >= f ==> run.Tip(t, 0)) && (since <= 99999 * (f / 100000) ==> !run.Tip(t, 0))
  {
    var p, b := Period(run.c), Reading(log, t);
    HistoryLineInCycles(run, log, FIRST_INTERVAL, INTERVAL, t);
    ReadingIsPast(run, log, FIRST_INTERVAL, INTERVAL, t);
    ReadingIsNotFirst(run, log, t);
    DueCycleBounds(p, b, Interval(log, t, FIRST_INTERVAL, INTERVAL));
    ServedNone(run, log, t);
  }

  lemma ServedNone(run: Run, log: Log, t: nat)
    requires run.Valid() && History(run, log, FIRST_INTERVAL, INTERVAL)
    ensures Served(log.ss, t) == 0 <==> forall s :: s in log.ss ==> t <= s.entry
  {
    var i := Served(log.ss, t);
    if i > 0 {
      assert log.ss[i - 1] in log.ss;
    } else {
      forall s | s in log.ss ensures t <= s.entry {
        var j: nat :| j < |log.ss| && log.ss[j] == s;
        AfterFirstEntry(run, log.traps, log.ss, INTERVAL, |run.ins|, j);
      }
    }
  }

  lemma ReadingIsNotFirst(run: Run, log: Log, t: nat)
    requires run.Valid() && History(run, log, FIRST_INTERVAL, INTERVAL)
    ensures Reading(log, t) > 0
  {
    var i := Served(log.ss, t);
    if i > 0 {
      EntryBounds(run, log.traps, log.ss, INTERVAL, |run.ins|, i - 1);
    }
  }

  /** The handler writes the timer only by its update, and makes its accesses after its entry. */
  lemma HandlerWrites(run: Run, before: set<nat>, own: set<nat>, s: Service, passes: seq<Round>, stamp: seq<Round>)
    requires run.Valid() && Handled(run, before, own, s, passes, stamp) && forall t :: t in before ==> t < s.entry
    ensures OnlyStores(run, own, s.entry, s.k)
    ensures forall t :: t in own ==> t in before || t >= s.entry
  {
    ReadsAndStores(run, own, before, passes, stamp, s.k, s.entry);
    OwnFrom(run, passes, s.entry);
    OwnFrom(run, stamp, s.k.d + 1);
  }

  /** A handler run taken on a trap, with its accesses and trap states, extends the firmware's history. */
  lemma TrapExtendsHistory(run: Run, longer: Run, log: Log, log': Log, s: Service, passes: seq<Round>, stamp: seq<Round>)
    requires run.Valid() && longer.Valid() && run.Begins(longer) && History(run, log, FIRST_INTERVAL, INTERVAL)
    requires log' == log.(ss := log.ss + [s], own := log'.own, traps := log'.traps)
    requires log'.traps == log.traps + {|longer.ins|} && (forall t :: t in log'.own ==> t < |longer.ins|)
    requires Handled(longer, log.own, log'.own, s, passes, stamp)
    requires s.entry == |run.ins| && run.Tip(s.entry, 0) && s.entry in log.traps
    ensures History(longer, log', FIRST_INTERVAL, INTERVAL)
    ensures forall t :: t in log'.own ==> t in log.own || t >= s.entry
    ensures Stamped(longer, log', Result(longer, stamp))
  {
    assert StampedBy(longer, log', Result(longer, stamp), stamp);
    HandlerWrites(longer, log.own, log'.own, s, passes, stamp);
    assert longer.states[s.entry] == run.states[s.entry];
    HistoryServes(run, longer, log, log', s, FIRST_INTERVAL, INTERVAL);
  }

  /** A read's loads come no earlier than the read. */
  lemma OwnFrom(run: Run, passes: seq<Round>, from: nat)
    requires run.Valid() && Read(run, passes, from)
    ensures forall t :: t in Positions(passes) ==> t >= from
  {
    PositionsFrom(run, passes, |passes|, from);
    assert passes[..|passes|] == passes;
  }

  lemma {:induction false} PositionsFrom(run: Run, passes: seq<Round>, n: nat, from: nat)
    requires n <= |passes| && Rounds(run, passes) && (passes != [] ==> from <= passes[0].a)
    ensures forall t :: t in Positions(passes[..n]) ==> t >= from
  {
    if n > 0 {
      RoundsInOrder(run, passes, n - 1);
      PositionsFrom(run, passes, n - 1, from);
      assert passes[..n][..n - 1] == passes[..n - 1];
    }
  }

  /** A wait, and what the answer to the pin at its end added. */
  lemma WaitAndAnswer(before: Run, waited: Run, run: Run, log: Log, log': Log, wait: seq<Cycle>, w: Option<Work>)
    requires before.Valid() && waited.Valid() && run.Valid() && before.Begins(waited) && waited.Begins(run)
    requires waited.ins == before.ins + wait && History(run, log', FIRST_INTERVAL, INTERVAL)
    requires log' == log.(ss := log'.ss, own := log'.own, traps := log'.traps)
    requires w.Some? == waited.Tip(|waited.ins|, 0)
    requires if w.Some? then exists s :: log'.ss == log.ss + [s] && s.entry == |waited.ins| && s.k.time == w.value.time
             else log'.ss == log.ss && run == waited
    requires forall t :: t in log'.own ==> t in log.own || t >= |waited.ins|
    ensures Grown(before, run, log, log', wait, |waited.ins|, w)
    ensures w.Some? == run.Tip(|waited.ins|, 0)
  {
    assert run.ins[|before.ins|..|waited.ins|] == waited.ins[|before.ins|..|waited.ins|];
    assert run.states[|waited.ins|] == waited.states[|waited.ins|];
  }

  lemma OneWaitMore(waits: seq<seq<Cycle>>, i: nat)
    requires i <= |waits|
    ensures if i < |waits| then waits[..i + 1] == waits[..i] + [waits[i]] else waits[..i] == waits
  {
  }

  class Firmware {
    const driver: ClintDriver
    var timestamp: Double

    constructor (driver: ClintDriver)
      ensures this.driver == driver
    {
      this.driver := driver;
      timestamp := 0;
    }

    /** Global interrupt disable, and every enable bit cleared. */
    method MaskTraps()
      requires driver.Ready()
      modifies driver.soc`traps, driver.soc`trapping
      ensures driver.Ready() && driver.soc.trapping == old(driver.soc.trapping)
      ensures driver.soc.traps == old(driver.soc.traps).(mie := false, mti := false)
    {
      driver.soc.SetTraps(driver.soc.traps.(mie := false));
      driver.soc.SetTraps(driver.soc.traps.(mti := false));
    }

    /** The handler first, then the timer's enable bit, then the global one. */
    method EnableTraps()
      requires driver.Ready() && !driver.soc.traps.mie
      modifies driver.soc`traps, driver.soc`trapping
      ensures driver.Ready() && driver.soc.traps == Traps(true, true, true)
      ensures driver.soc.trapping == old(driver.soc.trapping) + {|driver.soc.run.ins|}
    {
      driver.soc.SetTraps(driver.soc.traps.(handler := true));
      driver.soc.SetTraps(driver.soc.traps.(mti := true));
      driver.soc.SetTraps(driver.soc.traps.(mie := true));
    }

    /** `timestamp = mtimer_get_raw_time();` */
    method TakeTimestamp() returns (ghost stamp: seq<Round>)
      requires driver.Ready()
      modifies this`timestamp, driver.soc.Repr()
      ensures driver.Ready() && old(driver.soc.run).Begins(driver.soc.run)
      ensures driver.Kept(old(driver.soc.traps), old(driver.soc.trapping), old(driver.clintBase))
      ensures Read(driver.soc.run, stamp, |old(driver.soc.run).ins|) && timestamp == Result(driver.soc.run, stamp)
      ensures driver.soc.own == old(driver.soc.own) + Positions(stamp)
      ensures driver.soc.script == Polling(old(driver.soc.script), driver.clintBase, |stamp|)
    {
      var time;
      time, stamp := driver.GetRawTime();
      timestamp := time;
    }

    /** The two driver calls of `main`: a timestamp, then the first deadline. */
    method StampAndArm() returns (ghost stamp: seq<Round>, ghost passes: seq<Round>, ghost k: Call)
      requires driver.Ready()
      modifies this`timestamp, driver.soc.Repr()
      ensures driver.Ready() && old(driver.soc.run).Begins(driver.soc.run)
      ensures driver.Kept(old(driver.soc.traps), old(driver.soc.trapping), old(driver.clintBase))
      ensures Booted(driver.soc.run, old(driver.soc.own), driver.soc.own, |old(driver.soc.run).ins|, stamp, passes, k)
      ensures timestamp == Result(driver.soc.run, stamp) && k.d + 1 == |driver.soc.run.ins|
      ensures driver.soc.script == BootScript(old(driver.soc.script), driver.clintBase, Work(|passes|, k.time, |stamp|))
    {
      stamp := TakeTimestamp();
      ghost var read := driver.soc.run;
      assert this !in driver.soc.Repr();
      passes, k := driver.SetRawTimeCmp(FIRST_INTERVAL);
      ReadKept(read, driver.soc.run, stamp, |old(driver.soc.run).ins|);
    }

    /**
     * `main` up to its wait. From its first state to that of the last store, no state is added in which
     * traps are on; they come on, with the handler installed, in the state after.
     */
    method Boot(base: int) returns (ghost stamp: seq<Round>, ghost passes: seq<Round>, ghost k: Call)
      requires driver.soc.Valid() && base % 0x10000 == 0
      modifies this, driver, driver.soc.Repr()
      ensures driver.Ready() && old(driver.soc.run).Begins(driver.soc.run)
      ensures Booted(driver.soc.run, old(driver.soc.own), driver.soc.own, |old(driver.soc.run).ins|, stamp, passes, k)
      ensures timestamp == Result(driver.soc.run, stamp) && k.d + 1 == |driver.soc.run.ins|
      ensures driver.soc.traps == Traps(true, true, true) && driver.clintBase == base
      ensures driver.soc.trapping == old(driver.soc.trapping) + {k.d + 1}
      ensures driver.soc.script == BootScript(old(driver.soc.script), base, Work(|passes|, k.time, |stamp|))
    {
      driver.ClintInit(base);
      MaskTraps();
      stamp, passes, k := StampAndArm();
      EnableTraps();
    }

    /** The two driver calls of the handler: the next deadline, then a timestamp. */
    method ArmAndStamp() returns (ghost s: Service, ghost passes: seq<Round>, ghost stamp: seq<Round>)
      requires driver.Ready()
      modifies this`timestamp, driver.soc.Repr()
      ensures driver.Ready() && old(driver.soc.run).Begins(driver.soc.run)
      ensures driver.Kept(old(driver.soc.traps), old(driver.soc.trapping), old(driver.clintBase))
      ensures s.entry == |old(driver.soc.run).ins|
      ensures Handled(driver.soc.run, old(driver.soc.own), driver.soc.own, s, passes, stamp)
      ensures timestamp == Result(driver.soc.run, stamp)
      ensures driver.soc.script
           == HandlerScript(old(driver.soc.script), driver.clintBase, Work(|passes|, s.k.time, |stamp|))
    {
      ghost var k;
      passes, k := driver.SetRawTimeCmp(INTERVAL);
      ghost var armed, own := driver.soc.run, driver.soc.own;
      stamp := TakeTimestamp();
      s := Service(|old(driver.soc.run).ins|, passes[|passes| - 1], k);
      ArmedThenStamped(armed, driver.soc.run, old(driver.soc.own), own, s, passes, stamp);
    }

    /**
     * `irq_entry`. A machine timer interrupt is answered by re-arming hart 0 one interval from now and
     * taking a new timestamp; any other cause leaves the device alone.
     */
    method IrqEntry(mcause: Word) returns (ghost s: Service, ghost passes: seq<Round>, ghost stamp: seq<Round>)
      requires driver.Ready()
      modifies this`timestamp, driver.soc.Repr()
      ensures driver.Ready() && old(driver.soc.run).Begins(driver.soc.run)
      ensures driver.Kept(old(driver.soc.traps), old(driver.soc.trapping), old(driver.clintBase))
      ensures mcause < 0x8000_0000 || mcause % 0x100 != 7 ==>
                && driver.soc.run == old(driver.soc.run) && timestamp == old(timestamp)
                && driver.soc.script == old(driver.soc.script)
      ensures mcause >= 0x8000_0000 && mcause % 0x100 == 7 ==>
                && s.entry == |old(driver.soc.run).ins|
                && Handled(driver.soc.run, old(driver.soc.own), driver.soc.own, s, passes, stamp)
                && timestamp == Result(driver.soc.run, stamp)
                && driver.soc.script
                   == HandlerScript(old(driver.soc.script), driver.clintBase, Work(|passes|, s.k.time, |stamp|))
    {
      passes, stamp := [], [];
      if mcause >= MCAUSE_INTERRUPT {
        var cause := mcause % 0x100;
        match cause
        case 7 =>
          s, passes, stamp := ArmAndStamp();
        case _ =>
          s := *;
      } else {
        s := *;
      }
    }

    /** A timer trap: taken with traps on and the pin high, masked while the handler runs. */
    method TakeTrap() returns (ghost s: Service, ghost passes: seq<Round>, ghost stamp: seq<Round>)
      requires driver.Ready() && driver.soc.traps == Traps(true, true, true) && driver.soc.clint.mtipReg[0]
      modifies this`timestamp, driver.soc.Repr()
      ensures driver.Ready() && old(driver.soc.run).Begins(driver.soc.run)
      ensures driver.soc.traps == old(driver.soc.traps)
      ensures driver.soc.trapping == old(driver.soc.trapping) + {|driver.soc.run.ins|}
      ensures s.entry == |old(driver.soc.run).ins|
      ensures Handled(driver.soc.run, old(driver.soc.own), driver.soc.own, s, passes, stamp)
      ensures timestamp == Result(driver.soc.run, stamp) && driver.clintBase == old(driver.clintBase)
      ensures driver.soc.script
           == HandlerScript(old(driver.soc.script), driver.clintBase, Work(|passes|, s.k.time, |stamp|))
    {
      driver.soc.SetTraps(driver.soc.traps.(mie := false));
      s, passes, stamp := IrqEntry(MCAUSE_INTERRUPT + INT_POS_MTI);
      driver.soc.SetTraps(driver.soc.traps.(mie := true));
    }

    /** The firmware is at a wait: traps on, and `log` its history. */
    ghost predicate Logged(log: Log)
      reads this, driver, driver.soc, driver.soc.Repr()
    {
      && driver.Ready() && driver.soc.traps == Traps(true, true, true)
      && log.own == driver.soc.own && log.traps == driver.soc.trapping
      && History(driver.soc.run, log, FIRST_INTERVAL, INTERVAL) && Stamped(driver.soc.run, log, timestamp)
    }

    /** And `waits` are the waits so far, which ended in the states `ends`. */
    ghost predicate Waiting(log: Log, waits: seq<seq<Cycle>>, ends: seq<nat>, works: seq<Option<Work>>)
      reads this, driver, driver.soc, driver.soc.Repr()
    {
      Logged(log) && Waited(driver.soc.run, log, waits, ends, works)
    }

    /** `main` up to its wait, as the start of a history. */
    method BootToWait(base: int) returns (ghost log: Log, ghost boot: Work)
      requires driver.soc.Valid() && base % 0x10000 == 0
      modifies this, driver, driver.soc.Repr()
      ensures Waiting(log, [], [], []) && old(driver.soc.run).Begins(driver.soc.run)
      ensures log.from == |old(driver.soc.run).ins| && log.ss == [] && log.k.time == boot.time
      ensures driver.clintBase == base && driver.soc.script == BootScript(old(driver.soc.script), base, boot)
    {
      ghost var stamp, passes, k := Boot(base);
      log := Log(|old(driver.soc.run).ins|, passes[|passes| - 1], k, [], driver.soc.trapping, driver.soc.own);
      boot := Work(|passes|, k.time, |stamp|);
      BootStartsHistory(driver.soc.run, old(driver.soc.own), log.own, log.from, stamp, passes, k, log.traps);
    }

    /** The end of a wait: a trap if the pin is high. */
    method AnswerPin(ghost log: Log) returns (took: bool, ghost log': Log, ghost work: Option<Work>)
      requires Logged(log)
      modifies this`timestamp, driver.soc.Repr()
      ensures Logged(log') && old(driver.soc.run).Begins(driver.soc.run)
      ensures log' == log.(ss := log'.ss, own := log'.own, traps := log'.traps)
      ensures took == work.Some? == old(driver.soc.run).Tip(|old(driver.soc.run).ins|, 0)
      ensures if took then
                exists s :: log'.ss == log.ss + [s] && s.entry == |old(driver.soc.run).ins| && s.k.time == work.value.time
              else log'.ss == log.ss && driver.soc.run == old(driver.soc.run)
      ensures forall t :: t in log'.own ==> t in log.own || t >= |old(driver.soc.run).ins|
      ensures driver.clintBase == old(driver.clintBase)
      ensures driver.soc.script == EndScript(old(driver.soc.script), driver.clintBase, work)
    {
      driver.soc.PinsFollow(0);
      took, log', work := driver.soc.clint.mtipReg[0], log, None;
      if took {
        ghost var s, passes, stamp := TakeTrap();
        log' := log.(ss := log.ss + [s], own := driver.soc.own, traps := driver.soc.trapping);
        work := Some(Work(|passes|, s.k.time, |stamp|));
        TrapExtendsHistory(old(driver.soc.run), driver.soc.run, log, log', s, passes, stamp);
      }
    }

    /** One wait: the given cycles pass, and the history holds still. */
    method PassWait(wait: seq<Cycle>, ghost log: Log) returns (ghost log': Log)
      requires Logged(log)
      modifies driver.soc.Repr()
      ensures Logged(log') && old(driver.soc.run).Begins(driver.soc.run) && log' == log.(traps := log'.traps)
      ensures driver.soc.run.ins == old(driver.soc.run).ins + wait && driver.clintBase == old(driver.clintBase)
      ensures driver.soc.script == old(driver.soc.script).Do(Pause(wait))
    {
      driver.soc.Wait(wait);
      log' := log.(traps := driver.soc.trapping);
      HistoryWaits(old(driver.soc.run), driver.soc.run, log, driver.soc.trapping, FIRST_INTERVAL, INTERVAL);
      StampWaits(old(driver.soc.run), driver.soc.run, log, driver.soc.trapping, timestamp);
    }

    /**
     * One wait of any length, with any foreign traffic, and a trap at its end if the pin is high there.
     * `e` is the state at the end of the wait.
     */
    method WaitThenTrap(wait: seq<Cycle>, ghost log: Log)
      returns (took: bool, ghost log': Log, ghost e: nat, ghost work: Option<Work>)
      requires Logged(log)
      modifies this`timestamp, driver.soc.Repr()
      ensures Logged(log') && Grown(old(driver.soc.run), driver.soc.run, log, log', wait, e, work)
      ensures took == driver.soc.run.Tip(e, 0) && driver.clintBase == old(driver.clintBase)
      ensures driver.soc.script == EndScript(old(driver.soc.script).Do(Pause(wait)), driver.clintBase, work)
    {
      log' := PassWait(wait, log);
      ghost var waited := driver.soc.run;
      e := |waited.ins|;
      took, log', work := AnswerPin(log');
      WaitAndAnswer(old(driver.soc.run), waited, driver.soc.run, log, log', wait, work);
    }

    /** The same, kept in the record of the waits. */
    method NextWaitAndTrap(wait: seq<Cycle>, ghost log: Log, ghost waits: seq<seq<Cycle>>, ghost ends: seq<nat>,
                           ghost works: seq<Option<Work>>, ghost start: Script)
      returns (took: bool, ghost log': Log, ghost e: nat, ghost work: Option<Work>)
      requires Waiting(log, waits, ends, works)
      requires driver.soc.script == RunScript(start, driver.clintBase, waits, works)
      modifies this`timestamp, driver.soc.Repr()
      ensures Waiting(log', waits + [wait], ends + [e], works + [work])
      ensures old(driver.soc.run).Begins(driver.soc.run) && driver.clintBase == old(driver.clintBase)
      ensures log'.from == log.from && log'.k == log.k && |log'.ss| == |log.ss| + if took then 1 else 0
      ensures driver.soc.script == RunScript(start, driver.clintBase, waits + [wait], works + [work])
    {
      took, log', e, work := WaitThenTrap(wait, log);
      RunScriptMore(start, driver.clintBase, waits, works, wait, work);
      WaitedMore(old(driver.soc.run), driver.soc.run, log, log', waits, ends, works, wait, e, work);
    }

    /** Any number of waits, each with the trap at its end if there is one. */
    method RunWaits(waits: seq<seq<Cycle>>, ghost booted: Log)
      returns (taken: nat, ghost log: Log, ghost ends: seq<nat>, ghost works: seq<Option<Work>>)
      requires Waiting(booted, [], [], []) && booted.ss == []
      modifies this`timestamp, driver.soc.Repr()
      ensures Waiting(log, waits, ends, works) && old(driver.soc.run).Begins(driver.soc.run)
      ensures log.from == booted.from && log.k == booted.k && |log.ss| == taken
      ensures driver.clintBase == old(driver.clintBase)
      ensures driver.soc.script == RunScript(old(driver.soc.script), driver.clintBase, waits, works)
    {
      taken, log, ends, works := 0, booted, [], [];
      for i := 0 to |waits|
        invariant Waiting(log, waits[..i], ends, works) && old(driver.soc.run).Begins(driver.soc.run)
        invariant log.from == booted.from && log.k == booted.k && |log.ss| == taken
        invariant driver.clintBase == old(driver.clintBase)
        invariant driver.soc.script == RunScript(old(driver.soc.script), driver.clintBase, waits[..i], works)
      {
        var took;
        ghost var e, work;
        took, log, e, work := NextWaitAndTrap(waits[i], log, waits[..i], ends, works, old(driver.soc.script));
        taken := if took then taken + 1 else taken;
        ends, works := ends + [e], works + [work];
        OneWaitMore(waits, i);
      }
      OneWaitMore(waits, |waits|);
    }

    /**
     * The firmware on its hart: `main` up to its wait, then any number of waits (`main` itself has one),
     * each ended by a trap if the pin is high. The log is its history, with one handler run for every
     * wait that ended with the pin high; `boot` and `works` are the hart's accesses, with nothing else
     * among them.
     * If nobody else writes `mtime` or hart 0's compare register and `mtime` does not wrap, the
     * handler runs are periodic from the first arming on, and a wait ends in one exactly if it is due.
     */
    method RunFirmware(base: int, waits: seq<seq<Cycle>>)
      returns (taken: nat, ghost log: Log, ghost ends: seq<nat>, ghost boot: Work, ghost works: seq<Option<Work>>)
      requires driver.soc.Valid() && base % 0x10000 == 0
      modifies this, driver, driver.soc.Repr()
      ensures Waiting(log, waits, ends, works) && old(driver.soc.run).Begins(driver.soc.run)
      ensures log.from == |old(driver.soc.run).ins| && |log.ss| == taken
      ensures driver.clintBase == base && log.k.time == boot.time
      ensures driver.soc.script == RunScript(BootScript(old(driver.soc.script), base, boot), base, waits, works)
      ensures Undisturbed(driver.soc.run, log.own, log.from) && RoomFor(driver.soc.run, log.from, 100000) ==>
                OnSchedule(driver.soc.run, log, ends)
    {
      ghost var booted;
      booted, boot := BootToWait(base);
      taken, log, ends, works := RunWaits(waits, booted);
      UndisturbedIsOnSchedule(driver.soc.run, log, waits, ends, works);
    }
  }
}
