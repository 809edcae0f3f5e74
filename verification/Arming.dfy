/**
 * Arming the timer relative to now, end to end: the polling read, the three-store update, the
 * prescaler and the compare, in one statement about clock cycles; and the periodic re-arm built on it.
 */
module Arming {
  import opened Words
  import opened Device
  import opened Runs
  import opened Timebase
  import opened Interrupts
  import opened TimeAccess
  import opened Compare

  /** Hart 0's compare register set to an accepted reading plus `offset`. */
  ghost predicate Arms(run: Run, q: Round, k: Call, offset: nat)
    requires run.Valid()
  {
    && RoundIn(run, q) && Agrees(run, q)
    && k.hart == 0 && Issued(run, k) && q.d < k.a
    && k.time == Wrap(Answer(run, q) + offset)
  }

  lemma RoundKept(run: Run, longer: Run, q: Round)
    requires run.Valid() && longer.Valid() && run.Begins(longer) && RoundIn(run, q)
    ensures RoundIn(longer, q)
    ensures Agrees(longer, q) <==> Agrees(run, q)
    ensures Answer(longer, q) == Answer(run, q)
  {
    assert forall t :: 0 <= t < |run.ins| ==> longer.ins[t] == run.ins[t];
    assert forall t :: 0 <= t <= |run.ins| ==> longer.states[t] == run.states[t];
  }

  lemma ArmsKept(run: Run, longer: Run, q: Round, k: Call, offset: nat)
    requires run.Valid() && longer.Valid() && run.Begins(longer) && Arms(run, q, k, offset)
    ensures Arms(longer, q, k, offset)
  {
    RoundKept(run, longer, q);
    assert forall t :: 0 <= t < |run.ins| ==> longer.ins[t] == run.ins[t];
  }

  /** `mtime` is left alone and does not wrap from cycle `i` to state `n`. */
  ghost predicate Steady(run: Run, i: nat, n: nat)
    requires run.Valid() && i <= n <= |run.ins|
  {
    run.TimeQuiet(i, n) && run.Time(i) + run.Pulses(i, n) <= MAX_TIME
  }

  lemma SteadyTime(run: Run, i: nat, j: nat, k: nat, n: nat)
    requires run.Valid() && i <= j <= k <= n <= |run.ins| && Steady(run, i, n)
    ensures Steady(run, j, n) && Steady(run, j, k)
    ensures run.Time(k) == run.Time(j) + run.Pulses(j, k)
  {
    PulsesSplit(run, i, j, n);
    PulsesSplit(run, j, k, n);
    TimeAdvances(run, i, j);
    TimeAdvances(run, j, k);
  }

  lemma SteadyRead(run: Run, q: Round, n: nat)
    requires run.Valid() && RoundIn(run, q) && Agrees(run, q) && q.d <= n <= |run.ins| && Steady(run, q.a, n)
    ensures Answer(run, q) == run.Time(q.b)
  {
    RoundAnswers(run, q);
    SteadyTime(run, q.a, q.a, q.b, n);
    SteadyTime(run, q.a, q.b, q.d, n);
    assert Hi(run.Time(q.a)) <= Hi(run.Time(q.b)) <= Hi(run.Time(q.d));
    PartsJoin(run.Time(q.b));
  }

  /** The value an arming leaves, and the line from then on. */
  lemma ArmedLine(run: Run, q: Round, k: Call, offset: nat, t: nat)
    requires run.Valid() && Arms(run, q, k, offset) && k.d < t <= |run.ins|
    requires Steady(run, q.a, t) && Alone(run, k, t) && run.Time(q.b) + offset <= MAX_TIME
    ensures k.time == run.Time(q.b) + offset == run.Cmp(t, 0)
    ensures run.Tip(t, 0) <==> run.Time(t) >= run.Time(q.b) + offset
    ensures run.Tip(t, 0) <==> run.Pulses(q.b, t) >= offset
  {
    SteadyRead(run, q, t);
    CallStages(run, k, t);
    SteadyTime(run, q.a, q.b, t, t);
  }

  /** The first state in which `offset` pulses have been applied since cycle `b`. */
  function DueCycle(p: nat, b: nat, offset: nat): nat
    requires p > 0
  {
    (PulsesBefore(p, b) + offset) * p + 1
  }

  lemma DivAtLeast(x: nat, p: nat, y: nat)
    requires p > 0
    ensures x / p >= y <==> x >= y * p
  {
    DivBounds(x, p);
    if x / p >= y {
      MulMono(y, x / p, p);
    } else {
      MulMono(x / p + 1, y, p);
    }
  }

  /** A deadline `offset` ticks after cycle `b`, in clock cycles. */
  lemma DueInCycles(run: Run, b: nat, offset: nat, t: nat)
    requires run.FromReset() && Ticking(run.c) && b <= t <= |run.ins| && Steady(run, b, t) && offset > 0
    ensures run.Time(t) >= run.Time(b) + offset <==> t >= DueCycle(Period(run.c), b, offset)
  {
    var p := Period(run.c);
    SteadyTime(run, b, b, t, t);
    PulseCount(run, b, t);
    if t > 0 {
      DivAtLeast(t - 1, p, PulsesBefore(p, b) + offset);
    }
  }

  lemma DueCycleBounds(p: nat, b: nat, offset: nat)
    requires p > 0 && b > 0 && offset > 0
    ensures b + (offset - 1) * p + 1 <= DueCycle(p, b, offset) <= b + offset * p
  {
    DivBounds(b - 1, p);
    assert (PulsesBefore(p, b) + offset) * p == PulsesBefore(p, b) * p + offset * p;
    assert offset * p == (offset - 1) * p + p;
  }

  /**
   * End-to-end arming, in clock cycles. After the last store the line is high exactly from the cycle
   * on which `mtime` reaches the reading plus `offset`, a cycle fixed by the low-word load alone and
   * between (offset - 1) * P + 1 and offset * P cycles after it. So the line rises there, or at
   * the end of the call if that is later.
   */
  lemma ArmedInCycles(run: Run, q: Round, k: Call, offset: nat, t: nat)
    requires run.FromReset() && Ticking(run.c) && Arms(run, q, k, offset) && offset > 0 && k.d < t <= |run.ins|
    requires Steady(run, q.a, t) && Alone(run, k, t) && run.Time(q.b) + offset <= MAX_TIME
    ensures var due := DueCycle(Period(run.c), q.b, offset);
            && (run.Tip(t, 0) <==> t >= due)
            && q.b + (offset - 1) * Period(run.c) + 1 <= due <= q.b + offset * Period(run.c)
  {
    var p := Period(run.c);
    ArmedLine(run, q, k, offset, t);
    PulseCount(run, q.b, t);
    DivAtLeast(t - 1, p, PulsesBefore(p, q.b) + offset);
    DueCycleBounds(p, q.b, offset);
  }

  // ----- the periodic re-arm -----

  /** One run of the timer interrupt handler: entered in state `entry`, read `q`, update `k`. */
  datatype Service = Service(entry: nat, q: Round, k: Call)

  ghost predicate Rearms(run: Run, s: Service, offset: nat)
    requires run.Valid()
  {
    s.entry <= s.q.a && Arms(run, s.q, s.k, offset)
  }

  /**
   * The i-th handler run was entered in a state with the line high and traps on, and finished before
   * the next was entered. `traps` are the states in which the hart had traps on.
   */
  ghost predicate Entered(run: Run, traps: set<nat>, ss: seq<Service>, offset: nat, n: nat, i: nat)
    requires run.Valid() && i < |ss| && n <= |run.ins|
  {
    && Rearms(run, ss[i], offset) && ss[i].k.d < n
    && run.Tip(ss[i].entry, 0) && ss[i].entry in traps
    && (i > 0 ==> ss[i - 1].k.d < ss[i].entry)
  }

  ghost predicate Entries(run: Run, traps: set<nat>, ss: seq<Service>, offset: nat, n: nat)
    requires run.Valid() && n <= |run.ins|
  {
    forall i: nat :: i < |ss| ==> Entered(run, traps, ss, offset, n, i)
  }

  /** Any number of handler runs before state `n`, nobody else writing `mtime` or hart 0's compare. */
  ghost predicate Periodic(run: Run, traps: set<nat>, ss: seq<Service>, offset: nat, n: nat)
    requires run.Valid()
  {
    && ss != [] && n <= |run.ins|
    && Entries(run, traps, ss, offset, n)
    && ss[0].entry <= n && Steady(run, ss[0].entry, n)
    && run.Time(ss[0].entry) + run.Pulses(ss[0].entry, n) + offset <= MAX_TIME
    && (forall t :: ss[0].entry <= t < n && run.WritesCmpAt(t, 0) ==> Serving(ss, t))
  }

  ghost predicate Serving(ss: seq<Service>, t: nat)
  {
    exists s :: s in ss && (t == s.k.a || t == s.k.b || t == s.k.d)
  }

  /** The compare value whose passing the i-th handler run answers. */
  ghost function Deadline(run: Run, ss: seq<Service>, i: nat): Double
    requires run.Valid() && i < |ss| && ss[i].entry <= |run.ins|
  {
    run.Cmp(ss[i].entry, 0)
  }

  lemma {:induction false} ServicesOrdered(run: Run, traps: set<nat>, ss: seq<Service>, offset: nat, n: nat,
                                           i: nat, j: nat)
    requires run.Valid() && n <= |run.ins| && Entries(run, traps, ss, offset, n) && i < j < |ss|
    ensures ss[i].k.d < ss[j].entry < ss[j].k.a
  {
    assert Entered(run, traps, ss, offset, n, j);
    if i < j - 1 {
      assert Entered(run, traps, ss, offset, n, j - 1);
      ServicesOrdered(run, traps, ss, offset, n, i, j - 1);
    }
  }

  /** The end of the stretch a handler run's deadline governs: the next entry, or `n`. */
  ghost function Until(ss: seq<Service>, n: nat, i: nat): nat
    requires i < |ss|
  {
    if i + 1 < |ss| then ss[i + 1].entry else n
  }

  lemma EntryBounds(run: Run, traps: set<nat>, ss: seq<Service>, offset: nat, n: nat, i: nat)
    requires run.Valid() && n <= |run.ins| && Entries(run, traps, ss, offset, n) && i < |ss|
    ensures Rearms(run, ss[i], offset) && ss[i].entry < ss[i].k.a < ss[i].k.d < n
    ensures run.Tip(ss[i].entry, 0) && ss[i].entry in traps
    ensures i > 0 ==> ss[i - 1].k.d < ss[i].entry
  {
    assert Entered(run, traps, ss, offset, n, i);
  }

  lemma AfterFirstEntry(run: Run, traps: set<nat>, ss: seq<Service>, offset: nat, n: nat, i: nat)
    requires run.Valid() && n <= |run.ins| && Entries(run, traps, ss, offset, n) && i < |ss|
    ensures ss[0].entry <= ss[i].entry < ss[i].k.a < ss[i].k.d < n
  {
    EntryBounds(run, traps, ss, offset, n, i);
    EntryBounds(run, traps, ss, offset, n, 0);
    if i > 0 {
      ServicesOrdered(run, traps, ss, offset, n, 0, i);
    }
  }

  lemma EntryInRange(run: Run, traps: set<nat>, ss: seq<Service>, offset: nat, n: nat, i: nat)
    requires run.Valid() && Periodic(run, traps, ss, offset, n) && i < |ss|
    ensures Rearms(run, ss[i], offset) && ss[0].entry <= ss[i].entry < n
    ensures run.Tip(ss[i].entry, 0) && ss[i].entry in traps
    ensures ss[i].k.d < Until(ss, n, i) <= n
  {
    AfterFirstEntry(run, traps, ss, offset, n, i);
    EntryBounds(run, traps, ss, offset, n, i);
    if i + 1 < |ss| {
      EntryBounds(run, traps, ss, offset, n, i + 1);
    }
  }

  lemma ServiceAlone(run: Run, traps: set<nat>, ss: seq<Service>, offset: nat, n: nat, i: nat)
    requires run.Valid() && Periodic(run, traps, ss, offset, n) && i < |ss|
    ensures ss[i].k.d < Until(ss, n, i) <= n && Issued(run, ss[i].k)
    ensures Alone(run, ss[i].k, Until(ss, n, i))
  {
    EntryInRange(run, traps, ss, offset, n, i);
    var k := ss[i].k;
    forall t | k.a <= t < Until(ss, n, i) && t != k.a && t != k.b && t != k.d ensures !run.WritesCmpAt(t, 0) {
      if run.WritesCmpAt(t, 0) {
        assert Serving(ss, t);
        var s :| s in ss && (t == s.k.a || t == s.k.b || t == s.k.d);
        var j: nat :| j < |ss| && ss[j] == s;
        OtherService(run, traps, ss, offset, n, i, j);
        assert false;
      }
    }
  }

  lemma OtherService(run: Run, traps: set<nat>, ss: seq<Service>, offset: nat, n: nat, i: nat, j: nat)
    requires run.Valid() && Periodic(run, traps, ss, offset, n) && i < |ss| && j < |ss|
    ensures Issued(run, ss[i].k) && Issued(run, ss[j].k)
    ensures j < i ==> ss[j].k.d < ss[i].k.a
    ensures i < j ==> ss[j].k.a >= Until(ss, n, i)
  {
    EntryInRange(run, traps, ss, offset, n, i);
    EntryInRange(run, traps, ss, offset, n, j);
    if j < i {
      ServicesOrdered(run, traps, ss, offset, n, j, i);
    } else if i + 1 < j {
      ServicesOrdered(run, traps, ss, offset, n, i + 1, j);
      EntryInRange(run, traps, ss, offset, n, i + 1);
    }
  }

  /**
   * One handler run: from its last store to the next entry (or the end) the line is
   * low until `mtime` reaches the new deadline, which is the reading plus the offset, and high after.
   */
  lemma ServiceStep(run: Run, traps: set<nat>, ss: seq<Service>, offset: nat, n: nat, i: nat, t: nat)
    requires run.Valid() && Periodic(run, traps, ss, offset, n) && i < |ss| && ss[i].k.d < t <= Until(ss, n, i)
    ensures ss[i].entry < n && ss[i].q.b < n && t <= n
    ensures Deadline(run, ss, i) <= run.Time(ss[i].entry) <= run.Time(ss[i].q.b)
    ensures run.Cmp(t, 0) == run.Time(ss[i].q.b) + offset
    ensures run.Tip(t, 0) <==> run.Time(t) >= run.Time(ss[i].q.b) + offset
  {
    var s, start := ss[i], ss[0].entry;
    EntryInRange(run, traps, ss, offset, n, i);
    ServiceAlone(run, traps, ss, offset, n, i);
    SteadyTime(run, start, s.q.a, t, n);
    SteadyTime(run, start, s.entry, s.q.b, n);
    SteadyTime(run, start, start, s.q.b, n);
    SteadyTime(run, start, start, n, n);
    PulsesSplit(run, start, s.q.b, n);
    ArmedLine(run, s.q, s.k, offset, t);
  }

  lemma DeadlineAdvances(run: Run, traps: set<nat>, ss: seq<Service>, offset: nat, n: nat, i: nat)
    requires run.Valid() && Periodic(run, traps, ss, offset, n) && i + 1 < |ss|
    ensures ss[i].entry < n && ss[i + 1].entry < n && ss[i].q.b < n
    ensures Deadline(run, ss, i + 1) == run.Time(ss[i].q.b) + offset >= Deadline(run, ss, i) + offset
  {
    EntryInRange(run, traps, ss, offset, n, i);
    EntryInRange(run, traps, ss, offset, n, i + 1);
    ServiceStep(run, traps, ss, offset, n, i, ss[i + 1].entry);
  }

  /**
   * The same in clock cycles from reset: the next handler entry cannot come before the cycle on which
   * the new deadline is due, at least (offset - 1) * P + 1 cycles after this handler's reading.
   */
  lemma EntriesSpacedInCycles(run: Run, traps: set<nat>, ss: seq<Service>, offset: nat, n: nat, i: nat)
    requires run.FromReset() && Ticking(run.c) && Periodic(run, traps, ss, offset, n) && offset > 0 && i + 1 < |ss|
    ensures ss[i + 1].entry >= DueCycle(Period(run.c), ss[i].q.b, offset)
    ensures ss[i + 1].entry >= ss[i].q.b + (offset - 1) * Period(run.c) + 1
  {
    var p, b, e := Period(run.c), ss[i].q.b, ss[i + 1].entry;
    EntryInRange(run, traps, ss, offset, n, i);
    EntryInRange(run, traps, ss, offset, n, i + 1);
    ServiceStep(run, traps, ss, offset, n, i, e);
    SteadyTime(run, ss[0].entry, b, e, n);
    PulseCount(run, b, e);
    DivAtLeast(e - 1, p, PulsesBefore(p, b) + offset);
    DueCycleBounds(p, b, offset);
  }

  lemma TimesStep(i: nat, x: nat)
    requires i > 0
    ensures i * x == (i - 1) * x + x
  {
  }

  /** Successive deadlines never come closer than the offset, over any number of handler runs. */
  lemma {:induction false} DeadlinesSpaced(run: Run, traps: set<nat>, ss: seq<Service>, offset: nat, n: nat, i: nat)
    requires run.Valid() && Periodic(run, traps, ss, offset, n) && i < |ss|
    ensures ss[i].entry < n && ss[0].entry < n
    ensures Deadline(run, ss, i) >= Deadline(run, ss, 0) + i * offset
  {
    EntryInRange(run, traps, ss, offset, n, 0);
    EntryInRange(run, traps, ss, offset, n, i);
    if i > 0 {
      DeadlinesSpaced(run, traps, ss, offset, n, i - 1);
      DeadlineAdvances(run, traps, ss, offset, n, i - 1);
      TimesStep(i, offset);
    }
  }

  ghost predicate Prompt(run: Run, ss: seq<Service>, i: nat, latency: nat)
    requires run.Valid() && i < |ss|
  {
    && ss[i].entry <= |run.ins| && ss[i].q.b <= |run.ins|
    && run.Time(ss[i].q.b) <= Deadline(run, ss, i) + latency
  }

  /** And if each handler reads the time within `latency` ticks of its deadline, they drift no faster. */
  lemma {:induction false} DeadlinesDrift(run: Run, traps: set<nat>, ss: seq<Service>, offset: nat, n: nat, i: nat,
                                          latency: nat)
    requires run.Valid() && Periodic(run, traps, ss, offset, n) && i < |ss|
    requires forall j :: 0 <= j < i ==> Prompt(run, ss, j, latency)
    ensures ss[i].entry < n && ss[0].entry < n
    ensures Deadline(run, ss, i) <= Deadline(run, ss, 0) + i * (offset + latency)
  {
    EntryInRange(run, traps, ss, offset, n, 0);
    EntryInRange(run, traps, ss, offset, n, i);
    if i > 0 {
      DeadlinesDrift(run, traps, ss, offset, n, i - 1, latency);
      DeadlineAdvances(run, traps, ss, offset, n, i - 1);
      assert Prompt(run, ss, i - 1, latency);
      TimesStep(i, offset + latency);
    }
  }

  /** Every handler finished before the deadline it set. */
  ghost predicate Timely(run: Run, ss: seq<Service>, offset: nat)
    requires run.Valid()
  {
    forall s :: s in ss ==>
      s.k.d < |run.ins| && s.q.b <= |run.ins| && run.Time(s.k.d + 1) < run.Time(s.q.b) + offset
  }

  /**
   * One entry per deadline: if every handler finishes before the deadline it set, the i-th entry falls in
   * the i-th deadline's window and no other entry does.
   */
  lemma OneEntryPerDeadline(run: Run, traps: set<nat>, ss: seq<Service>, offset: nat, n: nat, i: nat, j: nat)
    requires run.Valid() && Periodic(run, traps, ss, offset, n) && Timely(run, ss, offset)
    requires i + 1 < |ss| && j < |ss|
    ensures ss[i].entry < n && ss[i + 1].entry < n && ss[j].entry < n
    ensures Deadline(run, ss, i) <= run.Time(ss[j].entry) < Deadline(run, ss, i + 1) <==> j == i
  {
    EntryWindow(run, traps, ss, offset, n, i);
    if j > i {
      LaterEntryIsLater(run, traps, ss, offset, n, i + 1, j);
    } else if j < i {
      EarlierEntryIsEarlier(run, traps, ss, offset, n, j, i);
    }
  }

  lemma LaterEntryIsLater(run: Run, traps: set<nat>, ss: seq<Service>, offset: nat, n: nat, i: nat, j: nat)
    requires run.Valid() && Periodic(run, traps, ss, offset, n) && Timely(run, ss, offset) && i <= j < |ss|
    ensures ss[i].entry < n && ss[j].entry < n && Deadline(run, ss, i) <= run.Time(ss[j].entry)
  {
    EntriesClimb(run, traps, ss, offset, n, i, j);
    EntryWindow(run, traps, ss, offset, n, j);
  }

  lemma EarlierEntryIsEarlier(run: Run, traps: set<nat>, ss: seq<Service>, offset: nat, n: nat, i: nat, j: nat)
    requires run.Valid() && Periodic(run, traps, ss, offset, n) && Timely(run, ss, offset) && i < j < |ss|
    ensures ss[i].entry < n && ss[j].entry < n && run.Time(ss[i].entry) < Deadline(run, ss, j)
  {
    EntryWindow(run, traps, ss, offset, n, i);
    EntriesClimb(run, traps, ss, offset, n, i + 1, j);
  }

  lemma EntryWindow(run: Run, traps: set<nat>, ss: seq<Service>, offset: nat, n: nat, i: nat)
    requires run.Valid() && Periodic(run, traps, ss, offset, n) && Timely(run, ss, offset) && i < |ss|
    ensures ss[i].entry < n && Deadline(run, ss, i) <= run.Time(ss[i].entry)
    ensures i + 1 < |ss| ==> ss[i + 1].entry < n && run.Time(ss[i].entry) < Deadline(run, ss, i + 1)
  {
    var s := ss[i];
    EntryInRange(run, traps, ss, offset, n, i);
    SteadyTime(run, ss[0].entry, s.entry, s.k.d + 1, n);
    if i + 1 < |ss| {
      DeadlineAdvances(run, traps, ss, offset, n, i);
    }
  }

  /** Deadlines are ordered like their handler runs. */
  lemma {:induction false} EntriesClimb(run: Run, traps: set<nat>, ss: seq<Service>, offset: nat, n: nat, i: nat, j: nat)
    requires run.Valid() && Periodic(run, traps, ss, offset, n) && i <= j < |ss|
    ensures ss[i].entry < n && ss[j].entry < n && Deadline(run, ss, i) <= Deadline(run, ss, j)
  {
    EntryInRange(run, traps, ss, offset, n, j);
    if i < j {
      EntriesClimb(run, traps, ss, offset, n, i, j - 1);
      DeadlineAdvances(run, traps, ss, offset, n, j - 1);
    }
  }
}
