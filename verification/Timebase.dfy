/** The prescaler and the timebase it produces, over whole runs from reset. */
module Timebase {
  import opened Words
  import opened Device
  import opened Registers
  import opened Runs

  /** The clock frequencies that tick: those whose period the 10-bit prescaler can count. */
  predicate Ticking(c: Config) { 100000 <= c.freq < 102500000 }

  /** Pulses presented before cycle `t`, counted from reset. */
  function PulsesBefore(p: nat, t: nat): nat
    requires p > 0
  {
    if t == 0 then 0 else (t - 1) / p
  }

  lemma ModNext(t: nat, p: nat)
    requires p > 0
    ensures (t + 1) % p == if t % p == p - 1 then 0 else t % p + 1
  {
    DivBounds(t, p);
    if t % p == p - 1 {
      DivUnique(t + 1, p, t / p + 1);
    } else {
      DivUnique(t + 1, p, t / p);
    }
  }

  /** One edge of the prescaler: it never looks at the bus. */
  lemma PrescalerStep(run: Run, t: nat)
    requires run.Valid() && t < |run.ins|
    ensures run.At(t + 1).counter == NextCounter(run.c, run.At(t).counter)
    ensures run.At(t + 1).tick == (run.At(t).counter == Threshold(run.c))
  {
    assert run.Linked(t);
  }

  lemma ThresholdValue(c: Config)
    ensures Ticking(c) <==> 1 <= Period(c) <= COUNTER_SPAN
    ensures Ticking(c) ==> Threshold(c) == Period(c) - 1
    ensures !Ticking(c) ==> Threshold(c) >= COUNTER_SPAN
  {
  }

  /** The prescaler's step, as arithmetic on the cycle number. */
  lemma CounterWraps(c: Config, t: nat)
    requires Ticking(c)
    ensures NextCounter(c, t % Period(c)) == (t + 1) % Period(c)
  {
    ThresholdValue(c);
    ModNext(t, Period(c));
  }

  lemma ThresholdMet(c: Config, t: nat)
    requires Ticking(c)
    ensures t % Period(c) == Threshold(c) <==> (t + 1) % Period(c) == 0
  {
    ThresholdValue(c);
    ModNext(t, Period(c));
  }

  lemma CounterRunsFree(c: Config, t: nat)
    requires !Ticking(c)
    ensures NextCounter(c, t % 1024) == (t + 1) % 1024
  {
    ThresholdValue(c);
  }

  /**
   * Closed form of the prescaler, whatever the bus does: from 100 kHz to below 102.5 MHz, with P the
   * whole number of clock cycles in 10 us, the counter is `t mod P` and a pulse is presented on every
   * positive multiple of P; with any other clock it wraps freely and no pulse is ever presented.
   */
  lemma {:induction false} PrescalerClosedForm(run: Run, t: nat)
    requires run.FromReset() && t <= |run.ins|
    ensures 100000 <= run.c.freq < 102500000 ==> run.At(t).counter == t % (run.c.freq / 100000)
    ensures !(100000 <= run.c.freq < 102500000) ==> run.At(t).counter == t % 1024
    ensures run.At(t).tick <==> 100000 <= run.c.freq < 102500000 && t > 0 && t % (run.c.freq / 100000) == 0
  {
    if t == 0 {
      if Ticking(run.c) {
        DivUnique(0, Period(run.c), 0);
      }
    } else {
      PrescalerClosedForm(run, t - 1);
      PrescalerStep(run, t - 1);
      ThresholdValue(run.c);
      if Ticking(run.c) {
        CounterWraps(run.c, t - 1);
        ThresholdMet(run.c, t - 1);
      } else {
        CounterRunsFree(run.c, t - 1);
      }
    }
  }

  /**
   * Sharp prescaler width: a run from reset ever sees a pulse exactly when FREQ is from 100 kHz to
   * below 102.5 MHz and the run lasts one period.
   */
  lemma PulseExistsIff(run: Run)
    requires run.FromReset()
    ensures (exists t: nat :: t <= |run.ins| && run.At(t).tick)
       <==> 100000 <= run.c.freq < 102500000 && run.c.freq / 100000 <= |run.ins|
  {
    forall t: nat | t <= |run.ins| && run.At(t).tick ensures Ticking(run.c) && Period(run.c) <= |run.ins| {
      PrescalerClosedForm(run, t);
      if t < Period(run.c) {
        DivUnique(t, Period(run.c), 0);
        assert false;
      }
    }
    if Ticking(run.c) && Period(run.c) <= |run.ins| {
      PrescalerClosedForm(run, Period(run.c));
      assert run.At(Period(run.c)).tick;
    }
  }

  /** Outside those periods `mtime` changes only by bus writes. */
  lemma {:induction false} FrozenTime(run: Run, i: nat, j: nat)
    requires run.FromReset() && !Ticking(run.c) && i <= j <= |run.ins| && run.TimeQuiet(i, j)
    ensures run.Time(j) == run.Time(i)
  {
    if i < j {
      FrozenTime(run, i, j - 1);
      PrescalerClosedForm(run, j - 1);
      TimeStep(run, j - 1);
    }
  }

  lemma PulsesBeforeStep(p: nat, t: nat)
    requires p > 0
    ensures PulsesBefore(p, t + 1) == PulsesBefore(p, t) + if t > 0 && t % p == 0 then 1 else 0
  {
    if t > 0 {
      DivBounds(t - 1, p);
      ModNext(t - 1, p);
      if (t - 1) % p == p - 1 {
        DivUnique(t, p, (t - 1) / p + 1);
      } else {
        DivUnique(t, p, (t - 1) / p);
      }
    } else {
      DivUnique(0, p, 0);
    }
  }

  /** The number of pulses between two cycles, from the cycle numbers alone. */
  lemma {:induction false} PulseCount(run: Run, i: nat, j: nat)
    requires run.FromReset() && Ticking(run.c) && i <= j <= |run.ins|
    ensures run.Pulses(i, j) == PulsesBefore(Period(run.c), j) - PulsesBefore(Period(run.c), i)
  {
    if i < j {
      PulseCount(run, i, j - 1);
      PrescalerClosedForm(run, j - 1);
      PulsesBeforeStep(Period(run.c), j - 1);
    }
  }

  /** `mtime` in closed form while nobody has written it. */
  lemma TimeClosedForm(run: Run, t: nat)
    requires run.FromReset() && Ticking(run.c) && 1 <= t <= |run.ins| && run.TimeQuiet(0, t)
    ensures run.Time(t) == Wrap((t - 1) / (run.c.freq / 100000))
  {
    TimeAdvances(run, 0, t);
    PulseCount(run, 0, t);
  }

  /** Two cycles n periods apart or less are at most n ticks apart. */
  lemma PulsesBeforeGap(p: nat, i: nat, j: nat, n: nat)
    requires p > 0 && i <= j <= i + n * p
    ensures PulsesBefore(p, j) <= PulsesBefore(p, i) + n
  {
    if j > 0 {
      var a, b := PulsesBefore(p, i), PulsesBefore(p, j);
      DivBounds(j - 1, p);
      if i > 0 {
        DivBounds(i - 1, p);
      }
      assert (a + 1 + n) * p == (a + 1) * p + n * p;
      if b > a + n {
        MulMono(a + 1 + n, b, p);
        assert false;
      }
    }
  }

  /** The bridge from clock cycles to ticks, whatever the phase of the prescaler. */
  lemma PulsesInWindow(run: Run, i: nat, j: nat, n: nat)
    requires run.FromReset() && Ticking(run.c) && i <= j <= |run.ins|
    requires j - i <= n * Period(run.c)
    ensures run.Pulses(i, j) <= n
  {
    PulseCount(run, i, j);
    PulsesBeforeGap(Period(run.c), i, j, n);
  }

  lemma Accuracy(p: nat, m: nat, f: nat, t: nat)
    requires p * TIMEBASE_HZ <= f < (p + 1) * TIMEBASE_HZ
    requires p >= 1 && t >= 1 && m * p <= t - 1 < (m + 1) * p
    ensures (m + 1) * f >= 100000 * t
    ensures m * (f - 100000) <= 100000 * (t - 1)
  {
    MulMono(p * TIMEBASE_HZ, f, m + 1);
    assert (m + 1) * (p * TIMEBASE_HZ) == ((m + 1) * p) * TIMEBASE_HZ;
    MulMono(f - TIMEBASE_HZ, p * TIMEBASE_HZ, m);
    assert m * (p * TIMEBASE_HZ) == (m * p) * TIMEBASE_HZ;
  }

  lemma WholePeriods(f: nat)
    requires f >= 100000
    ensures f / 100000 >= 1 && (f / 100000) * TIMEBASE_HZ <= f < (f / 100000 + 1) * TIMEBASE_HZ
  {
  }

  lemma AccurateTicks(f: nat, t: nat, m: nat)
    requires f >= 100000 && t >= 1 && m == (t - 1) / (f / 100000)
    ensures (m + 1) * f >= 100000 * t
    ensures m * (f - 100000) <= 100000 * (t - 1)
  {
    WholePeriods(f);
    DivBounds(t - 1, f / 100000);
    Accuracy(f / 100000, m, f, t);
  }

  /**
   * Time-base accuracy for any clock frequency, multiple of 100 kHz or not: until `mtime` wraps it
   * is never more than one tick behind an ideal 100 kHz clock and gains less than one part in P.
   */
  lemma TimebaseAccuracy(run: Run, t: nat)
    requires run.FromReset() && Ticking(run.c) && 1 <= t <= |run.ins| && run.TimeQuiet(0, t)
    requires (t - 1) / (run.c.freq / 100000) < B64
    ensures (run.Time(t) + 1) * run.c.freq >= 100000 * t
    ensures run.Time(t) * (run.c.freq - 100000) <= 100000 * (t - 1)
  {
    TimeClosedForm(run, t);
    AccurateTicks(run.c.freq, t, run.Time(t));
  }

  // ----- conservation of pulses -----

  /** Cycles of [i, j) whose pulse incremented `mtime`, and those whose pulse a write displaced. */
  ghost function Applied(run: Run, i: nat, j: nat): nat
    requires run.Valid() && i <= j <= |run.ins|
  {
    if i == j then 0
    else Applied(run, i, j - 1) + if run.At(j - 1).tick && !run.WritesTimeAt(j - 1) then 1 else 0
  }

  ghost function Lost(run: Run, i: nat, j: nat): nat
    requires run.Valid() && i <= j <= |run.ins|
  {
    if i == j then 0
    else Lost(run, i, j - 1) + if run.At(j - 1).tick && run.WritesTimeAt(j - 1) then 1 else 0
  }

  /**
   * Conservation: from reset, every P-th cycle yields one pulse, which either is applied or is lost
   * to an `mtime` write accepted on that very cycle.
   */
  lemma {:induction false} PulseConservation(run: Run, j: nat)
    requires run.FromReset() && Ticking(run.c) && j <= |run.ins|
    ensures Applied(run, 0, j) + Lost(run, 0, j) == PulsesBefore(Period(run.c), j)
  {
    if j > 0 {
      PulseConservation(run, j - 1);
      PrescalerClosedForm(run, j - 1);
      PulsesBeforeStep(Period(run.c), j - 1);
    }
  }

  /** What the `mtime` writes of [i, j) added up to: each one's jump, up or down. */
  ghost function Displaced(run: Run, i: nat, j: nat): int
    requires run.Valid() && i <= j <= |run.ins|
  {
    if i == j then 0
    else Displaced(run, i, j - 1) + if run.WritesTimeAt(j - 1) then run.Time(j) - run.Time(j - 1) else 0
  }

  /** What cycle `t` does to `mtime`, before truncation. */
  ghost function Change(run: Run, t: nat): int
    requires run.Valid() && t < |run.ins|
  {
    if run.WritesTimeAt(t) then run.Time(t + 1) - run.Time(t) else if run.At(t).tick then 1 else 0
  }

  lemma ChangeMoves(run: Run, t: nat)
    requires run.Valid() && t < |run.ins|
    ensures run.Time(t + 1) == (run.Time(t) + Change(run, t)) % 0x1_0000_0000_0000_0000
  {
    TimeStep(run, t);
  }

  lemma LedgerGrows(run: Run, i: nat, j: nat)
    requires run.Valid() && i < j <= |run.ins|
    ensures Applied(run, i, j) + Displaced(run, i, j)
         == Applied(run, i, j - 1) + Displaced(run, i, j - 1) + Change(run, j - 1)
  {
  }

  /** The complete ledger of `mtime` over any run with any writes: applied pulses plus jumps, mod 2^64. */
  lemma {:induction false} TimeLedger(run: Run, i: nat, j: nat)
    requires run.Valid() && i <= j <= |run.ins|
    ensures run.Time(j) == (run.Time(i) + Applied(run, i, j) + Displaced(run, i, j)) % 0x1_0000_0000_0000_0000
  {
    if i < j {
      TimeLedger(run, i, j - 1);
      ChangeMoves(run, j - 1);
      LedgerGrows(run, i, j);
      LedgerStep(run.Time(i) + Applied(run, i, j - 1) + Displaced(run, i, j - 1), run.Time(j - 1), Change(run, j - 1));
    }
  }

  lemma LedgerStep(x: int, m: Double, y: int)
    requires m == x % 0x1_0000_0000_0000_0000
    ensures (x + y) % 0x1_0000_0000_0000_0000 == (m + y) % 0x1_0000_0000_0000_0000
  {
  }

  /**
   * After the last `mtime` write, accepted on cycle `w`, `mtime` is the value that write left (one
   * half replaced, the other kept) plus the later pulses; a pulse on cycle `w` itself is not in it.
   */
  lemma TimeSinceWrite(run: Run, w: nat, j: nat)
    requires run.Valid() && w < j <= |run.ins| && run.WritesTimeAt(w) && run.TimeQuiet(w + 1, j)
    ensures var half := if Target(run.c.harts, run.ins[w]) == Some(TimeLo) then 0 else 1;
            run.Time(j) == Wrap(Splice(run.Time(w), half, run.ins[w].wdata) + run.Pulses(w + 1, j))
  {
    TimeStep(run, w);
    TimeAdvances(run, w + 1, j);
  }
}
