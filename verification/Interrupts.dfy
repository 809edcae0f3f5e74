/** When the timer interrupt lines move. */
module Interrupts {
  import opened Words
  import opened Device
  import opened Runs
  import opened Timebase

  const MAX_TIME: Double := 0xFFFF_FFFF_FFFF_FFFF

  /**
   * Edge rule. A line moves on an edge that writes `mtime` or its own compare register; on any
   * other edge it rises exactly when a tick makes `mtime` equal to the compare value, and falls
   * exactly when `mtime` wraps from its maximum to 0 (and the compare value is not 0).
   */
  lemma EdgeRule(run: Run, t: nat, k: nat)
    requires run.Valid() && t < |run.ins| && k < run.c.harts
    requires !run.WritesTimeAt(t) && !run.WritesCmpAt(t, k)
    ensures !run.Tip(t, k) && run.Tip(t + 1, k)
       <==> run.At(t).tick && run.Time(t) < MAX_TIME && run.Time(t + 1) == run.Cmp(t + 1, k)
    ensures run.Tip(t, k) && !run.Tip(t + 1, k)
       <==> run.At(t).tick && run.Time(t) == MAX_TIME && run.Time(t + 1) == 0 && run.Cmp(t, k) > 0
  {
    TimeStep(run, t);
    CmpStep(run, t, k);
  }

  /** The same rule read over a whole stretch without writes: the line is decided by the pulses. */
  lemma TipByPulses(run: Run, k: nat, i: nat, j: nat)
    requires run.Valid() && k < run.c.harts && i <= j <= |run.ins|
    requires run.TimeQuiet(i, j) && run.CmpQuiet(k, i, j)
    requires run.Time(i) + run.Pulses(i, j) <= MAX_TIME
    ensures run.Time(j) == run.Time(i) + run.Pulses(i, j)
    ensures run.Tip(j, k) <==> run.Time(i) + run.Pulses(i, j) >= run.Cmp(i, k)
  {
    TimeAdvances(run, i, j);
    CmpHolds(run, k, i, j);
  }

  /**
   * Nobody has written `mtime` or the line's own compare register since reset: whatever the clock
   * frequency, the line is high exactly while `mtime` is all ones.
   */
  lemma UnprogrammedLine(run: Run, k: nat, t: nat)
    requires run.FromReset() && k < run.c.harts && t <= |run.ins|
    requires run.TimeQuiet(0, t) && run.CmpQuiet(k, 0, t)
    ensures run.Tip(t, k) <==> run.Time(t) == MAX_TIME
    ensures Ticking(run.c) && t >= 1 ==> (run.Tip(t, k) <==> Wrap((t - 1) / (run.c.freq / 100000)) == MAX_TIME)
    ensures !Ticking(run.c) ==> !run.Tip(t, k)
  {
    CmpHolds(run, k, 0, t);
    if !Ticking(run.c) {
      FrozenTime(run, 0, t);
    } else if t >= 1 {
      TimeClosedForm(run, t);
    }
  }
}
