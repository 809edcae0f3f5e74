/** The 32-bit driver: ordered volatile accesses, while the device ticks and others use the bus. */
module Driver {
  import opened Words
  import opened Device
  import opened Registers
  import opened Refinement
  import opened Runs
  import Timebase
  import opened TimeAccess
  import opened Compare
  import opened SystemBus
  import opened Arming
  import opened TimerHistory

  /** The cycles of the loads of some passes of the polling loop. */
  ghost function Positions(qs: seq<Round>): set<nat>
  {
    if qs == [] then {} else Positions(qs[..|qs| - 1]) + {qs[|qs| - 1].a, qs[|qs| - 1].b, qs[|qs| - 1].d}
  }

  /** In the run's latest state the low word of `mtime` is at most two ticks before its rollover. */
  ghost predicate NearRollover(run: Run)
    requires run.Valid()
  {
    Lo(run.Time(|run.ins|)) >= 0xFFFF_FFFE
  }

  lemma ThreeEdges(run: Run, i: nat)
    requires run.Valid() && i + 3 <= |run.ins| && run.TimeQuiet(i, i + 3)
    ensures run.Time(i + 2) == Wrap(run.Time(i) + run.Pulses(i, i + 2)) && run.Pulses(i, i + 2) <= 2
    ensures run.Time(i + 3) == Wrap(run.Time(i) + run.Pulses(i, i + 3))
    ensures run.Pulses(i, i + 2) <= run.Pulses(i, i + 3) <= run.Pulses(i, i + 2) + 1
  {
    TimeAdvances(run, i, i + 2);
    TimeAdvances(run, i, i + 3);
    PulsesSplit(run, i, i + 1, i + 2);
    PulsesSplit(run, i, i + 2, i + 3);
  }

  /** A failed pass with nothing between its loads starts just before a rollover, and ends past it. */
  lemma QuickRetry(before: Run, run: Run, q: Round)
    requires before.Valid() && run.Valid() && before.Begins(run) && RoundIn(run, q) && !Agrees(run, q)
    requires q == Round(|before.ins|, |before.ins| + 1, |before.ins| + 2) && |run.ins| == q.d + 1
    ensures NearRollover(before) && !NearRollover(run)
  {
    RoundAnswers(run, q);
    assert !run.WritesTimeAt(q.a) && !run.WritesTimeAt(q.b) && !run.WritesTimeAt(q.d);
    ThreeEdges(run, q.a);
    QuickCarry(run.Time(q.a), run.Pulses(q.a, q.d), run.Pulses(q.a, q.d + 1));
  }

  lemma QuickCarry(m: Double, k: nat, k': nat)
    requires k <= 2 && k <= k' <= k + 1 && Hi(m) != Hi(Wrap(m + k))
    ensures Lo(m) >= 0xFFFF_FFFE && Lo(Wrap(m + k')) < 0xFFFF_FFFE
  {
    PartsJoin(m);
    if Lo(m) < 0xFFFF_FFFE {
      WrapIs(m + k, Hi(m), Lo(m) + k);
      assert false;
    } else {
      LowAfter(m + k');
      SumLow(Hi(m), Lo(m), k');
    }
  }

  lemma PortSees(n: nat, base: int, reg: Register)
    requires n <= 2048 && InRange(n, reg) && base % 0x10000 == 0
    ensures Port(base + AddressOf(reg)) == AddressOf(reg)
    ensures RegisterAt(n, Port(base + AddressOf(reg))) == Some(reg)
  {
    AddressRoundTrip(n, reg);
    LowBits(base, AddressOf(reg));
  }

  lemma LowBits(base: int, offset: nat)
    requires base % 0x10000 == 0 && offset < 0x10000
    ensures Port(base + offset) == offset
  {
  }

  /** The passes of one call of the polling loop, from cycle `from` on: all failed but perhaps the last. */
  ghost predicate Polls(run: Run, passes: seq<Round>, from: nat)
    requires run.Valid()
  {
    && Rounds(run, passes)
    && (passes != [] ==> from <= passes[0].a)
    && (forall i: nat :: i + 1 < |passes| ==> Failed(run, passes, i))
  }

  lemma PollsKept(run: Run, longer: Run, passes: seq<Round>, from: nat)
    requires run.Valid() && longer.Valid() && run.Begins(longer) && Polls(run, passes, from)
    ensures Polls(longer, passes, from)
  {
    forall i: nat | i < |passes| ensures PassIn(longer, passes, i) {
      assert PassIn(run, passes, i);
      RoundKept(run, longer, passes[i]);
    }
    forall i: nat | i + 1 < |passes| ensures Failed(longer, passes, i) {
      assert Failed(run, passes, i);
      RoundKept(run, longer, passes[i]);
    }
  }

  lemma PollsGrow(run: Run, longer: Run, passes: seq<Round>, from: nat, q: Round)
    requires run.Valid() && longer.Valid() && run.Begins(longer) && Polls(run, passes, from)
    requires passes != [] ==> Failed(run, passes, |passes| - 1)
    requires RoundIn(longer, q) && from <= |run.ins| <= q.a
    ensures Polls(longer, passes + [q], from)
  {
    var n, grown := |passes|, passes + [q];
    PollsKept(run, longer, passes, from);
    forall i: nat | i < |grown| ensures PassIn(longer, grown, i) {
      if i < n {
        assert PassIn(longer, passes, i);
      } else if n > 0 {
        assert PassIn(run, passes, n - 1);
      }
    }
    forall i: nat | i < n ensures Failed(longer, grown, i) {
      assert Failed(run, passes, i);
      RoundKept(run, longer, passes[i]);
    }
  }

  /** What a load on the run's last cycle brought back. */
  ghost predicate Loaded(run: Run, t: nat, reg: Register, data: Word)
    requires run.Valid()
  {
    run.LoadsAt(t, reg) && t + 1 == |run.ins| && data == run.At(t + 1).rdata
  }

  /** The first two loads of a pass, and nothing of the hart's after them. */
  ghost predicate HighThenLow(before: Run, run: Run, a: nat, b: nat, hi: Word, lo: Word)
    requires run.Valid()
  {
    && |before.ins| <= a < b && run.LoadsAt(a, TimeHi) && hi == run.At(a + 1).rdata
    && Loaded(run, b, TimeLo, lo)
  }

  lemma TwoLoads(before: Run, first: Run, run: Run, a: nat, b: nat, hi: Word, lo: Word)
    requires first.Valid() && run.Valid() && before.Begins(first) && first.Begins(run)
    requires Loaded(first, a, TimeHi, hi) && Loaded(run, b, TimeLo, lo) && |before.ins| <= a && |first.ins| <= b
    ensures HighThenLow(before, run, a, b, hi, lo)
  {
    assert run.ins[a] == first.ins[a] && run.states[a + 1] == first.states[a + 1];
  }

  /** The three loads of a pass, and what a failed pass says if nothing came between them. */
  lemma PassMade(before: Run, second: Run, run: Run, q: Round, hi: Word, lo: Word, check: Word)
    requires before.Valid() && second.Valid() && run.Valid() && before.Begins(run) && second.Begins(run)
    requires HighThenLow(before, second, q.a, q.b, hi, lo) && Loaded(run, q.d, TimeHi, check) && |second.ins| <= q.d
    ensures RoundIn(run, q) && |before.ins| <= q.a && q.d + 1 == |run.ins|
    ensures Answer(run, q) == Join(hi, lo) && (Agrees(run, q) <==> hi == check)
    ensures hi != check && |run.ins| == |before.ins| + 3 ==> NearRollover(before) && !NearRollover(run)
  {
    assert run.ins[q.a] == second.ins[q.a] && run.ins[q.b] == second.ins[q.b];
    assert run.states[q.a + 1] == second.states[q.a + 1] && run.states[q.b + 1] == second.states[q.b + 1];
    if hi != check && |run.ins| == |before.ins| + 3 {
      QuickRetry(before, run, q);
    }
  }

  lemma PositionsGrow(passes: seq<Round>, q: Round)
    ensures Positions(passes + [q]) == Positions(passes) + {q.a, q.b, q.d}
  {
    assert (passes + [q])[..|passes|] == passes;
  }

  /** A finished call: its last pass was accepted. */
  ghost predicate Read(run: Run, passes: seq<Round>, from: nat)
    requires run.Valid()
  {
    passes != [] && Polls(run, passes, from) && Accepted(run, passes[|passes| - 1])
  }

  ghost predicate Accepted(run: Run, q: Round)
    requires run.Valid()
  {
    RoundIn(run, q) && Agrees(run, q)
  }

  ghost function Result(run: Run, passes: seq<Round>): Double
    requires run.Valid() && passes != [] && Accepted(run, passes[|passes| - 1])
  {
    Answer(run, passes[|passes| - 1])
  }

  lemma ReadKept(run: Run, longer: Run, passes: seq<Round>, from: nat)
    requires run.Valid() && longer.Valid() && run.Begins(longer) && Read(run, passes, from)
    ensures Read(longer, passes, from) && Result(longer, passes) == Result(run, passes)
  {
    PollsKept(run, longer, passes, from);
    RoundKept(run, longer, passes[|passes| - 1]);
  }

  lemma ReadOrder(run: Run, passes: seq<Round>, from: nat)
    requires run.Valid() && Read(run, passes, from)
    ensures from <= passes[|passes| - 1].a && passes[|passes| - 1].d < |run.ins|
  {
    RoundsInOrder(run, passes, |passes| - 1);
  }

  /** With `mtime` left alone during the accepted pass, the result is `mtime` at its low-word load. */
  lemma ReadLinearizes(run: Run, passes: seq<Round>, from: nat)
    requires run.Valid() && Read(run, passes, from)
    ensures var q := passes[|passes| - 1];
            run.TimeQuiet(q.a, q.d) && run.Pulses(q.a, q.d) <= B64 - B32 ==> Result(run, passes) == run.Time(q.b)
  {
    var q := passes[|passes| - 1];
    if run.TimeQuiet(q.a, q.d) && run.Pulses(q.a, q.d) <= B64 - B32 {
      LinearizableRead(run, q);
    }
  }

  /** A finished call that nobody disturbed made no more passes than rollovers allow. */
  lemma PassesBounded(run: Run, passes: seq<Round>, from: nat)
    requires run.Valid() && Read(run, passes, from) && |passes| >= 2
    ensures var first, last := passes[0].a, passes[|passes| - 2].d;
            first <= last < |run.ins|
            && (run.TimeQuiet(first, last) ==> run.Pulses(first, last) >= (|passes| - 2) * 0x1_0000_0000 + 1)
  {
    var n := |passes| - 1;
    RoundsInOrder(run, passes, n - 1);
    if run.TimeQuiet(passes[0].a, passes[n - 1].d) {
      RetryCost(run, passes, n);
    }
  }

  lemma {:induction false} PositionsAreLoads(run: Run, passes: seq<Round>, t: nat)
    requires run.Valid() && Rounds(run, passes) && t in Positions(passes)
    ensures t < |run.ins| && run.ins[t].wstrb == 0
  {
    var n := |passes| - 1;
    assert PassIn(run, passes, n);
    if t !in {passes[n].a, passes[n].b, passes[n].d} {
      forall i: nat | i < n ensures PassIn(run, passes[..n], i) {
        assert PassIn(run, passes, i);
      }
      PositionsAreLoads(run, passes[..n], t);
    }
  }

  /** Reads and one three-store update store nothing but the update's three words. */
  lemma ReadsAndStores(run: Run, own: set<nat>, before: set<nat>, qs: seq<Round>, more: seq<Round>, k: Call, from: nat)
    requires run.Valid() && Rounds(run, qs) && Rounds(run, more) && k.hart == 0 && Issued(run, k)
    requires own == before + Positions(qs) + Positions(more) + StoresOf(k) && (forall t :: t in before ==> t < from)
    ensures OnlyStores(run, own, from, k)
  {
    forall t | t in own && from <= t < |run.ins|
      ensures !run.WritesTimeAt(t) && (run.ins[t].wstrb != 0 ==> t in StoresOf(k))
    {
      if t in Positions(qs) {
        PositionsAreLoads(run, qs, t);
      } else if t in Positions(more) {
        PositionsAreLoads(run, more, t);
      }
    }
  }

  /** The driver does not disturb itself: what it needs left alone, its own accesses leave alone. */
  lemma ArmingIsQuiet(run: Run, own: set<nat>, before: set<nat>, passes: seq<Round>, k: Call, from: nat)
    requires run.Valid() && Rounds(run, passes) && k.hart == 0 && Issued(run, k) && from <= k.a
    requires own == before + Positions(passes) + StoresOf(k) && (forall t :: t in before ==> t < from)
    ensures Undisturbed(run, own, from) ==> run.TimeQuiet(from, |run.ins|) && Alone(run, k, |run.ins|)
  {
    ReadsAndStores(run, own, before, passes, [], k, from);
  }

  /** A finished read followed by a three-store update with its result plus `offset` is an arming. */
  lemma ReadThenArmed(read: Run, run: Run, passes: seq<Round>, from: nat, now: Double, k: Call, offset: nat)
    requires read.Valid() && run.Valid() && read.Begins(run) && Read(read, passes, from)
    requires k.hart == 0 && Issued(run, k) && |read.ins| <= k.a
    requires now == Result(read, passes) && k.time == Wrap(now + offset)
    ensures Read(run, passes, from) && from <= passes[|passes| - 1].a < k.a
    ensures Arms(run, passes[|passes| - 1], k, offset)
  {
    ReadKept(read, run, passes, from);
    ReadOrder(read, passes, from);
  }

  // ----- the accesses of a call, by their absolute addresses -----

  /** High, low, high. */
  function OnePass(s: Script, base: int): Script
  {
    s.Do(Peek(base + 0xBFFC)).Do(Peek(base + 0xBFF8)).Do(Peek(base + 0xBFFC))
  }

  function Polling(s: Script, base: int, passes: nat): Script
  {
    if passes == 0 then s else OnePass(Polling(s, base, passes - 1), base)
  }

  /** All ones high, then the low word, then the high word. */
  function Update(s: Script, base: int, hart: nat, time: Double): Script
  {
    s.Do(Poke(base + 0x4004 + 8 * hart, 0xFFFF_FFFF)).Do(Poke(base + 0x4000 + 8 * hart, Lo(time)))
     .Do(Poke(base + 0x4004 + 8 * hart, Hi(time)))
  }

  /** The update by the addresses the driver computes. */
  lemma UpdateScript(s: Script, base: int, hart: nat, time: Double)
    ensures Update(s, base, hart, time)
         == s.Do(Poke(base + MTIMECMP_BASE + 8 * hart + 4, ALL_ONES)).Do(Poke(base + MTIMECMP_BASE + 8 * hart, Lo(time)))
             .Do(Poke(base + MTIMECMP_BASE + 8 * hart + 4, Hi(time)))
  {
  }

  class ClintDriver {
    const soc: Soc
    var clintBase: int

    /** The interconnect maps the device on a 64 KiB boundary: its port sees the low 16 address bits. */
    ghost predicate Ready()
      reads this, soc, soc.Repr()
    {
      soc.Valid() && clintBase % 0x10000 == 0
    }

    /** The traps are kept, and the base. */
    ghost predicate Kept(enables: Traps, states: set<nat>, base: int)
      reads this, soc
    {
      soc.TrapsKept(enables, states) && clintBase == base
    }

    constructor (soc: Soc, base: int)
      requires soc.Valid() && base % 0x10000 == 0
      ensures this.soc == soc && Ready() && clintBase == base
    {
      this.soc := soc;
      clintBase := base;
    }

    /** `clint_init`. */
    method ClintInit(base: int)
      requires soc.Valid() && base % 0x10000 == 0
      modifies this
      ensures Ready() && clintBase == base
    {
      clintBase := base;
    }

    method Store(address: int, data: Word, ghost reg: Register) returns (ghost t: nat)
      requires Ready() && InRange(soc.c.harts, reg) && address == clintBase + AddressOf(reg)
      modifies soc.Repr()
      ensures Ready() && old(soc.run).Begins(soc.run) && Kept(old(soc.traps), old(soc.trapping), old(clintBase))
      ensures |old(soc.run).ins| <= t && t + 1 == |soc.run.ins| && soc.run.StoresAt(t, reg, data)
      ensures soc.run.ins[t] == Cycle(true, (clintBase + AddressOf(reg)) % 0x10000, data, 15, 0)
      ensures soc.own == old(soc.own) + {t} && soc.script == old(soc.script).Do(Poke(address, data))
    {
      PortSees(soc.c.harts, clintBase, reg);
      soc.Access(Poke(address, data));
      t := |soc.run.ins| - 1;
    }

    method Load(address: int, ghost reg: Register) returns (data: Word, ghost t: nat)
      requires Ready() && InRange(soc.c.harts, reg) && address == clintBase + AddressOf(reg)
      modifies soc.Repr()
      ensures Ready() && old(soc.run).Begins(soc.run) && Kept(old(soc.traps), old(soc.trapping), old(clintBase))
      ensures |old(soc.run).ins| <= t && Loaded(soc.run, t, reg, data) && soc.run.At(t + 1).rvalid
      ensures soc.own == old(soc.own) + {t} && soc.script == old(soc.script).Do(Peek(address))
      ensures soc.schedule == if old(soc.schedule) == [] then [] else old(soc.schedule)[1..]
      ensures old(soc.schedule) == [] ==> t == |old(soc.run).ins|
    {
      PortSees(soc.c.harts, clintBase, reg);
      soc.Access(Peek(address));
      t := |soc.run.ins| - 1;
      LoadAnswers(soc.run, t, reg);
      data := soc.clint.rdataReg;
    }

    /** `clint_set_timer`: the plain low-then-high write. */
    method SetTimer(time: Double) returns (ghost a: nat, ghost b: nat)
      requires Ready()
      modifies soc.Repr()
      ensures Ready() && old(soc.run).Begins(soc.run) && Kept(old(soc.traps), old(soc.trapping), old(clintBase))
      ensures |old(soc.run).ins| <= a < b && b + 1 == |soc.run.ins| && soc.own == old(soc.own) + {a, b}
      ensures soc.run.StoresAt(a, TimeLo, Lo(time)) && soc.run.StoresAt(b, TimeHi, Hi(time))
      ensures soc.script == old(soc.script).Do(Poke(clintBase + 0xBFF8, Lo(time))).Do(Poke(clintBase + 0xBFFC, Hi(time)))
      ensures soc.run.TimeQuiet(a + 1, b) ==>
                soc.clint.mtime == Join(Hi(time), (Lo(time) + soc.run.Pulses(a + 1, b)) % B32)
    {
      a := Store(clintBase + MTIME_BASE, Lo(time), TimeLo);
      b := Store(clintBase + MTIME_BASE + 4, Hi(time), TimeHi);
      if soc.run.TimeQuiet(a + 1, b) {
        PlainWriteEffect(soc.run, a, b, time);
      }
    }

    /** `clint_get_timer`: the plain low-then-high read. */
    method GetTimer() returns (time: Double, ghost a: nat, ghost b: nat)
      requires Ready()
      modifies soc.Repr()
      ensures Ready() && old(soc.run).Begins(soc.run) && Kept(old(soc.traps), old(soc.trapping), old(clintBase))
      ensures |old(soc.run).ins| <= a < b && b + 1 == |soc.run.ins| && soc.own == old(soc.own) + {a, b}
      ensures soc.run.LoadsAt(a, TimeLo) && soc.run.LoadsAt(b, TimeHi)
      ensures soc.script == old(soc.script).Do(Peek(clintBase + 0xBFF8)).Do(Peek(clintBase + 0xBFFC))
      ensures time == Join(Hi(soc.run.Time(b)), Lo(soc.run.Time(a)))
      ensures soc.run.TimeQuiet(a, b) ==>
                time == Wrap(soc.run.Time(a) + Rollovers(soc.run, a, b) * 0x1_0000_0000)
      ensures soc.run.TimeQuiet(a, b) && soc.run.Pulses(a, b) <= B64 - B32 ==>
                (time == soc.run.Time(a) <==> Lo(soc.run.Time(a)) + soc.run.Pulses(a, b) < B32)
    {
      var lo, hi;
      lo, a := Load(clintBase + MTIME_BASE, TimeLo);
      hi, b := Load(clintBase + MTIME_BASE + 4, TimeHi);
      time := Join(hi, lo);
      PlainReadResult(soc.run, a, b, time);
    }

    /** What a finished three-store update promises. */
    ghost predicate Updated(k: Call)
      requires Ready() && Issued(soc.run, k)
      reads this, soc, soc.Repr()
    {
      Alone(soc.run, k, |soc.run.ins|) ==>
        && CmpWord(soc.clint.mtimecmp[..], k.hart) == k.time
        && (forall t :: k.a <= t <= |soc.run.ins| && soc.run.Tip(t, k.hart) ==>
              soc.run.Time(t) >= Atomic(soc.run, k, t))
    }

    lemma UpdatedHolds(k: Call)
      requires Ready() && Issued(soc.run, k)
      ensures Updated(k)
    {
      var n := |soc.run.ins|;
      if Alone(soc.run, k, n) {
        CallStages(soc.run, k, n);
        assert Abs(soc.c, soc.clint.State()).cmp[k.hart] == CmpWord(soc.clint.mtimecmp[..], k.hart);
        forall t | k.a <= t <= n && soc.run.Tip(t, k.hart) ensures soc.run.Time(t) >= Atomic(soc.run, k, t) {
          NoSpuriousInterrupt(soc.run, k, t);
        }
      }
    }

    /**
     * The pin after an arming that nobody disturbs: in the device's latest state it is high exactly
     * when that state is at or past the cycle the reading and the offset fix.
     */
    lemma ArmedPin(q: Round, k: Call, offset: nat)
      requires Ready() && Timebase.Ticking(soc.c) && Arms(soc.run, q, k, offset) && offset > 0
      requires Steady(soc.run, q.a, |soc.run.ins|) && Alone(soc.run, k, |soc.run.ins|)
      requires soc.run.Time(q.b) + offset < B64
      ensures soc.clint.mtipReg[0] <==> |soc.run.ins| >= DueCycle(Period(soc.c), q.b, offset)
    {
      ArmedInCycles(soc.run, q, k, offset, |soc.run.ins|);
      soc.PinsFollow(0);
    }

    /** `clint_set_timercmp`. */
    method SetTimerCmp(time: Double, hart: nat) returns (ghost k: Call)
      requires Ready() && hart < soc.c.harts
      modifies soc.Repr()
      ensures Ready() && old(soc.run).Begins(soc.run) && Kept(old(soc.traps), old(soc.trapping), old(clintBase))
      ensures k.hart == hart && k.time == time && Issued(soc.run, k)
      ensures |old(soc.run).ins| <= k.a && k.d + 1 == |soc.run.ins| && soc.own == old(soc.own) + {k.a, k.b, k.d}
      ensures Updated(k) && soc.script == Update(old(soc.script), clintBase, hart, time)
    {
      ghost var a := Store(clintBase + MTIMECMP_BASE + 8 * hart + 4, ALL_ONES, CmpHi(hart));
      ghost var b := Store(clintBase + MTIMECMP_BASE + 8 * hart, Lo(time), CmpLo(hart));
      ghost var d := Store(clintBase + MTIMECMP_BASE + 8 * hart + 4, Hi(time), CmpHi(hart));
      UpdateScript(old(soc.script), clintBase, hart, time);
      k := Call(hart, time, a, b, d);
      UpdatedHolds(k);
    }

    /** `clint_get_timercmp`. */
    method GetTimerCmp(hart: nat) returns (time: Double, ghost e: nat, ghost f: nat)
      requires Ready() && hart < soc.c.harts
      modifies soc.Repr()
      ensures Ready() && old(soc.run).Begins(soc.run) && Kept(old(soc.traps), old(soc.trapping), old(clintBase))
      ensures |old(soc.run).ins| <= e < f && f + 1 == |soc.run.ins| && soc.own == old(soc.own) + {e, f}
      ensures soc.run.LoadsAt(e, CmpLo(hart)) && soc.run.LoadsAt(f, CmpHi(hart))
      ensures soc.script
           == old(soc.script).Do(Peek(clintBase + 0x4000 + 8 * hart)).Do(Peek(clintBase + 0x4004 + 8 * hart))
      ensures time == Join(Hi(soc.run.Cmp(f, hart)), Lo(soc.run.Cmp(e, hart)))
      ensures soc.run.CmpQuiet(hart, e, f) ==> time == soc.run.Cmp(e, hart)
    {
      var lo, hi;
      lo, e := Load(clintBase + MTIMECMP_BASE + 8 * hart, CmpLo(hart));
      hi, f := Load(clintBase + MTIMECMP_BASE + 8 * hart + 4, CmpHi(hart));
      time := Join(hi, lo);
      LoadAnswers(soc.run, e, CmpLo(hart));
      LoadAnswers(soc.run, f, CmpHi(hart));
      if soc.run.CmpQuiet(hart, e, f) {
        CmpHolds(soc.run, hart, e, f);
        PartsJoin(soc.run.Cmp(e, hart));
      }
    }

    /** `clint_set_msip`. */
    method SetMsip(value: Word, hart: nat) returns (ghost t: nat)
      requires Ready() && hart < soc.c.harts
      modifies soc.Repr()
      ensures Ready() && old(soc.run).Begins(soc.run) && Kept(old(soc.traps), old(soc.trapping), old(clintBase))
      ensures |old(soc.run).ins| <= t && t + 1 == |soc.run.ins| && soc.own == old(soc.own) + {t}
      ensures soc.script == old(soc.script).Do(Poke(clintBase + 4 * hart, value))
      ensures soc.clint.msipReg[hart] == (value % 2 == 1)
      ensures forall h :: 0 <= h < soc.c.harts && h != hart ==> soc.clint.msipReg[h] == soc.run.At(t).msip[h]
    {
      t := Store(clintBase + 4 * hart, value, Msip(hart));
      assert soc.run.Linked(t);
      assert soc.clint.msipReg[..] == soc.run.At(t + 1).msip;
    }

    /** `clint_get_msip`. */
    method GetMsip(hart: nat) returns (value: Word, ghost t: nat)
      requires Ready() && hart < soc.c.harts
      modifies soc.Repr()
      ensures Ready() && old(soc.run).Begins(soc.run) && Kept(old(soc.traps), old(soc.trapping), old(clintBase))
      ensures |old(soc.run).ins| <= t && t + 1 == |soc.run.ins| && soc.own == old(soc.own) + {t}
      ensures soc.script == old(soc.script).Do(Peek(clintBase + 4 * hart))
      ensures value == if soc.run.At(t).msip[hart] then 1 else 0
    {
      value, t := Load(clintBase + 4 * hart, Msip(hart));
      LoadAnswers(soc.run, t, Msip(hart));
    }

    /** The loop's first two loads. */
    method LoadHighLow() returns (hi: Word, lo: Word, ghost a: nat, ghost b: nat)
      requires Ready()
      modifies soc.Repr()
      ensures Ready() && old(soc.run).Begins(soc.run) && Kept(old(soc.traps), old(soc.trapping), old(clintBase))
      ensures HighThenLow(old(soc.run), soc.run, a, b, hi, lo) && soc.own == old(soc.own) + {a, b}
      ensures soc.script == old(soc.script).Do(Peek(clintBase + 0xBFFC)).Do(Peek(clintBase + 0xBFF8))
      ensures old(soc.schedule) != [] ==> |soc.schedule| < |old(soc.schedule)|
      ensures old(soc.schedule) == [] ==> soc.schedule == [] && |soc.run.ins| == |old(soc.run).ins| + 2
    {
      hi, a := Load(clintBase + MTIME_BASE + 4, TimeHi);
      ghost var afterHi := soc.run;
      lo, b := Load(clintBase + MTIME_BASE, TimeLo);
      TwoLoads(old(soc.run), afterHi, soc.run, a, b, hi, lo);
    }

    /** One pass of the polling loop: high, low, high again. */
    method PollOnce() returns (hi: Word, lo: Word, check: Word, ghost q: Round)
      requires Ready()
      modifies soc.Repr()
      ensures Ready() && old(soc.run).Begins(soc.run) && Kept(old(soc.traps), old(soc.trapping), old(clintBase))
      ensures RoundIn(soc.run, q) && |old(soc.run).ins| <= q.a && q.d + 1 == |soc.run.ins|
      ensures hi == check <==> Agrees(soc.run, q)
      ensures Join(hi, lo) == Answer(soc.run, q) && soc.script == OnePass(old(soc.script), clintBase)
      ensures soc.own == old(soc.own) + {q.a, q.b, q.d}
      ensures old(soc.schedule) != [] ==> |soc.schedule| < |old(soc.schedule)|
      ensures old(soc.schedule) == [] ==> soc.schedule == []
      ensures hi != check && old(soc.schedule) == [] ==>
                NearRollover(old(soc.run)) && !NearRollover(soc.run)
    {
      ghost var a, b, d;
      hi, lo, a, b := LoadHighLow();
      ghost var afterLo := soc.run;
      check, d := Load(clintBase + MTIME_BASE + 4, TimeHi);
      q := Round(a, b, d);
      PassMade(old(soc.run), afterLo, soc.run, q, hi, lo, check);
    }

    /**
     * `mtimer_get_raw_time`, 32-bit branch. `passes` are the passes the loop made, the last one
     * accepted; it makes no access besides their loads.
     */
    method GetRawTime() returns (time: Double, ghost passes: seq<Round>)
      requires Ready()
      modifies soc.Repr()
      ensures Ready() && old(soc.run).Begins(soc.run) && Kept(old(soc.traps), old(soc.trapping), old(clintBase))
      ensures Read(soc.run, passes, |old(soc.run).ins|) && time == Result(soc.run, passes)
      ensures passes[|passes| - 1].d + 1 == |soc.run.ins| && soc.own == old(soc.own) + Positions(passes)
      ensures soc.script == Polling(old(soc.script), clintBase, |passes|)
      ensures var q := passes[|passes| - 1];
              soc.run.TimeQuiet(q.a, q.d) && soc.run.Pulses(q.a, q.d) <= B64 - B32 ==> time == soc.run.Time(q.b)
    {
      var hi: Word, lo: Word := 0, 0;
      var again := true;
      passes := [];
      while again
        invariant Ready() && old(soc.run).Begins(soc.run) && Kept(old(soc.traps), old(soc.trapping), old(clintBase))
        invariant Polls(soc.run, passes, |old(soc.run).ins|)
        invariant passes == [] ==> again
        invariant passes != [] ==>
                    var q := passes[|passes| - 1];
                    && RoundIn(soc.run, q) && q.d + 1 == |soc.run.ins|
                    && (again <==> !Agrees(soc.run, q)) && Join(hi, lo) == Answer(soc.run, q)
        invariant soc.own == old(soc.own) + Positions(passes)
        invariant soc.script == Polling(old(soc.script), clintBase, |passes|)
        decreases again, |soc.schedule|, NearRollover(soc.run)
      {
        ghost var before := soc.run;
        var check;
        ghost var q;
        hi, lo, check, q := PollOnce();
        again := hi != check;
        PollsGrow(before, soc.run, passes, |old(soc.run).ins|, q);
        PositionsGrow(passes, q);
          passes := passes + [q];
      }
      time := Join(hi, lo);
      ReadLinearizes(soc.run, passes, |old(soc.run).ins|);
    }

    /** `mtimer_set_raw_time_cmp`, 32-bit branch: its stores are those of `clint_set_timercmp` on hart 0. */
    method SetRawTimeCmp(offset: Double) returns (ghost passes: seq<Round>, ghost k: Call)
      requires Ready()
      modifies soc.Repr()
      ensures Ready() && old(soc.run).Begins(soc.run) && Kept(old(soc.traps), old(soc.trapping), old(clintBase))
      ensures Read(soc.run, passes, |old(soc.run).ins|) && |old(soc.run).ins| <= passes[|passes| - 1].a
      ensures Arms(soc.run, passes[|passes| - 1], k, offset) && k.d + 1 == |soc.run.ins|
      ensures soc.own == old(soc.own) + Positions(passes) + {k.a, k.b, k.d}
      ensures Updated(k) && soc.script == Update(Polling(old(soc.script), clintBase, |passes|), clintBase, 0, k.time)
      ensures Undisturbed(soc.run, soc.own, |old(soc.run).ins|) ==>
                soc.run.TimeQuiet(|old(soc.run).ins|, |soc.run.ins|) && Alone(soc.run, k, |soc.run.ins|)
    {
      var now;
      now, passes := GetRawTime();
      ghost var read := soc.run;
      k := SetTimerCmp(Wrap(now + offset), 0);
      ReadThenArmed(read, soc.run, passes, |old(soc.run).ins|, now, k, offset);
      ArmingIsQuiet(soc.run, soc.own, old(soc.own), passes, k, |old(soc.run).ins|);
    }
  }
}
