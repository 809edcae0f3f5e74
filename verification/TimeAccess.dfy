/**
 * 64-bit access to `mtime` over the 32-bit bus. A call is the positions of its accesses in a run;
 * what the bus carries on every other cycle is arbitrary.
 */
module TimeAccess {
  import opened Words
  import opened Device
  import opened Registers
  import opened Runs
  import opened Timebase

  // ----- the high / low / high polling read -----

  /** One pass of the polling loop: high word on cycle `a`, low word on `b`, high word again on `d`. */
  datatype Round = Round(a: nat, b: nat, d: nat)

  ghost predicate RoundIn(run: Run, q: Round)
  {
    && q.a < q.b < q.d < |run.ins|
    && run.LoadsAt(q.a, TimeHi) && run.LoadsAt(q.b, TimeLo) && run.LoadsAt(q.d, TimeHi)
  }

  /** What the bus answered to the loop: the loop ends when the two high words agree. */
  ghost predicate Agrees(run: Run, q: Round)
    requires run.Valid() && RoundIn(run, q)
  {
    run.At(q.a + 1).rdata == run.At(q.d + 1).rdata
  }

  ghost function Answer(run: Run, q: Round): Double
    requires run.Valid() && RoundIn(run, q)
  {
    Join(run.At(q.a + 1).rdata, run.At(q.b + 1).rdata)
  }

  lemma RoundAnswers(run: Run, q: Round)
    requires run.Valid() && RoundIn(run, q)
    ensures Agrees(run, q) <==> Hi(run.Time(q.a)) == Hi(run.Time(q.d))
    ensures Answer(run, q) == Join(Hi(run.Time(q.a)), Lo(run.Time(q.b)))
  {
    LoadAnswers(run, q.a, TimeHi);
    LoadAnswers(run, q.b, TimeLo);
    LoadAnswers(run, q.d, TimeHi);
  }

  lemma SameHighWord(m: Double, k: nat, d: nat)
    requires k <= d <= B64 - B32 && Hi(Wrap(m + d)) == Hi(m)
    ensures Hi(Wrap(m + k)) == Hi(m)
  {
    if m + d < B64 {
      assert m / B32 <= (m + k) / B32 <= (m + d) / B32;
    } else {
      assert false;
    }
  }

  /**
   * Linearizability: if nobody writes `mtime` and the pass spans at most 2^64 - 2^32 ticks, an
   * accepted pass returns the device's whole 64-bit `mtime` at the cycle of its low-word read,
   * as one 64-bit access on that cycle would.
   */
  lemma LinearizableRead(run: Run, q: Round)
    requires run.Valid() && RoundIn(run, q) && Agrees(run, q)
    requires run.TimeQuiet(q.a, q.d) && run.Pulses(q.a, q.d) <= B64 - B32
    ensures Answer(run, q) == run.Time(q.b)
  {
    RoundAnswers(run, q);
    TimeAdvances(run, q.a, q.b);
    TimeAdvances(run, q.a, q.d);
    PulsesSplit(run, q.a, q.b, q.d);
    SameHighWord(run.Time(q.a), run.Pulses(q.a, q.b), run.Pulses(q.a, q.d));
    PartsJoin(run.Time(q.b));
  }

  // ----- termination of the loop -----

  ghost predicate PassIn(run: Run, qs: seq<Round>, i: nat)
    requires i < |qs|
  {
    RoundIn(run, qs[i]) && (i > 0 ==> qs[i - 1].d < qs[i].a)
  }

  /** Consecutive passes of one call, in order. */
  ghost predicate Rounds(run: Run, qs: seq<Round>)
  {
    forall i: nat :: i < |qs| ==> PassIn(run, qs, i)
  }

  ghost predicate Failed(run: Run, qs: seq<Round>, i: nat)
    requires run.Valid() && i < |qs|
  {
    RoundIn(run, qs[i]) && !Agrees(run, qs[i])
  }

  /** The high word of an unwrapped time. */
  function Block(u: nat): nat { u / 0x1_0000_0000 }

  lemma BlockOf(u: nat)
    ensures Hi(Wrap(u)) == Block(u) % B32
  {
    var q := u / B64;
    assert u == q * B64 + Wrap(u);
    assert u / B32 == q * B32 + Wrap(u) / B32;
  }

  lemma BlockGrows(u: nat, v: nat)
    requires u <= v && Hi(Wrap(u)) != Hi(Wrap(v))
    ensures Block(v) >= Block(u) + 1
  {
    BlockOf(u);
    BlockOf(v);
  }

  lemma FailedRoundCrosses(run: Run, i: nat, q: Round)
    requires run.Valid() && RoundIn(run, q) && !Agrees(run, q) && i <= q.a && run.TimeQuiet(i, q.d)
    ensures Block(run.Time(i) + run.Pulses(i, q.d)) >= Block(run.Time(i) + run.Pulses(i, q.a)) + 1
  {
    RoundAnswers(run, q);
    TimeAdvances(run, i, q.a);
    TimeAdvances(run, i, q.d);
    PulsesSplit(run, i, q.a, q.d);
    BlockGrows(run.Time(i) + run.Pulses(i, q.a), run.Time(i) + run.Pulses(i, q.d));
  }

  lemma MoreTimeMoreBlocks(run: Run, i: nat, j: nat, k: nat)
    requires run.Valid() && i <= j <= k <= |run.ins|
    ensures Block(run.Time(i) + run.Pulses(i, j)) <= Block(run.Time(i) + run.Pulses(i, k))
  {
    PulsesSplit(run, i, j, k);
  }

  lemma {:induction false} RoundsInOrder(run: Run, qs: seq<Round>, n: nat)
    requires Rounds(run, qs) && n < |qs|
    ensures RoundIn(run, qs[n]) && qs[0].a <= qs[n].a < qs[n].d
    ensures n > 0 ==> RoundIn(run, qs[n - 1]) && qs[0].a <= qs[n - 1].a && qs[n - 1].d < qs[n].a
  {
    assert PassIn(run, qs, n);
    if n > 0 {
      RoundsInOrder(run, qs, n - 1);
    }
  }

  /** Each failed pass crosses a multiple of 2^32 of the unwrapped time. */
  lemma {:induction false} RetriesCross(run: Run, qs: seq<Round>, n: nat)
    requires run.Valid() && n < |qs| && Rounds(run, qs)
    requires forall i: nat :: i <= n ==> Failed(run, qs, i)
    requires qs[0].a <= qs[n].d < |run.ins| && run.TimeQuiet(qs[0].a, qs[n].d)
    ensures Block(run.Time(qs[0].a) + run.Pulses(qs[0].a, qs[n].d)) >= Block(run.Time(qs[0].a)) + n + 1
  {
    RoundsInOrder(run, qs, n);
    assert Failed(run, qs, n);
    FailedRoundCrosses(run, qs[0].a, qs[n]);
    if n > 0 {
      RetriesCross(run, qs, n - 1);
      MoreTimeMoreBlocks(run, qs[0].a, qs[n - 1].d, qs[n].a);
    }
  }

  /**
   * The price of retrying: if the first n passes of a call fail, they span at least
   * (n - 1) * 2^32 + 1 ticks. So two consecutive passes within 2^32 ticks cannot both fail, and the
   * passes of a call are bounded by the ticks that go by.
   */
  lemma RetryCost(run: Run, qs: seq<Round>, n: nat)
    requires run.Valid() && 1 <= n <= |qs| && Rounds(run, qs)
    requires forall i: nat :: i < n ==> Failed(run, qs, i)
    requires qs[0].a <= qs[n - 1].d < |run.ins| && run.TimeQuiet(qs[0].a, qs[n - 1].d)
    ensures run.Pulses(qs[0].a, qs[n - 1].d) >= (n - 1) * 0x1_0000_0000 + 1
  {
    RetriesCross(run, qs, n - 1);
  }

  ghost predicate Followed(run: Run, q: Round, q': Round)
  {
    RoundIn(run, q) && RoundIn(run, q') && q.d < q'.a
  }

  /** In clock cycles: two passes within 2^32 timer periods, and the second one is the last. */
  lemma SecondPassSuffices(run: Run, q: Round, q': Round)
    requires run.FromReset() && Ticking(run.c) && Followed(run, q, q')
    requires run.TimeQuiet(q.a, q'.d) && q'.d - q.a <= 0x1_0000_0000 * Period(run.c)
    ensures Agrees(run, q) || Agrees(run, q')
  {
    if !Agrees(run, q) && !Agrees(run, q') {
      var qs := [q, q'];
      assert PassIn(run, qs, 0) && PassIn(run, qs, 1) && Failed(run, qs, 0) && Failed(run, qs, 1);
      RetryCost(run, qs, 2);
      PulsesInWindow(run, q.a, q'.d, 0x1_0000_0000);
      assert false;
    }
  }

  // ----- the two bounds are sharp -----

  const FAST: Config := Config(1, 100000)

  /** A run of a device that ticks every cycle, whose bus reads the low word on `lows`, else the high. */
  ghost predicate Polled(run: Run, lows: set<nat>)
  {
    && run.FromReset() && run.c == FAST
    && forall t: nat :: t < |run.ins| ==> run.ins[t] == LoadOf(if t in lows then TimeLo else TimeHi)
  }

  lemma PolledExists(n: nat, lows: set<nat>)
    ensures exists run: Run :: Polled(run, lows) && |run.ins| == n
  {
    var ins := seq(n, t requires 0 <= t < n => LoadOf(if t in lows then TimeLo else TimeHi));
    assert Polled(Execute(FAST, Reset(FAST), ins), lows);
  }

  lemma PolledTime(run: Run, lows: set<nat>, t: nat)
    requires Polled(run, lows) && 1 <= t <= |run.ins|
    ensures run.Time(t) == Wrap(t - 1)
    ensures run.TimeQuiet(0, |run.ins|)
  {
    forall i | 0 <= i < |run.ins| ensures !run.WritesTimeAt(i) {
    }
    TimeClosedForm(run, t);
    DivUnique(t - 1, 1, t - 1);
  }

  lemma PolledPulses(run: Run, lows: set<nat>, i: nat, j: nat)
    requires Polled(run, lows) && 1 <= i <= j <= |run.ins|
    ensures run.Pulses(i, j) == j - i
  {
    PulseCount(run, i, j);
    DivUnique(i - 1, 1, i - 1);
    DivUnique(j - 1, 1, j - 1);
  }

  lemma PolledLoads(run: Run, lows: set<nat>, t: nat)
    requires Polled(run, lows) && t < |run.ins|
    ensures run.LoadsAt(t, if t in lows then TimeLo else TimeHi)
  {
    AddressRoundTrip(1, if t in lows then TimeLo else TimeHi);
  }

  /** A pass over the polled device, given the times its three loads meet. */
  lemma PolledRound(run: Run, lows: set<nat>, q: Round, hi: Word, time: Double, hi': Word)
    requires Polled(run, lows) && 1 <= q.a < q.b < q.d < |run.ins| && q.a !in lows && q.b in lows && q.d !in lows
    requires Hi(Wrap(q.a - 1)) == hi && Wrap(q.b - 1) == time && Hi(Wrap(q.d - 1)) == hi'
    ensures RoundIn(run, q)
    ensures Agrees(run, q) <==> hi == hi'
    ensures Answer(run, q) == Join(hi, Lo(time)) && run.Time(q.b) == time
  {
    PolledLoads(run, lows, q.a);
    PolledLoads(run, lows, q.b);
    PolledLoads(run, lows, q.d);
    PolledTime(run, lows, q.a);
    PolledTime(run, lows, q.b);
    PolledTime(run, lows, q.d);
    RoundAnswers(run, q);
  }

  lemma WrapIs(x: nat, hi: Word, lo: Word)
    requires x == hi * 0x1_0000_0000 + lo || x == 0x1_0000_0000_0000_0000 + hi * 0x1_0000_0000 + lo
    ensures Wrap(x) == Join(hi, lo) && Hi(Wrap(x)) == hi && Lo(Wrap(x)) == lo
  {
    JoinParts(hi, lo);
    assert Wrap(x) == hi * 0x1_0000_0000 + lo;
  }

  /**
   * One tick more than LinearizableRead allows, and an accepted pass can return a wrong time: one
   * that starts on the last tick before the high word becomes h + 1 and ends 2^64 - 2^32 + 1 later.
   */
  lemma ReadBoundSharp(h: nat, q: Round, run: Run)
    requires h < 0xFFFF_FFFF && q.a == (h + 1) * 0x1_0000_0000 && q.b == q.a + 1
    requires q.d == q.a + 0xFFFF_FFFF_0000_0001 && q.d < |run.ins| && Polled(run, {q.b})
    ensures RoundIn(run, q) && Agrees(run, q) && run.TimeQuiet(q.a, q.d)
    ensures run.Pulses(q.a, q.d) == B64 - B32 + 1
    ensures Answer(run, q) == Join(h, 0) && run.Time(q.b) == Join(h + 1, 0)
  {
    WrapIs(q.a - 1, h, 0xFFFF_FFFF);
    WrapIs(q.b - 1, h + 1, 0);
    WrapIs(q.d - 1, h, 0);
    PolledRound(run, {q.b}, q, h, Join(h + 1, 0), h);
    PolledPulses(run, {q.b}, q.a, q.d);
    PolledTime(run, {q.b}, 1);
  }

  lemma FailingPass(run: Run, lows: set<nat>, q: Round, h: nat, lo: Word, lo': Word)
    requires h < 0xFFFF_FFFF && q.a - 1 == h * 0x1_0000_0000 + lo && q.d - 1 == (h + 1) * 0x1_0000_0000 + lo'
    requires Polled(run, lows) && 1 <= q.a < q.b < q.d < |run.ins| && q.a !in lows && q.b in lows && q.d !in lows
    ensures RoundIn(run, q) && !Agrees(run, q)
  {
    WrapIs(q.a - 1, h, lo);
    WrapIs(q.d - 1, h + 1, lo');
    PolledRound(run, lows, q, h, Wrap(q.b - 1), h + 1);
  }

  /** At 2^32 + 1 ticks two consecutive passes can both fail, across any two rollovers. */
  lemma RetryBoundSharp(h: nat, q: Round, q': Round, run: Run)
    requires h < 0xFFFF_FFFE && q.a == (h + 1) * 0x1_0000_0000 && q.b == q.a + 1 && q.d == q.b + 1
    requires q'.a == q.a + 0xFFFF_FFFF && q'.b == q'.a + 1 && q'.d == q'.b + 1
    requires Polled(run, {q.b, q'.b}) && q'.d < |run.ins|
    ensures Followed(run, q, q') && run.TimeQuiet(q.a, q'.d)
    ensures run.Pulses(q.a, q'.d) == B32 + 1
    ensures !Agrees(run, q) && !Agrees(run, q')
  {
    var lows := {q.b, q'.b};
    FailingPass(run, lows, q, h, 0xFFFF_FFFF, 1);
    FailingPass(run, lows, q', h + 1, 0xFFFF_FFFE, 0);
    PolledPulses(run, lows, q.a, q'.d);
    PolledTime(run, lows, 1);
  }

  // ----- the plain two-access functions -----

  /** Cycles of [i, j) on which the low word of `mtime` rolls over. */
  ghost function Rollovers(run: Run, i: nat, j: nat): nat
    requires run.Valid() && i <= j <= |run.ins|
  {
    if i == j then 0 else Rollovers(run, i, j - 1) + if Lo(run.Time(j)) < Lo(run.Time(j - 1)) then 1 else 0
  }

  lemma LowAfter(u: nat)
    ensures Lo(Wrap(u)) == u % B32
  {
    var q, w := u / 0x1_0000_0000_0000_0000, Wrap(u);
    var block := q * 0x1_0000_0000 + w / B32;
    assert u == block * B32 + w % B32;
    DivUnique(u, B32, block);
  }

  lemma BlockStep(u: nat, step: nat)
    requires step <= 1
    ensures Block(u + step) == Block(u) + if (u + step) % B32 < u % B32 then 1 else 0
  {
  }

  lemma {:induction false} RolloverCount(run: Run, i: nat, j: nat)
    requires run.Valid() && i <= j <= |run.ins| && run.TimeQuiet(i, j)
    ensures Block(run.Time(i)) + Rollovers(run, i, j) == Block(run.Time(i) + run.Pulses(i, j))
  {
    if i < j {
      var u := run.Time(i) + run.Pulses(i, j - 1);
      RolloverCount(run, i, j - 1);
      TimeAdvances(run, i, j - 1);
      TimeAdvances(run, i, j);
      LowAfter(u);
      LowAfter(run.Time(i) + run.Pulses(i, j));
      BlockStep(u, if run.At(j - 1).tick then 1 else 0);
    }
  }

  lemma TornJoin(m: Double, k: nat, r: nat)
    requires Block(m) + r == Block(m + k)
    ensures Join(Hi(Wrap(m + k)), Lo(m)) == Wrap(m + r * 0x1_0000_0000)
  {
    BlockOf(m + k);
    var u := m + r * 0x1_0000_0000;
    assert Block(u) == Block(m) + r;
    BlockOf(u);
    LowAfter(u);
    assert u % B32 == m % B32;
    PartsJoin(Wrap(u));
  }

  lemma BlocksCrossed(m: nat, k: nat)
    ensures Block(m + k) == Block(m) + (m % B32 + k) / B32
  {
  }

  /**
   * Exact error of the plain low-then-high read: the result is `mtime` at the low read plus 2^32
   * for every rollover of the low word before the high read, modulo 2^64; and the rollovers are the
   * carries out of the low word read. So up to 2^64 - 2^32 ticks the result is right exactly
   * if the low word read plus the ticks before the high read stays below 2^32.
   */
  lemma PlainReadError(run: Run, a: nat, b: nat)
    requires run.Valid() && a < b && run.LoadsAt(a, TimeLo) && run.LoadsAt(b, TimeHi) && run.TimeQuiet(a, b)
    ensures Rollovers(run, a, b) == (Lo(run.Time(a)) + run.Pulses(a, b)) / B32
    ensures Join(run.At(b + 1).rdata, run.At(a + 1).rdata)
         == Wrap(run.Time(a) + Rollovers(run, a, b) * 0x1_0000_0000)
    ensures run.Pulses(a, b) <= B64 - B32 ==>
              (Join(run.At(b + 1).rdata, run.At(a + 1).rdata) == run.Time(a)
               <==> Lo(run.Time(a)) + run.Pulses(a, b) < B32)
  {
    LoadAnswers(run, a, TimeLo);
    LoadAnswers(run, b, TimeHi);
    RolloverCount(run, a, b);
    BlocksCrossed(run.Time(a), run.Pulses(a, b));
    TimeAdvances(run, a, b);
    TornJoin(run.Time(a), run.Pulses(a, b), Rollovers(run, a, b));
    if run.Pulses(a, b) <= B64 - B32 {
      OffByCarries(run.Time(a), Rollovers(run, a, b));
    }
  }

  /** The same for the value a call of the getter returns. */
  lemma PlainReadResult(run: Run, a: nat, b: nat, time: Double)
    requires run.Valid() && a < b && run.LoadsAt(a, TimeLo) && run.LoadsAt(b, TimeHi)
    requires time == Join(run.At(b + 1).rdata, run.At(a + 1).rdata)
    ensures time == Join(Hi(run.Time(b)), Lo(run.Time(a)))
    ensures run.TimeQuiet(a, b) ==> time == Wrap(run.Time(a) + Rollovers(run, a, b) * 0x1_0000_0000)
    ensures run.TimeQuiet(a, b) && run.Pulses(a, b) <= B64 - B32 ==>
              (time == run.Time(a) <==> Lo(run.Time(a)) + run.Pulses(a, b) < B32)
  {
    LoadAnswers(run, a, TimeLo);
    LoadAnswers(run, b, TimeHi);
    if run.TimeQuiet(a, b) {
      PlainReadError(run, a, b);
    }
  }

  lemma OffByCarries(m: Double, r: nat)
    requires r < 0x1_0000_0000
    ensures Wrap(m + r * 0x1_0000_0000) == m <==> r == 0
  {
  }

  /** And it does go wrong, at every rollover of the low word: a result 2^32 ticks ahead of `mtime`. */
  lemma TornRead(h: nat, a: nat, run: Run)
    requires h < 0xFFFF_FFFF && a == (h + 1) * 0x1_0000_0000 && a + 1 < |run.ins| && Polled(run, {a})
    ensures run.LoadsAt(a, TimeLo) && run.LoadsAt(a + 1, TimeHi) && run.TimeQuiet(a, a + 1)
    ensures run.Time(a) == Join(h, 0xFFFF_FFFF) && run.Time(a + 1) == Join(h + 1, 0)
    ensures Join(run.At(a + 2).rdata, run.At(a + 1).rdata) == Join(h + 1, 0xFFFF_FFFF) == run.Time(a) + B32
  {
    PolledLoads(run, {a}, a);
    PolledLoads(run, {a}, a + 1);
    PolledTime(run, {a}, a);
    PolledTime(run, {a}, a + 1);
    WrapIs(a - 1, h, 0xFFFF_FFFF);
    WrapIs(a, h + 1, 0);
    LoadAnswers(run, a, TimeLo);
    LoadAnswers(run, a + 1, TimeHi);
  }

  /**
   * Exact effect of the plain low-then-high write with d ticks applied between its stores: the
   * high word is as asked, the low word has run on by d modulo 2^32. The carry is overwritten, so
   * the result is the requested time plus d exactly when the low word did not roll over.
   */
  lemma PlainWriteEffect(run: Run, a: nat, b: nat, time: Double)
    requires run.Valid() && a < b && run.StoresAt(a, TimeLo, Lo(time)) && run.StoresAt(b, TimeHi, Hi(time))
    requires run.TimeQuiet(a + 1, b)
    ensures run.Time(b + 1) == Join(Hi(time), (Lo(time) + run.Pulses(a + 1, b)) % B32)
    ensures run.Time(b + 1) == time + run.Pulses(a + 1, b) <==> Lo(time) + run.Pulses(a + 1, b) < B32
  {
    TimeStep(run, a);
    TimeStep(run, b);
    TimeAdvances(run, a + 1, b);
    CarryOverwritten(run.Time(a), time, run.Pulses(a + 1, b));
  }

  lemma CarryOverwritten(m: Double, time: Double, d: nat)
    ensures Lo(Wrap(Join(Hi(m), Lo(time)) + d)) == (Lo(time) + d) % B32
    ensures Join(Hi(time), (Lo(time) + d) % B32) == time + d <==> Lo(time) + d < B32
  {
    LowAfter(Join(Hi(m), Lo(time)) + d);
    JoinParts(Hi(m), Lo(time));
    SumLow(Hi(m), Lo(time), d);
    PartsJoin(time);
  }

  lemma SumLow(hi: Word, lo: Word, d: nat)
    ensures (Join(hi, lo) + d) % B32 == (lo + d) % B32
  {
  }

  /** The plain write of `time`, first thing after reset, with `n` cycles between its stores. */
  ghost function WriteIns(time: Double, n: nat): (ins: seq<Cycle>)
  {
    [StoreOf(TimeLo, Lo(time))] + seq(n, _ => LoadOf(TimeHi)) + [StoreOf(TimeHi, Hi(time))]
  }

  lemma WriteStores(run: Run, time: Double, n: nat)
    requires run.Valid() && run.c == FAST && run.ins == WriteIns(time, n)
    ensures run.StoresAt(0, TimeLo, Lo(time)) && run.StoresAt(n + 1, TimeHi, Hi(time))
    ensures run.TimeQuiet(1, n + 1) && |run.ins| == n + 2
  {
    AddressRoundTrip(1, TimeLo);
    AddressRoundTrip(1, TimeHi);
    forall t | 1 <= t < n + 1 ensures !run.WritesTimeAt(t) {
      assert run.ins[t] == LoadOf(TimeHi);
    }
  }

  /** And the carry does get lost, for every value and every delay that rolls its low word over. */
  lemma LostCarry(run: Run, time: Double, n: nat)
    requires Lo(time) + n >= B32 && run == Execute(FAST, Reset(FAST), WriteIns(time, n))
    ensures run.FromReset() && run.StoresAt(0, TimeLo, Lo(time)) && run.StoresAt(n + 1, TimeHi, Hi(time))
    ensures run.TimeQuiet(1, n + 1) && run.Pulses(1, n + 1) == n
    ensures run.Time(n + 2) == Join(Hi(time), (Lo(time) + n) % B32) != time + n
  {
    WriteStores(run, time, n);
    PulseCount(run, 1, n + 1);
    DivUnique(0, 1, 0);
    DivUnique(n, 1, n);
    PlainWriteEffect(run, 0, n + 1, time);
  }
}
