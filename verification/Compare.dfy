/**
 * Updating a 64-bit compare register over the 32-bit bus: the three-store update, the plain
 * two-store update it replaces, and updates by several harts at once.
 */
module Compare {
  import opened Words
  import opened Device
  import opened Registers
  import opened Runs
  import Timebase

  /** One three-store update of `hart`: all-ones high word on cycle `a`, low word on `b`, high on `d`. */
  datatype Call = Call(hart: nat, time: Double, a: nat, b: nat, d: nat)

  ghost predicate Issued(run: Run, k: Call)
  {
    && k.hart < run.c.harts
    && k.a < k.b < k.d < |run.ins|
    && run.StoresAt(k.a, CmpHi(k.hart), ALL_ONES)
    && run.StoresAt(k.b, CmpLo(k.hart), Lo(k.time))
    && run.StoresAt(k.d, CmpHi(k.hart), Hi(k.time))
  }

  /** Nobody else writes this hart's compare register during the call, nor after it up to `n`. */
  ghost predicate Alone(run: Run, k: Call, n: nat)
    requires Issued(run, k) && n <= |run.ins|
  {
    && run.CmpQuiet(k.hart, k.a + 1, k.b)
    && run.CmpQuiet(k.hart, k.b + 1, k.d)
    && run.CmpQuiet(k.hart, k.d + 1, n)
  }

  /** The value one 64-bit store on cycle `b` would leave in force before cycle `t`. */
  ghost function Atomic(run: Run, k: Call, t: nat): Double
    requires run.Valid() && Issued(run, k)
  {
    if t <= k.b then run.Cmp(k.a, k.hart) else k.time
  }

  lemma StoreCmp(run: Run, t: nat, h: nat, data: Word)
    requires run.Valid() && h < run.c.harts
    ensures run.StoresAt(t, CmpLo(h), data) ==> run.Cmp(t + 1, h) == Join(Hi(run.Cmp(t, h)), data)
    ensures run.StoresAt(t, CmpHi(h), data) ==> run.Cmp(t + 1, h) == Join(data, Lo(run.Cmp(t, h)))
  {
    if t < |run.ins| {
      CmpStep(run, t, h);
    }
  }

  /** The compare register in every state of the call and afterwards. */
  lemma CallStages(run: Run, k: Call, t: nat)
    requires run.Valid() && Issued(run, k) && k.a < t <= |run.ins| && Alone(run, k, t)
    ensures t <= k.b ==> run.Cmp(t, k.hart) == Join(ALL_ONES, Lo(run.Cmp(k.a, k.hart)))
    ensures k.b < t <= k.d ==> run.Cmp(t, k.hart) == Join(ALL_ONES, Lo(k.time))
    ensures k.d < t ==> run.Cmp(t, k.hart) == k.time
  {
    var h := k.hart;
    StoreCmp(run, k.a, h, ALL_ONES);
    if t <= k.b {
      CmpHolds(run, h, k.a + 1, t);
    } else {
      CmpHolds(run, h, k.a + 1, k.b);
      StoreCmp(run, k.b, h, Lo(k.time));
      JoinParts(ALL_ONES, Lo(run.Cmp(k.a, h)));
      if t <= k.d {
        CmpHolds(run, h, k.b + 1, t);
      } else {
        CmpHolds(run, h, k.b + 1, k.d);
        StoreCmp(run, k.d, h, Hi(k.time));
        JoinParts(ALL_ONES, Lo(k.time));
        PartsJoin(k.time);
        CmpHolds(run, h, k.d + 1, t);
      }
    }
  }

  lemma AllOnesDominates(d: Double)
    ensures Join(ALL_ONES, Lo(d)) >= d
  {
    PartsJoin(d);
  }

  /**
   * No spurious interrupt, for all old and new values and whatever else happens on the bus and to
   * `mtime`: in every state of the call the line is high only where one 64-bit store on the cycle
   * of the low store would have it high, and once the call is over it agrees with it exactly.
   */
  lemma NoSpuriousInterrupt(run: Run, k: Call, t: nat)
    requires run.Valid() && Issued(run, k) && k.a <= t <= |run.ins| && Alone(run, k, t)
    ensures run.Tip(t, k.hart) ==> run.Time(t) >= Atomic(run, k, t)
    ensures t == k.a || t > k.d ==> (run.Tip(t, k.hart) <==> run.Time(t) >= Atomic(run, k, t))
  {
    if t > k.a {
      CallStages(run, k, t);
      AllOnesDominates(run.Cmp(k.a, k.hart));
      AllOnesDominates(k.time);
    }
  }

  // ----- the plain low-then-high update -----

  /** What the register holds between the two stores of a plain update. */
  function Torn(before: Double, after: Double): Double { Join(Hi(before), Lo(after)) }

  lemma PlainStages(run: Run, h: nat, a: nat, b: nat, after: Double, t: nat)
    requires run.Valid() && h < run.c.harts && a < t <= b < |run.ins|
    requires run.StoresAt(a, CmpLo(h), Lo(after)) && run.StoresAt(b, CmpHi(h), Hi(after)) && run.CmpQuiet(h, a + 1, b)
    ensures run.Tip(t, h) <==> run.Time(t) >= Torn(run.Cmp(a, h), after)
    ensures run.Cmp(b + 1, h) == after
  {
    StoreCmp(run, a, h, Lo(after));
    CmpHolds(run, h, a + 1, t);
    CmpHolds(run, h, a + 1, b);
    StoreCmp(run, b, h, Hi(after));
    JoinParts(Hi(run.Cmp(a, h)), Lo(after));
    PartsJoin(after);
  }

  /** The old and new values between which a plain update raises no false interrupt, at any time. */
  predicate PlainSafe(before: Double, after: Double)
  {
    Lo(after) >= Lo(before) || Hi(before) >= Hi(after)
  }

  /** The line would be high between the stores at a time due for neither value. */
  predicate FalselyHigh(before: Double, after: Double, now: Double)
  {
    Torn(before, after) <= now < before && now < after
  }

  /** Over numbers: the torn value lies below both exactly when the update is not safe. */
  lemma TornBelowBoth(before: Double, after: Double)
    ensures PlainSafe(before, after) ==> forall now: Double :: !FalselyHigh(before, after, now)
    ensures !PlainSafe(before, after) ==> FalselyHigh(before, after, Torn(before, after))
  {
    PartsJoin(before);
    PartsJoin(after);
  }

  /** Hart `h`'s register updated from `before` to `after` by a plain pair of stores on cycles `a` and `b`. */
  ghost predicate PlainUpdate(run: Run, h: nat, a: nat, b: nat, before: Double, after: Double)
  {
    && run.Valid() && h < run.c.harts && a < b < |run.ins| && run.Cmp(a, h) == before
    && run.StoresAt(a, CmpLo(h), Lo(after)) && run.StoresAt(b, CmpHi(h), Hi(after)) && run.CmpQuiet(h, a + 1, b)
  }

  /** In some state between the two stores the line is high, at a time due for neither value. */
  ghost predicate Spurious(run: Run, h: nat, a: nat, b: nat, before: Double, after: Double)
    requires PlainUpdate(run, h, a, b, before, after)
  {
    exists t :: a < t <= b && run.Tip(t, h) && run.Time(t) < before && run.Time(t) < after
  }

  /** A plain update of a safe pair shows no false interrupt in any run, whatever else happens in it. */
  lemma PlainUpdateSafe(run: Run, h: nat, a: nat, b: nat, before: Double, after: Double)
    requires PlainUpdate(run, h, a, b, before, after) && PlainSafe(before, after)
    ensures forall t :: a < t <= b && run.Tip(t, h) ==> run.Time(t) >= before || run.Time(t) >= after
  {
    forall t | a < t <= b && run.Tip(t, h) ensures run.Time(t) >= before || run.Time(t) >= after {
      PlainStages(run, h, a, b, after, t);
      TornBelowBoth(before, after);
      assert !FalselyHigh(before, after, run.Time(t));
    }
  }

  /**
   * The exact condition, over runs: no plain update from `before` to `after` in any run of any
   * device shows a false interrupt if and only if the pair is safe.
   */
  lemma PlainUpdateSafeIff(before: Double, after: Double)
    ensures PlainSafe(before, after)
       <==> forall run, h, a, b :: PlainUpdate(run, h, a, b, before, after) ==> !Spurious(run, h, a, b, before, after)
  {
    if PlainSafe(before, after) {
      forall run, h, a, b | PlainUpdate(run, h, a, b, before, after) ensures !Spurious(run, h, a, b, before, after) {
        PlainUpdateSafe(run, h, a, b, before, after);
      }
    } else {
      var run := Execute(DEFAULT, Reset(DEFAULT), PlainIns(before, after));
      PlainUpdateSpurious(run, before, after);
      assert Spurious(run, 0, 4, 5, before, after);
    }
  }

  /** The default device: one hart, 100 MHz. Its first pulse comes a thousand cycles after reset. */
  const DEFAULT: Config := Config(1, 100000000)

  ghost function PlainIns(before: Double, after: Double): seq<Cycle>
  {
    [ StoreOf(CmpHi(0), Hi(before)), StoreOf(CmpLo(0), Lo(before)),
      StoreOf(TimeHi, Hi(before)), StoreOf(TimeLo, Lo(after)),
      StoreOf(CmpLo(0), Lo(after)), StoreOf(CmpHi(0), Hi(after)) ]
  }

  lemma PlainWrites(run: Run, before: Double, after: Double)
    requires run.Valid() && run.c == DEFAULT && run.ins == PlainIns(before, after)
    ensures run.StoresAt(0, CmpHi(0), Hi(before)) && run.StoresAt(1, CmpLo(0), Lo(before))
    ensures run.StoresAt(2, TimeHi, Hi(before)) && run.StoresAt(3, TimeLo, Lo(after))
    ensures run.StoresAt(4, CmpLo(0), Lo(after)) && run.StoresAt(5, CmpHi(0), Hi(after))
    ensures run.CmpQuiet(0, 2, 4) && run.TimeQuiet(4, 6)
  {
  }

  /** The run with those inputs shows the false interrupt: the line is high, and due for neither value. */
  lemma PlainUpdateSpurious(run: Run, before: Double, after: Double)
    requires !PlainSafe(before, after)
    requires run == Execute(DEFAULT, Reset(DEFAULT), PlainIns(before, after))
    ensures run.FromReset() && PlainUpdate(run, 0, 4, 5, before, after) && run.Cmp(6, 0) == after
    ensures run.Tip(5, 0) && run.Time(5) < before && run.Time(5) < after
  {
    PlainWrites(run, before, after);
    StoreCmp(run, 0, 0, Hi(before));
    StoreCmp(run, 1, 0, Lo(before));
    JoinParts(Hi(before), Lo(run.Cmp(0, 0)));
    PartsJoin(before);
    CmpHolds(run, 0, 2, 4);
    TimeStep(run, 2);
    TimeStep(run, 3);
    JoinParts(Hi(before), Lo(run.Time(2)));
    PlainStages(run, 0, 4, 5, after, 5);
    StillTime(run, 4);
    PartsJoin(after);
  }

  lemma StillTime(run: Run, t: nat)
    requires run.FromReset() && run.c == DEFAULT && t < |run.ins| && t < 1000 && !run.WritesTimeAt(t)
    ensures run.Time(t + 1) == run.Time(t)
  {
    Timebase.PrescalerClosedForm(run, t);
    TimeStep(run, t);
  }

  // ----- concurrent updates -----

  /** The registers after the given updates, each done as one step, in the given order. */
  function Sequential(cmp: seq<Double>, calls: seq<Call>): (cmp': seq<Double>)
    ensures |cmp'| == |cmp|
  {
    if calls == [] then cmp
    else
      var k := calls[|calls| - 1];
      var cmp' := Sequential(cmp, calls[..|calls| - 1]);
      if k.hart < |cmp| then cmp'[k.hart := k.time] else cmp'
  }

  /** Each hart makes its calls one after another, in the order of the list. */
  ghost predicate ProgramOrder(calls: seq<Call>)
  {
    forall i, j :: 0 <= i < j < |calls| && calls[i].hart == calls[j].hart ==> calls[i].d < calls[j].a
  }

  /**
   * Any interleaving of whole calls before cycle `n`, any number of them by each hart, with anything
   * else in between: the only compare writes are the calls' own.
   */
  ghost predicate Interleaved(run: Run, calls: seq<Call>, n: nat)
  {
    && n <= |run.ins|
    && ProgramOrder(calls)
    && (forall k :: k in calls ==> Issued(run, k) && k.d < n)
    && (forall t, h :: 0 <= t < n && run.WritesCmpAt(t, h) ==> Owned(calls, t, h))
  }

  ghost predicate Owned(calls: seq<Call>, t: nat, h: nat)
  {
    exists k :: k in calls && k.hart == h && (t == k.a || t == k.b || t == k.d)
  }

  lemma CallsTakeTurns(calls: seq<Call>, k: Call, k': Call)
    requires ProgramOrder(calls) && k in calls && k' in calls && k.hart == k'.hart
    ensures k == k' || k.d < k'.a || k'.d < k.a
  {
    var i: nat :| i < |calls| && calls[i] == k;
    var j: nat :| j < |calls| && calls[j] == k';
    assert i < j || i == j || j < i;
  }

  /** Up to state `t` no later call of the same hart has begun. */
  ghost predicate Latest(calls: seq<Call>, k: Call, t: nat)
  {
    forall k' :: k' in calls && k'.hart == k.hart && k'.a > k.a ==> t <= k'.a
  }

  /** Within an interleaving every call is alone on its register until its hart's next call. */
  lemma CallsAreAlone(run: Run, calls: seq<Call>, n: nat, k: Call, t: nat)
    requires Interleaved(run, calls, n) && k in calls && t <= n && Latest(calls, k, t)
    ensures Alone(run, k, t)
  {
    forall u | k.a < u < n && (u < t || u < k.d) && u != k.b && u != k.d ensures !run.WritesCmpAt(u, k.hart) {
      if run.WritesCmpAt(u, k.hart) {
        assert Owned(calls, u, k.hart);
        var k' :| k' in calls && k'.hart == k.hart && (u == k'.a || u == k'.b || u == k'.d);
        CallsTakeTurns(calls, k, k');
        assert false;
      }
    }
  }

  /** The value set by hart `h`'s last call whose low store came before state `t`, or else `before`. */
  function LastStored(before: Double, calls: seq<Call>, h: nat, t: nat): Double
  {
    if calls == [] then before
    else
      var k := calls[|calls| - 1];
      if k.hart == h && k.b < t then k.time else LastStored(before, calls[..|calls| - 1], h, t)
  }

  lemma {:induction false} LastStoredAt(before: Double, calls: seq<Call>, h: nat, t: nat, i: nat)
    requires i < |calls| && calls[i].hart == h && calls[i].b < t
    requires forall j :: i < j < |calls| && calls[j].hart == h ==> t <= calls[j].b
    ensures LastStored(before, calls, h, t) == calls[i].time
  {
    var n := |calls| - 1;
    if i < n {
      assert calls[..n][i] == calls[i];
      LastStoredAt(before, calls[..n], h, t, i);
    }
  }

  lemma {:induction false} NoStoreBetween(before: Double, calls: seq<Call>, h: nat, t: nat, t': nat)
    requires forall k :: k in calls && k.hart == h ==> (k.b < t <==> k.b < t')
    ensures LastStored(before, calls, h, t) == LastStored(before, calls, h, t')
  {
    if calls != [] {
      assert calls[|calls| - 1] in calls;
      NoStoreBetween(before, calls[..|calls| - 1], h, t, t');
    }
  }

  lemma {:induction false} NothingStored(before: Double, calls: seq<Call>, h: nat, t: nat)
    requires forall k :: k in calls && k.hart == h ==> t <= k.b
    ensures LastStored(before, calls, h, t) == before
  {
    if calls != [] {
      assert calls[|calls| - 1] in calls;
      NothingStored(before, calls[..|calls| - 1], h, t);
    }
  }

  /** The place of hart `h`'s last call begun before state `t`; -1 if there is none. */
  lemma {:induction false} LastBegun(calls: seq<Call>, h: nat, t: nat) returns (i: int)
    ensures -1 <= i < |calls| && (i >= 0 ==> calls[i].hart == h && calls[i].a < t)
    ensures forall j :: i < j < |calls| && calls[j].hart == h ==> t <= calls[j].a
  {
    i := |calls| - 1;
    if i >= 0 && !(calls[i].hart == h && calls[i].a < t) {
      i := LastBegun(calls[..|calls| - 1], h, t);
    }
  }

  /** No call of hart `h` is under way in state `t`. */
  ghost predicate Between(calls: seq<Call>, h: nat, t: nat)
  {
    forall k :: k in calls && k.hart == h ==> t <= k.a || k.d < t
  }

  /** What the place of the last call begun says of the others of its hart. */
  lemma LastBegunIsLatest(run: Run, calls: seq<Call>, n: nat, t: nat, i: nat)
    requires Interleaved(run, calls, n) && i < |calls| && calls[i].a < t
    requires forall j :: i < j < |calls| && calls[j].hart == calls[i].hart ==> t <= calls[j].a
    ensures Latest(calls, calls[i], t) && Between(calls, calls[i].hart, calls[i].a)
    ensures forall k :: k in calls && k.hart == calls[i].hart && k != calls[i] ==> k.d < calls[i].a || t <= k.a
  {
    forall k | k in calls && k.hart == calls[i].hart && k != calls[i] ensures k.d < calls[i].a || t <= k.a {
      var j: nat :| j < |calls| && calls[j] == k;
      assert j < i || i < j;
    }
    assert forall k :: k in calls ==> Issued(run, k);
  }

  /**
   * Every interleaving is linearizable at the low stores, hart by hart and state by state: no line is
   * high unless `mtime` has reached the value last stored, and between calls the register holds it.
   */
  lemma {:induction false} ConcurrentCallsLinearize(run: Run, calls: seq<Call>, n: nat, h: nat, t: nat)
    requires run.Valid() && Interleaved(run, calls, n) && h < run.c.harts && t <= n
    ensures run.Tip(t, h) ==> run.Time(t) >= LastStored(run.Cmp(0, h), calls, h, t)
    ensures Between(calls, h, t) ==> run.Cmp(t, h) == LastStored(run.Cmp(0, h), calls, h, t)
  {
    var i := LastBegun(calls, h, t);
    if i < 0 {
      NobodyBegan(run, calls, n, h, t);
      CmpHolds(run, h, 0, t);
    } else {
      var k, before := calls[i], run.Cmp(0, h);
      LastBegunIsLatest(run, calls, n, t, i);
      CallsAreAlone(run, calls, n, k, t);
      CallStages(run, k, t);
      NoSpuriousInterrupt(run, k, t);
      if k.b < t {
        LastStoredAt(before, calls, h, t, i);
      } else {
        ConcurrentCallsLinearize(run, calls, n, h, k.a);
        NoStoreBetween(before, calls, h, t, k.a);
      }
    }
  }

  lemma NobodyBegan(run: Run, calls: seq<Call>, n: nat, h: nat, t: nat)
    requires Interleaved(run, calls, n) && t <= n
    requires forall j :: 0 <= j < |calls| && calls[j].hart == h ==> t <= calls[j].a
    ensures run.CmpQuiet(h, 0, t)
    ensures forall before :: LastStored(before, calls, h, t) == before
  {
    forall k | k in calls && k.hart == h ensures t <= k.a < k.b {
      assert Issued(run, k);
    }
    forall u | 0 <= u < t ensures !run.WritesCmpAt(u, h) {
      assert !Owned(calls, u, h);
    }
    forall before ensures LastStored(before, calls, h, t) == before {
      NothingStored(before, calls, h, t);
    }
  }

  lemma {:induction false} SequentialStores(cmp: seq<Double>, calls: seq<Call>, h: nat, n: nat)
    requires h < |cmp| && forall k :: k in calls ==> k.b < n
    ensures Sequential(cmp, calls)[h] == LastStored(cmp[h], calls, h, n)
  {
    if calls != [] {
      assert calls[|calls| - 1] in calls;
      SequentialStores(cmp, calls[..|calls| - 1], h, n);
    }
  }

  /**
   * Concurrent updates serialise: however their stores, the ticks and any other traffic interleave,
   * the registers end as if the calls had run one after another, in any order that keeps each hart's own.
   */
  lemma ConcurrentCallsSerialise(run: Run, calls: seq<Call>, n: nat, order: seq<Call>)
    requires run.Valid() && Interleaved(run, calls, n)
    requires ProgramOrder(order) && forall k :: k in order <==> k in calls
    ensures run.At(n).cmp == Sequential(run.At(0).cmp, order)
  {
    Reordered(run, calls, n, order);
    var cmp, cmp' := run.At(0).cmp, run.At(n).cmp;
    forall h: nat | h < run.c.harts ensures cmp'[h] == Sequential(cmp, order)[h] {
      ConcurrentCallsLinearize(run, order, n, h, n);
      SequentialStores(cmp, order, h, n);
    }
  }

  lemma Reordered(run: Run, calls: seq<Call>, n: nat, order: seq<Call>)
    requires Interleaved(run, calls, n) && ProgramOrder(order) && forall k :: k in order <==> k in calls
    ensures Interleaved(run, order, n) && forall h :: Between(order, h, n)
    ensures forall k :: k in order ==> k.b < n
  {
    assert forall k :: k in order ==> Issued(run, k) && k.d < n;
    forall t, h | 0 <= t < n && run.WritesCmpAt(t, h) ensures Owned(order, t, h) {
      assert Owned(calls, t, h);
    }
  }

  /** And in every state from a call to its hart's next one, that call's own guarantee holds. */
  lemma ConcurrentCallsSafe(run: Run, calls: seq<Call>, n: nat, k: Call, t: nat)
    requires run.Valid() && Interleaved(run, calls, n) && k in calls && k.a <= t <= n && Latest(calls, k, t)
    ensures run.Tip(t, k.hart) ==> run.Time(t) >= Atomic(run, k, t)
    ensures t > k.d ==> (run.Tip(t, k.hart) <==> run.Time(t) >= k.time)
  {
    CallsAreAlone(run, calls, n, k, t);
    NoSpuriousInterrupt(run, k, t);
  }

  // ----- round trips through the bus -----

  /** A value set by a three-store call is read back by the two loads of the getter. */
  lemma CompareReadBack(run: Run, k: Call, e: nat, f: nat)
    requires run.Valid() && Issued(run, k) && k.d < e < f
    requires run.LoadsAt(e, CmpLo(k.hart)) && run.LoadsAt(f, CmpHi(k.hart)) && Alone(run, k, f)
    ensures Join(run.At(f + 1).rdata, run.At(e + 1).rdata) == k.time
  {
    CallStages(run, k, e);
    CallStages(run, k, f);
    LoadAnswers(run, e, CmpLo(k.hart));
    LoadAnswers(run, f, CmpHi(k.hart));
    PartsJoin(k.time);
  }

  ghost predicate MsipQuiet(run: Run, h: nat, i: nat, j: nat)
    requires j <= |run.ins|
  {
    forall t | i <= t < j :: !WritesMsip(run.c.harts, run.ins[t], h)
  }

  lemma {:induction false} MsipHolds(run: Run, h: nat, i: nat, j: nat)
    requires run.Valid() && h < run.c.harts && i <= j <= |run.ins| && MsipQuiet(run, h, i, j)
    ensures run.At(j).msip[h] == run.At(i).msip[h]
  {
    if i < j {
      MsipHolds(run, h, i, j - 1);
      assert run.Linked(j - 1);
      assert !WritesMsip(run.c.harts, run.ins[j - 1], h);
    }
  }

  /** Only the least significant bit of a software-interrupt store is kept; other harts are untouched. */
  lemma MsipReadBack(run: Run, h: nat, v: Word, a: nat, e: nat)
    requires run.Valid() && h < run.c.harts && a < e && run.StoresAt(a, Msip(h), v)
    requires run.LoadsAt(e, Msip(h)) && MsipQuiet(run, h, a + 1, e)
    ensures run.At(e + 1).rdata == v % 2
    ensures forall h' :: 0 <= h' < run.c.harts && h' != h ==> run.At(a + 1).msip[h'] == run.At(a).msip[h']
  {
    assert run.Linked(a);
    MsipHolds(run, h, a + 1, e);
    LoadAnswers(run, e, Msip(h));
  }
}
