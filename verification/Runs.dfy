/**
 * Whole runs of the device: one bus cycle per clock edge, each carrying at most one access by
 * anybody. `At(t)` is the state before edge `t`; the access of cycle `t` shows in `At(t + 1)`.
 */
module Runs {
  import opened Words
  import opened Bits
  import opened Device
  import opened Registers
  import opened Refinement

  datatype Run = Run(c: Config, states: seq<Regs>, ins: seq<Cycle>) {

    /** Each state follows from the one before by the bus cycle between them. */
    predicate Linked(t: nat)
      requires |states| == |ins| + 1 && t < |ins|
      requires Supported(c) && Wf(c, states[t])
    {
      states[t + 1] == Next(c, states[t], ins[t])
    }

    ghost predicate Valid()
    {
      && Supported(c)
      && |states| == |ins| + 1
      && (forall t :: 0 <= t <= |ins| ==> Wf(c, states[t]))
      && (forall t: nat :: t < |ins| ==> Linked(t))
    }

    ghost predicate FromReset() { Valid() && states[0] == Reset(c) }

    function At(t: nat): (r: Regs)
      requires |states| == |ins| + 1 && t <= |ins|
    {
      states[t]
    }

    /** The run one bus cycle longer. */
    function Then(cy: Cycle): (run: Run)
      requires |states| == |ins| + 1 && Supported(c) && Wf(c, states[|ins|])
    {
      Run(c, states + [Next(c, states[|ins|], cy)], ins + [cy])
    }

    /** `this` is how the longer run begins. */
    ghost predicate Begins(longer: Run)
    {
      longer.c == c && states <= longer.states && ins <= longer.ins
    }

    function Time(t: nat): Double
      requires |states| == |ins| + 1 && t <= |ins|
    {
      At(t).mtime
    }

    ghost function Cmp(t: nat, h: nat): Double
      requires Valid() && t <= |ins| && h < c.harts
    {
      At(t).cmp[h]
    }

    ghost predicate Tip(t: nat, h: nat)
      requires Valid() && t <= |ins| && h < c.harts
    {
      Mtip(At(t), h)
    }

    predicate StoresAt(t: nat, reg: Register, data: Word)
    {
      t < |ins| && Stores(c.harts, ins[t], reg, data)
    }

    predicate LoadsAt(t: nat, reg: Register)
    {
      t < |ins| && Loads(c.harts, ins[t], reg)
    }

    predicate WritesTimeAt(t: nat)
      requires t < |ins|
    {
      WritesTime(c.harts, ins[t])
    }

    predicate WritesCmpAt(t: nat, h: nat)
      requires t < |ins|
    {
      WritesCmp(c.harts, ins[t], h)
    }

    /** Nobody writes `mtime` on the cycles of [i, j). */
    predicate TimeQuiet(i: nat, j: nat)
      requires j <= |ins|
    {
      forall t | i <= t < j :: !WritesTimeAt(t)
    }

    /** Nobody writes hart `h`'s compare register on the cycles of [i, j). */
    predicate CmpQuiet(h: nat, i: nat, j: nat)
      requires j <= |ins|
    {
      forall t | i <= t < j :: !WritesCmpAt(t, h)
    }

    /** Timer pulses presented on the cycles of [i, j). */
    ghost function Pulses(i: nat, j: nat): nat
      requires Valid() && i <= j <= |ins|
    {
      if i == j then 0 else Pulses(i, j - 1) + (if At(j - 1).tick then 1 else 0)
    }
  }

  lemma ThenIsValid(run: Run, cy: Cycle)
    requires run.Valid()
    ensures run.Then(cy).Valid() && run.Begins(run.Then(cy))
  {
    var run' := run.Then(cy);
    forall t: nat | t < |run'.ins| ensures run'.Linked(t) {
      if t < |run.ins| {
        assert run.Linked(t);
      }
    }
  }

  /** The run of any input sequence from any state: runs exist, and the inputs determine them. */
  ghost function Execute(c: Config, r: Regs, ins: seq<Cycle>): (run: Run)
    requires Supported(c) && Wf(c, r)
    ensures run.Valid() && run.c == c && run.ins == ins && run.states[0] == r
  {
    if ins == [] then
      Run(c, [r], [])
    else
      var shorter := Execute(c, r, ins[..|ins| - 1]);
      ThenIsValid(shorter, ins[|ins| - 1]);
      shorter.Then(ins[|ins| - 1])
  }

  lemma {:induction false} RunsDetermined(run: Run, run': Run, t: nat)
    requires run.Valid() && run'.Valid() && run.c == run'.c && run.states[0] == run'.states[0]
    requires t <= |run.ins| && t <= |run'.ins| && run.ins[..t] == run'.ins[..t]
    ensures run.At(t) == run'.At(t)
  {
    if t > 0 {
      assert run.ins[..t][..t - 1] == run.ins[..t - 1] && run'.ins[..t][..t - 1] == run'.ins[..t - 1];
      assert run.ins[..t][t - 1] == run'.ins[..t][t - 1];
      RunsDetermined(run, run', t - 1);
      assert run.Linked(t - 1) && run'.Linked(t - 1);
    }
  }

  /** One edge, for the parts of the state the timer properties are about. */
  lemma TimeStep(run: Run, t: nat)
    requires run.Valid() && t < |run.ins|
    ensures run.Time(t + 1) == TimeAfter(run.c, run.At(t), run.ins[t])
    ensures !run.WritesTimeAt(t) ==> run.Time(t + 1) == Wrap(run.Time(t) + if run.At(t).tick then 1 else 0)
  {
    assert run.Linked(t);
  }

  lemma CmpStep(run: Run, t: nat, h: nat)
    requires run.Valid() && h < run.c.harts && t < |run.ins|
    ensures run.Cmp(t + 1, h) == CmpAfter(run.c, run.At(t), run.ins[t])[h]
    ensures !run.WritesCmpAt(t, h) ==> run.Cmp(t + 1, h) == run.Cmp(t, h)
  {
    assert run.Linked(t);
  }

  lemma {:induction false} PulsesSplit(run: Run, i: nat, j: nat, k: nat)
    requires run.Valid() && i <= j <= k <= |run.ins|
    ensures run.Pulses(i, k) == run.Pulses(i, j) + run.Pulses(j, k)
  {
    if j < k {
      PulsesSplit(run, i, j, k - 1);
    }
  }

  /** With no `mtime` write, `mtime` moves on by exactly the pulses seen, modulo 2^64. */
  lemma {:induction false} TimeAdvances(run: Run, i: nat, j: nat)
    requires run.Valid() && i <= j <= |run.ins| && run.TimeQuiet(i, j)
    ensures run.Time(j) == Wrap(run.Time(i) + run.Pulses(i, j))
  {
    if i < j {
      TimeAdvances(run, i, j - 1);
      TimeStep(run, j - 1);
      AddWraps(run.Time(i) + run.Pulses(i, j - 1), if run.At(j - 1).tick then 1 else 0);
    }
  }

  lemma {:induction false} CmpHolds(run: Run, h: nat, i: nat, j: nat)
    requires run.Valid() && h < run.c.harts && i <= j <= |run.ins| && run.CmpQuiet(h, i, j)
    ensures run.Cmp(j, h) == run.Cmp(i, h)
  {
    if i < j {
      CmpHolds(run, h, i, j - 1);
      CmpStep(run, j - 1, h);
    }
  }

  /** A load accepted on cycle `t` answers on the next one with the value from before edge `t`. */
  lemma LoadAnswers(run: Run, t: nat, reg: Register)
    requires run.Valid() && run.LoadsAt(t, reg)
    ensures run.At(t + 1).rvalid && run.At(t + 1).rdata == Value(run.At(t), reg)
  {
    assert run.Linked(t);
  }

  // ----- one edge, by the wires of the bus -----

  /** An accepted write: valid, some strobe set, and an address in [lo, lo + 4). */
  predicate WriteTo(cy: Cycle, lo: nat)
  {
    cy.valid && cy.wstrb != 0 && lo <= cy.addr < lo + 4
  }

  /** `mtime` takes the word written to one of its halves; else it takes a pulse; else it stays. */
  lemma TimeEdge(run: Run, t: nat)
    requires run.Valid() && t < |run.ins|
    ensures var cy := run.ins[t];
            run.Time(t + 1) == if WriteTo(cy, 0xBFF8) then Join(Hi(run.Time(t)), cy.wdata)
                               else if WriteTo(cy, 0xBFFC) then Join(cy.wdata, Lo(run.Time(t)))
                               else if run.At(t).tick then Wrap(run.Time(t) + 1)
                               else run.Time(t)
    ensures run.WritesTimeAt(t) <==> WriteTo(run.ins[t], 0xBFF8) || WriteTo(run.ins[t], 0xBFFC)
  {
    AddressMap(run.c.harts, run.ins[t].addr, 0);
    TimeStep(run, t);
  }

  lemma CmpEdge(run: Run, t: nat, h: nat)
    requires run.Valid() && t < |run.ins| && h < run.c.harts
    ensures var cy := run.ins[t];
            run.Cmp(t + 1, h) == if WriteTo(cy, 0x4000 + 8 * h) then Join(Hi(run.Cmp(t, h)), cy.wdata)
                                 else if WriteTo(cy, 0x4004 + 8 * h) then Join(cy.wdata, Lo(run.Cmp(t, h)))
                                 else run.Cmp(t, h)
    ensures run.WritesCmpAt(t, h) <==> WriteTo(run.ins[t], 0x4000 + 8 * h) || WriteTo(run.ins[t], 0x4004 + 8 * h)
  {
    AddressMap(run.c.harts, run.ins[t].addr, h);
    CmpStep(run, t, h);
  }

  lemma MsipEdge(run: Run, t: nat, h: nat)
    requires run.Valid() && t < |run.ins| && h < run.c.harts
    ensures run.At(t + 1).msip[h] == if WriteTo(run.ins[t], 4 * h) then run.ins[t].wdata % 2 == 1 else run.At(t).msip[h]
    ensures WritesMsip(run.c.harts, run.ins[t], h) <==> WriteTo(run.ins[t], 4 * h)
  {
    AddressMap(run.c.harts, run.ins[t].addr, h);
    assert run.Linked(t);
  }

  ghost predicate LastWrite(run: Run, lo: nat, t: nat, s: nat)
    requires t <= |run.ins|
  {
    s < t && WriteTo(run.ins[s], lo) && forall u :: s < u < t ==> !WriteTo(run.ins[u], lo)
  }

  /** A software-interrupt bit is the low bit of the last word stored to it since reset, and low before. */
  lemma {:induction false} MsipRule(run: Run, h: nat, t: nat)
    requires run.FromReset() && t <= |run.ins| && h < run.c.harts
    ensures run.At(t).msip[h] <==> exists s: nat :: LastWrite(run, 4 * h, t, s) && run.ins[s].wdata % 2 == 1
  {
    if t > 0 {
      var p := t - 1;
      MsipRule(run, h, p);
      MsipEdge(run, p, h);
      if WriteTo(run.ins[p], 4 * h) {
        assert LastWrite(run, 4 * h, t, p);
      } else {
        forall s: nat ensures LastWrite(run, 4 * h, p, s) <==> LastWrite(run, 4 * h, t, s) {
        }
      }
    }
  }

  /** The selector of the bit-sliced decode counts to the least power of two, from 2 on, that has room for n. */
  lemma SelectorIsLeast(n: nat)
    requires n >= 1
    ensures var p := Pow2(SelWidth(n)); p >= 2 && p >= n && (p == 2 || exists q: nat :: p == 2 * q && q < n)
  {
    var w := SelWidth(n);
    assert Pow2(1) == 2;
    Pow2Mono(1, w);
    if n > 2 {
      assert Pow2(w) == 2 * Pow2(w - 1);
    }
  }

  /**
   * The read port captures on every edge, valid or not, with or without a strobe. It shows `msip`
   * below 0x4000, compare words below 0xBFF8 and `mtime` above, each repeating at the selector's span.
   */
  lemma ReadEdge(run: Run, t: nat)
    requires run.Valid() && t < |run.ins|
    ensures var cy, r, n, p := run.ins[t], run.At(t), run.c.harts, Pow2(SelWidth(run.c.harts));
            run.At(t + 1).rdata ==
              if cy.addr < 0x4000 then
                if cy.addr / 4 % p < n then (if r.msip[cy.addr / 4 % p] then 1 else 0) else cy.floating % 2
              else if cy.addr < 0xBFF8 then
                if cy.addr / 8 % p < n then Half(r.cmp[cy.addr / 8 % p], cy.addr / 4 % 2) else cy.floating
              else Half(r.mtime, cy.addr / 4 % 2)
  {
    var cy, r := run.ins[t], run.At(t);
    assert run.Linked(t);
    if 0x4000 <= cy.addr < 0xBFF8 {
      CmpSample(run.c, r, cy, CmpSlot(run.c.harts, cy.addr), HalfBit(cy.addr));
    } else if cy.addr < 4 * run.c.harts {
      DecodeHart(run.c.harts, cy.addr / 4, cy.addr);
    }
  }

  // ----- the read-valid flag -----

  ghost predicate LastRequest(run: Run, t: nat, s: nat)
    requires t <= |run.ins|
  {
    s < t && run.ins[s].wstrb == 0 && run.ins[s].valid && forall u :: s < u < t ==> run.ins[u].wstrb != 0
  }

  /**
   * The read-valid flag over whole runs: it is up exactly when the latest cycle without a strobe was
   * a request. Writes hold it, so it stays up through any writes that directly follow a load.
   */
  lemma {:induction false} ReadValidRule(run: Run, t: nat)
    requires run.FromReset() && t <= |run.ins|
    ensures run.At(t).rvalid <==> exists s: nat :: LastRequest(run, t, s)
  {
    if t > 0 {
      var p := t - 1;
      ReadValidRule(run, p);
      ValidStep(run, p);
      if run.ins[p].wstrb != 0 {
        forall s: nat | LastRequest(run, p, s) ensures LastRequest(run, t, s) {
        }
        forall s: nat | LastRequest(run, t, s) ensures LastRequest(run, p, s) {
        }
      } else if run.ins[p].valid {
        assert LastRequest(run, t, p);
      }
    }
  }

  lemma ValidStep(run: Run, t: nat)
    requires run.Valid() && t < |run.ins|
    ensures run.At(t + 1).rvalid == if run.ins[t].wstrb == 0 then run.ins[t].valid else run.At(t).rvalid
  {
    assert run.Linked(t);
  }

  // ----- the flat device over whole runs -----

  function FlatAt(c: Config, ins: seq<Cycle>, t: nat): (f: Flat)
    requires c.harts >= 1 && t <= |ins|
    ensures Shaped(c, f)
  {
    if t == 0 then ResetFlat(c) else Step(c, FlatAt(c, ins, t - 1), ins[t - 1])
  }

  /**
   * Over every run from reset the register-transfer device simulates the register view, so the
   * compare of bit slices drives each interrupt line as `mtime >= word` does.
   */
  lemma {:induction false} RunRefines(run: Run, t: nat)
    requires run.FromReset() && t <= |run.ins|
    ensures Abs(run.c, FlatAt(run.c, run.ins, t)) == run.At(t)
    ensures forall k: nat :: k < run.c.harts ==>
              (run.Tip(t, k) <==> FlatAt(run.c, run.ins, t).mtime >= CmpWord(FlatAt(run.c, run.ins, t).mtimecmp, k))
  {
    if t == 0 {
      ResetRefines(run.c);
    } else {
      RunRefines(run, t - 1);
      assert run.Linked(t - 1);
      StepRefines(run.c, FlatAt(run.c, run.ins, t - 1), run.ins[t - 1]);
    }
    var f := FlatAt(run.c, run.ins, t);
    forall k: nat | k < run.c.harts ensures run.Tip(t, k) <==> f.mtime >= CmpWord(f.mtimecmp, k) {
      assert Abs(run.c, f).cmp[k] == CmpWord(f.mtimecmp, k);
    }
  }

  /**
   * Every cycle changes at most one half of one word of the flat vector: the one an accepted
   * compare write names. All the rest of the vector stays as it was.
   */
  lemma OneHalfPerWrite(c: Config, f: Flat, cy: Cycle, k: nat)
    requires Supported(c) && Shaped(c, f) && k < c.harts
    ensures CmpWord(Step(c, f, cy).mtimecmp, k)
         == (match Target(c.harts, cy)
             case Some(CmpLo(s)) => if s == k then Splice(CmpWord(f.mtimecmp, k), 0, cy.wdata) else CmpWord(f.mtimecmp, k)
             case Some(CmpHi(s)) => if s == k then Splice(CmpWord(f.mtimecmp, k), 1, cy.wdata) else CmpWord(f.mtimecmp, k)
             case _ => CmpWord(f.mtimecmp, k))
  {
    if CmpSelected(c.harts, cy) {
      var s, half := (cy.addr - MTIMECMP_BASE) / 8, HalfBit(cy.addr);
      CmpTarget(c.harts, cy, s, half);
      WrittenWord(f.mtimecmp, s, half, cy.wdata, k);
    }
  }
}
