/**
 * The register-transfer device refines the register view: the flat compare vector with bit-sliced
 * indices behaves as an array of N 64-bit words, for every N the decode supports, and for no other.
 */
module Refinement {
  import opened Words
  import opened Bits
  import opened Device
  import opened Registers

  /** The register view of a flat state. */
  function Abs(c: Config, f: Flat): (r: Regs)
    requires Shaped(c, f)
    ensures Wf(c, r)
  {
    Regs(f.counter, f.tick, f.mtime, seq(c.harts, k requires 0 <= k < c.harts => CmpWord(f.mtimecmp, k)),
         f.msip, f.rdata, f.rvalid)
  }

  // ----- address decode -----

  lemma SelectorSpan(n: nat)
    requires n >= 1
    ensures Pow2(SelWidth(n)) >= n
    ensures n <= 2048 ==> exists m: nat :: m * Pow2(SelWidth(n)) == 2048
    ensures n > 2048 ==> Pow2(SelWidth(n)) >= 4096
  {
    PowersOfInterest();
    var w := SelWidth(n);
    if n <= 2048 {
      if w > 11 {
        Pow2Mono(11, w - 1);
        assert false;
      }
      Pow2Adds(11 - w, w);
    } else {
      if w < 12 {
        Pow2Mono(w, 11);
        assert false;
      }
      Pow2Mono(12, w);
      assert Pow2(12) == 2 * Pow2(11);
    }
  }

  lemma ModShift(h: nat, m: nat, p: nat)
    requires p > 0 && h < p
    ensures (m * p + h) % p == h
  {
    assert (m * p + h) / p == m by { DivUnique(m * p + h, p, m); }
  }

  /** Every register of every hart is decoded to its own slot and half. */
  lemma DecodeHart(n: nat, h: nat, addr: nat)
    requires 1 <= n <= 2048 && h < n
    ensures MTIMECMP_BASE + 8 * h <= addr < MTIMECMP_BASE + 8 * h + 8 ==> CmpSlot(n, addr) == h
    ensures 4 * h <= addr < 4 * h + 4 ==> MsipSlot(n, addr) == h
  {
    SelectorSpan(n);
    var p := Pow2(SelWidth(n));
    var m: nat :| m * p == 2048;
    ModShift(h, m, p);
    ModShift(h, 0, p);
  }

  /**
   * The sharp bound of the bit-sliced decode: every hart's compare register is reached at its
   * address exactly when there are at most 2048 harts. Beyond, hart 0 itself is misdirected.
   */
  lemma DecodeSharp(n: nat)
    requires n >= 1
    ensures n <= 2048 <==> forall h: nat :: h < n ==> CmpSlot(n, AddressOf(CmpLo(h))) == h
    ensures n > 2048 ==> CmpSlot(n, AddressOf(CmpLo(0))) == 2048
  {
    if n <= 2048 {
      forall h: nat | h < n ensures CmpSlot(n, AddressOf(CmpLo(h))) == h {
        DecodeHart(n, h, AddressOf(CmpLo(h)));
      }
    } else {
      SelectorSpan(n);
      ModShift(2048, 0, Pow2(SelWidth(n)));
      assert CmpSlot(n, AddressOf(CmpLo(0))) == 2048;
    }
  }

  // ----- part-selects of the flat vector -----

  lemma HalvesOfWord(v: seq<bool>, k: nat)
    requires 64 * k + 64 <= |v|
    ensures CmpWord(v, k) == Join(PartWord(v, 64 * k + 32), PartWord(v, 64 * k))
  {
    PowersOfInterest();
    var lo, hi := v[64 * k..64 * k + 32], v[64 * k + 32..64 * k + 64];
    assert v[64 * k..64 * k + 64] == lo + hi;
    ToNatConcat(lo, hi);
    assert ToNat(lo + hi) == ToNat(lo) + B32 * ToNat(hi);
  }

  lemma WrittenPart(v: seq<bool>, lo: nat, w: Word, at: nat)
    requires lo + 32 <= |v| && at + 32 <= |v|
    ensures at == lo ==> PartWord(WritePart(v, lo, w), at) == w
    ensures at + 32 <= lo || lo + 32 <= at ==> PartWord(WritePart(v, lo, w), at) == PartWord(v, at)
  {
    PowersOfInterest();
    ToNatOfNat(w, 32);
    var v' := WritePart(v, lo, w);
    if at == lo {
      assert v'[at..at + 32] == OfNat(w, 32);
    } else if at + 32 <= lo || lo + 32 <= at {
      assert v'[at..at + 32] == v[at..at + 32];
    }
  }

  /** A write through slot `s` changes one half of word `s` and nothing else. */
  lemma WrittenWord(v: seq<bool>, s: nat, half: nat, w: Word, k: nat)
    requires 64 * s + 64 <= |v| && 64 * k + 64 <= |v| && half < 2
    ensures CmpWord(WritePart(v, 64 * s + 32 * half, w), k)
         == if k == s then Splice(CmpWord(v, k), half, w) else CmpWord(v, k)
  {
    var v' := WritePart(v, 64 * s + 32 * half, w);
    var hi, lo := PartWord(v, 64 * k + 32), PartWord(v, 64 * k);
    HalvesOfWord(v, k);
    HalvesOfWord(v', k);
    WrittenPart(v, 64 * s + 32 * half, w, 64 * k);
    WrittenPart(v, 64 * s + 32 * half, w, 64 * k + 32);
    JoinHalf(hi, lo, half, w);
  }

  lemma PartIsHalf(v: seq<bool>, s: nat, half: nat)
    requires 64 * s + 64 <= |v| && half < 2
    ensures PartWord(v, 64 * s + 32 * half) == Half(CmpWord(v, s), half)
  {
    HalvesOfWord(v, s);
    JoinHalf(PartWord(v, 64 * s + 32), PartWord(v, 64 * s), half, 0);
  }

  /** The read port of the compare region, through the register view of the selected slot. */
  lemma CmpPort(c: Config, f: Flat, cy: Cycle, s: nat, half: nat)
    requires Shaped(c, f) && MTIMECMP_BASE <= cy.addr < MTIME_BASE
    requires s == CmpSlot(c.harts, cy.addr) && half == HalfBit(cy.addr)
    ensures ReadPort(c, f, cy) == if s < c.harts then Half(CmpWord(f.mtimecmp, s), half) else cy.floating
  {
    if s < c.harts {
      PartIsHalf(f.mtimecmp, s, half);
    }
  }

  /** The same region in the register view, through the decoded slot. */
  lemma CmpSample(c: Config, r: Regs, cy: Cycle, s: nat, half: nat)
    requires Supported(c) && Wf(c, r) && MTIMECMP_BASE <= cy.addr < MTIME_BASE
    requires s == CmpSlot(c.harts, cy.addr) && half == HalfBit(cy.addr)
    ensures Sample(c, r, cy) == if s < c.harts then Half(r.cmp[s], half) else cy.floating
  {
    if cy.addr < MTIMECMP_BASE + 8 * c.harts {
      var h := (cy.addr - MTIMECMP_BASE) / 8;
      DecodeHart(c.harts, h, cy.addr);
      assert RegisterAt(c.harts, cy.addr) == Some(if half == 0 then CmpLo(h) else CmpHi(h));
    }
  }

  lemma SampleCmpRefines(c: Config, f: Flat, cy: Cycle)
    requires Supported(c) && Shaped(c, f)
    requires MTIMECMP_BASE <= cy.addr < MTIME_BASE
    ensures ReadPort(c, f, cy) == Sample(c, Abs(c, f), cy)
  {
    var s, half := CmpSlot(c.harts, cy.addr), HalfBit(cy.addr);
    CmpPort(c, f, cy, s, half);
    CmpSample(c, Abs(c, f), cy, s, half);
  }

  lemma SampleRefines(c: Config, f: Flat, cy: Cycle)
    requires Supported(c) && Shaped(c, f)
    ensures ReadPort(c, f, cy) == Sample(c, Abs(c, f), cy)
  {
    if MTIMECMP_BASE <= cy.addr < MTIME_BASE {
      SampleCmpRefines(c, f, cy);
    } else if cy.addr < 4 * c.harts {
      DecodeHart(c.harts, cy.addr / 4, cy.addr);
    }
  }

  /** Where an accepted compare write lands, in both views. */
  lemma CmpTarget(n: nat, cy: Cycle, s: nat, half: nat)
    requires 1 <= n <= 2048 && CmpSelected(n, cy)
    requires s == (cy.addr - MTIMECMP_BASE) / 8 && half == HalfBit(cy.addr)
    ensures s < n && half < 2 && PartBase(n, cy.addr) == 64 * s + 32 * half
    ensures Target(n, cy) == Some(if half == 0 then CmpLo(s) else CmpHi(s))
  {
    DecodeHart(n, s, cy.addr);
  }

  lemma CmpWordRefines(c: Config, f: Flat, cy: Cycle, k: nat)
    requires Supported(c) && Shaped(c, f) && CmpSelected(c.harts, cy) && k < c.harts
    ensures CmpWord(NextCmp(c, f, cy), k) == CmpAfter(c, Abs(c, f), cy)[k]
  {
    var s, half := (cy.addr - MTIMECMP_BASE) / 8, HalfBit(cy.addr);
    var r := Abs(c, f);
    CmpTarget(c.harts, cy, s, half);
    WrittenWord(f.mtimecmp, s, half, cy.wdata, k);
    assert CmpAfter(c, r, cy) == r.cmp[s := Splice(r.cmp[s], half, cy.wdata)];
  }

  lemma CmpRefines(c: Config, f: Flat, cy: Cycle)
    requires Supported(c) && Shaped(c, f)
    ensures Abs(c, Step(c, f, cy)).cmp == CmpAfter(c, Abs(c, f), cy)
  {
    var cmp' := Abs(c, Step(c, f, cy)).cmp;
    if CmpSelected(c.harts, cy) {
      forall k | 0 <= k < c.harts ensures cmp'[k] == CmpAfter(c, Abs(c, f), cy)[k] {
        CmpWordRefines(c, f, cy, k);
      }
    }
    assert cmp' == CmpAfter(c, Abs(c, f), cy);
  }

  /** Forward simulation, one edge: every field of the next state agrees. */
  lemma StepRefines(c: Config, f: Flat, cy: Cycle)
    requires Supported(c) && Shaped(c, f)
    ensures Abs(c, Step(c, f, cy)) == Next(c, Abs(c, f), cy)
  {
    CmpRefines(c, f, cy);
    SampleRefines(c, f, cy);
    if MsipSelected(c.harts, cy) {
      DecodeHart(c.harts, cy.addr / 4, cy.addr);
    }
    assert Step(c, f, cy).msip == MsipAfter(c, Abs(c, f), cy);
  }

  lemma AllOnesWord(v: seq<bool>, k: nat)
    requires 64 * k + 64 <= |v| && forall i :: 0 <= i < |v| ==> v[i]
    ensures CmpWord(v, k) == B64 - 1
  {
    PowersOfInterest();
    ToNatAllOnes(v[64 * k..64 * k + 64]);
  }

  lemma ResetRefines(c: Config)
    requires c.harts >= 1
    ensures Abs(c, ResetFlat(c)) == Reset(c)
  {
    var v := ResetFlat(c).mtimecmp;
    forall k | 0 <= k < c.harts ensures CmpWord(v, k) == B64 - 1 {
      AllOnesWord(v, k);
    }
  }

  lemma MisdirectedWrite(c: Config, f: Flat, cy: Cycle)
    requires Shaped(c, f) && c.harts > 2048 && cy == Cycle(true, AddressOf(CmpLo(0)), 0, 15, 0)
    ensures NextCmp(c, f, cy) == WritePart(f.mtimecmp, 64 * 2048 + 32 * 0, 0)
  {
    DecodeSharp(c.harts);
    assert HalfBit(cy.addr) == 0;
  }

  /** Beyond the decode's bound a store to hart 0's compare address lands in hart 2048's register. */
  lemma BeyondDecode(c: Config, cy: Cycle)
    requires c.harts > 2048 && cy == Cycle(true, AddressOf(CmpLo(0)), 0, 15, 0)
    ensures Abs(c, Step(c, ResetFlat(c), cy)).cmp[2048] == Join(ALL_ONES, 0)
    ensures Next(c, Abs(c, ResetFlat(c)), cy).cmp[2048] == B64 - 1
  {
    var f := ResetFlat(c);
    ResetRefines(c);
    MisdirectedWrite(c, f, cy);
    WrittenWord(f.mtimecmp, 2048, 0, 0, 2048);
    AllOnesWord(f.mtimecmp, 2048);
    JoinHalf(ALL_ONES, ALL_ONES, 0, 0);
  }

  /** The bound is sharp for the device as a whole: the refinement holds exactly up to 2048 harts. */
  lemma RefinesIff(c: Config)
    requires c.harts >= 1
    ensures c.harts <= 2048 <==> forall f, cy :: Shaped(c, f) ==> Abs(c, Step(c, f, cy)) == Next(c, Abs(c, f), cy)
  {
    if c.harts <= 2048 {
      forall f, cy | Shaped(c, f) ensures Abs(c, Step(c, f, cy)) == Next(c, Abs(c, f), cy) {
        StepRefines(c, f, cy);
      }
    } else {
      var f, cy := ResetFlat(c), Cycle(true, AddressOf(CmpLo(0)), 0, 15, 0);
      BeyondDecode(c, cy);
      assert Abs(c, Step(c, f, cy)) != Next(c, Abs(c, f), cy);
    }
  }
}
