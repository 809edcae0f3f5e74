/**
 * The CLINT at register-transfer level: one 64*N-bit compare vector, bit-sliced address decode,
 * a 10-bit prescaler. `Step` is what one rising clock edge does while reset is low.
 */
module Device {
  import opened Words
  import opened Bits

  const MTIMECMP_BASE: nat := 0x4000
  const MTIME_BASE: nat := 0xBFF8
  const COUNTER_SPAN: nat := 1024
  const TIMEBASE_HZ: nat := 100000

  /** The two elaboration parameters: N_CORES and FREQ. */
  datatype Config = Config(harts: nat, freq: Word)

  /**
   * What the bus carries at one clock edge. `floating` is the value shown by a bit-select that
   * falls outside its vector (a Verilog x): the environment picks it.
   */
  datatype Cycle = Cycle(valid: bool, addr: nat, wdata: Word, wstrb: nat, floating: Word)

  datatype Flat = Flat(counter: nat, tick: bool, mtime: Double, mtimecmp: seq<bool>, msip: seq<bool>,
                       rdata: Word, rvalid: bool)

  predicate Shaped(c: Config, f: Flat)
  {
    && c.harts >= 1
    && |f.mtimecmp| == 64 * c.harts
    && |f.msip| == c.harts
    && f.counter < COUNTER_SPAN
  }

  function ResetFlat(c: Config): (f: Flat)
    requires c.harts >= 1
    ensures Shaped(c, f)
  {
    Flat(0, false, 0, seq(64 * c.harts, _ => true), seq(c.harts, _ => false), 0, false)
  }

  /** Clock cycles per timer tick, by integer division. */
  function Period(c: Config): nat { c.freq / 100000 }

  /** `FREQ / 100000 - 1`, compared unsigned in 32 bits: it wraps when the quotient is 0. */
  function Threshold(c: Config): nat { (Period(c) + 0xFFFF_FFFF) % 0x1_0000_0000 }

  /** The prescaler counts below the threshold and is cleared otherwise; ten bits wide. */
  function NextCounter(c: Config, counter: nat): (n: nat)
    ensures n < COUNTER_SPAN
  {
    if counter < Threshold(c) then (counter + 1) % 1024 else 0
  }

  function SelWidth(n: nat): nat
    requires n >= 1
  {
    if n == 1 then 1 else Clog2(n)
  }

  /** `iob_addr_i[AddrSelWidth+2:3]`. */
  function CmpSlot(n: nat, addr: nat): nat
    requires n >= 1
  {
    (addr / 8) % Pow2(SelWidth(n))
  }

  /** `iob_addr_i[AddrSelWidth+1:2]`. */
  function MsipSlot(n: nat, addr: nat): nat
    requires n >= 1
  {
    (addr / 4) % Pow2(SelWidth(n))
  }

  /** `iob_addr_i[2]`: 0 for the low word of a 64-bit register, 1 for the high word. */
  function HalfBit(addr: nat): nat { (addr / 4) % 2 }

  /** First bit of the 32-bit part-select the address picks out of the compare vector. */
  function PartBase(n: nat, addr: nat): nat
    requires n >= 1
  {
    CmpSlot(n, addr) * 64 + (HalfBit(addr) + 1) * 32 - 32
  }

  predicate IsWrite(cy: Cycle) { cy.valid && cy.wstrb != 0 }

  predicate CmpSelected(n: nat, cy: Cycle)
  {
    IsWrite(cy) && MTIMECMP_BASE <= cy.addr < MTIMECMP_BASE + 8 * n
  }

  predicate TimeSelected(cy: Cycle)
  {
    IsWrite(cy) && MTIME_BASE <= cy.addr < MTIME_BASE + 8
  }

  predicate MsipSelected(n: nat, cy: Cycle)
  {
    IsWrite(cy) && cy.addr < 4 * n
  }

  /** Write a 32-bit part-select; a select outside the vector writes nothing. */
  function WritePart(v: seq<bool>, lo: nat, w: Word): (v': seq<bool>)
    ensures |v'| == |v|
  {
    if lo + 32 <= |v| then v[..lo] + OfNat(w, 32) + v[lo + 32..] else v
  }

  function PartWord(v: seq<bool>, lo: nat): Word
    requires lo + 32 <= |v|
  {
    ToNatBound(v[lo..lo + 32]);
    PowersOfInterest();
    ToNat(v[lo..lo + 32])
  }

  /** What the registered read port captures at an edge, on every edge, valid or not. */
  function ReadPort(c: Config, f: Flat, cy: Cycle): Word
    requires Shaped(c, f)
  {
    if cy.addr < MTIMECMP_BASE then
      var slot := MsipSlot(c.harts, cy.addr);
      if slot < c.harts then (if f.msip[slot] then 1 else 0) else cy.floating % 2
    else if cy.addr < MTIME_BASE then
      var lo := PartBase(c.harts, cy.addr);
      if lo + 32 <= |f.mtimecmp| then PartWord(f.mtimecmp, lo) else cy.floating
    else
      Half(f.mtime, HalfBit(cy.addr))
  }

  function NextTime(f: Flat, cy: Cycle): Double
  {
    if TimeSelected(cy) then Splice(f.mtime, HalfBit(cy.addr), cy.wdata)
    else if f.tick then Wrap(f.mtime + 1)
    else f.mtime
  }

  function NextCmp(c: Config, f: Flat, cy: Cycle): seq<bool>
    requires Shaped(c, f)
  {
    if CmpSelected(c.harts, cy) then WritePart(f.mtimecmp, PartBase(c.harts, cy.addr), cy.wdata) else f.mtimecmp
  }

  function NextMsip(c: Config, f: Flat, cy: Cycle): seq<bool>
    requires Shaped(c, f)
  {
    var slot := MsipSlot(c.harts, cy.addr);
    if MsipSelected(c.harts, cy) && slot < c.harts then f.msip[slot := cy.wdata % 2 == 1] else f.msip
  }

  /** One rising clock edge. The valid flag of the read port only loads when no strobe is set. */
  function Step(c: Config, f: Flat, cy: Cycle): (f': Flat)
    requires Shaped(c, f)
    ensures Shaped(c, f')
  {
    Flat(NextCounter(c, f.counter), f.counter == Threshold(c), NextTime(f, cy), NextCmp(c, f, cy),
         NextMsip(c, f, cy), ReadPort(c, f, cy), if cy.wstrb == 0 then cy.valid else f.rvalid)
  }

  /** The 64-bit word of hart `k` inside the compare vector: `mtimecmp[k*64+:64]`. */
  function CmpWord(v: seq<bool>, k: nat): Double
    requires 64 * k + 64 <= |v|
  {
    ToNatBound(v[64 * k..64 * k + 64]);
    PowersOfInterest();
    ToNat(v[64 * k..64 * k + 64])
  }
}
