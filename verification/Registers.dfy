/**
 * The CLINT as software sees it: named registers, an array of N 64-bit compare values, and the
 * address map (MSIP at 0, MTIMECMP at 0x4000, MTIME at 0xBFF8).
 */
module Registers {
  import opened Words
  import opened Device

  datatype Register = Msip(hart: nat) | CmpLo(hart: nat) | CmpHi(hart: nat) | TimeLo | TimeHi

  datatype Regs = Regs(counter: nat, tick: bool, mtime: Double, cmp: seq<Double>, msip: seq<bool>,
                       rdata: Word, rvalid: bool)

  /** Hart counts for which the bit-sliced decode agrees with the address map (see Refinement). */
  predicate Supported(c: Config) { 1 <= c.harts <= 2048 }

  predicate Wf(c: Config, r: Regs)
  {
    |r.cmp| == c.harts && |r.msip| == c.harts && r.counter < COUNTER_SPAN
  }

  function Reset(c: Config): (r: Regs)
    ensures Wf(c, r)
  {
    Regs(0, false, 0, seq(c.harts, _ => 0xFFFF_FFFF_FFFF_FFFF), seq(c.harts, _ => false), 0, false)
  }

  predicate InRange(n: nat, reg: Register)
  {
    match reg
    case Msip(h) => h < n
    case CmpLo(h) => h < n
    case CmpHi(h) => h < n
    case _ => true
  }

  /** The address map: which register, if any, an offset names. */
  function RegisterAt(n: nat, addr: nat): (reg: Option<Register>)
    ensures reg.Some? ==> InRange(n, reg.value)
  {
    if addr < 4 * n then
      Some(Msip(addr / 4))
    else if MTIMECMP_BASE <= addr < MTIMECMP_BASE + 8 * n then
      var h := (addr - MTIMECMP_BASE) / 8;
      Some(if HalfBit(addr) == 0 then CmpLo(h) else CmpHi(h))
    else if MTIME_BASE <= addr < MTIME_BASE + 8 then
      Some(if HalfBit(addr) == 0 then TimeLo else TimeHi)
    else
      None
  }

  /** The offset the driver uses for each register. */
  function AddressOf(reg: Register): nat
  {
    match reg
    case Msip(h) => 4 * h
    case CmpLo(h) => MTIMECMP_BASE + 8 * h
    case CmpHi(h) => MTIMECMP_BASE + 8 * h + 4
    case TimeLo => MTIME_BASE
    case TimeHi => MTIME_BASE + 4
  }

  lemma AddressRoundTrip(n: nat, reg: Register)
    requires n <= 2048 && InRange(n, reg)
    ensures RegisterAt(n, AddressOf(reg)) == Some(reg)
    ensures AddressOf(reg) < 0x10000
  {
  }

  /** The address map, in numbers: which bytes belong to which register. */
  lemma AddressMap(n: nat, addr: nat, h: nat)
    requires 1 <= n <= 2048
    ensures RegisterAt(n, addr) == Some(Msip(h)) <==> h < n && 4 * h <= addr < 4 * h + 4
    ensures RegisterAt(n, addr) == Some(CmpLo(h)) <==> h < n && 0x4000 + 8 * h <= addr < 0x4000 + 8 * h + 4
    ensures RegisterAt(n, addr) == Some(CmpHi(h)) <==> h < n && 0x4000 + 8 * h + 4 <= addr < 0x4000 + 8 * h + 8
    ensures RegisterAt(n, addr) == Some(TimeLo) <==> 0xBFF8 <= addr < 0xBFFC
    ensures RegisterAt(n, addr) == Some(TimeHi) <==> 0xBFFC <= addr < 0xC000
  {
  }

  /** The bus cycles of the driver's two volatile accesses. */
  function LoadOf(reg: Register): Cycle { Cycle(true, AddressOf(reg), 0, 0, 0) }

  function StoreOf(reg: Register, data: Word): Cycle { Cycle(true, AddressOf(reg), data, 15, 0) }

  /** The register an accepted write lands on. */
  function Target(n: nat, cy: Cycle): (reg: Option<Register>)
    ensures reg.Some? ==> InRange(n, reg.value)
  {
    if IsWrite(cy) then RegisterAt(n, cy.addr) else None
  }

  predicate WritesTime(n: nat, cy: Cycle)
  {
    Target(n, cy) == Some(TimeLo) || Target(n, cy) == Some(TimeHi)
  }

  predicate WritesCmp(n: nat, cy: Cycle, h: nat)
  {
    Target(n, cy) == Some(CmpLo(h)) || Target(n, cy) == Some(CmpHi(h))
  }

  predicate WritesMsip(n: nat, cy: Cycle, h: nat)
  {
    Target(n, cy) == Some(Msip(h))
  }

  /** An accepted store of `data` to `reg`; any nonzero strobe writes the whole word. */
  predicate Stores(n: nat, cy: Cycle, reg: Register, data: Word)
  {
    Target(n, cy) == Some(reg) && cy.wdata == data
  }

  /** An accepted load of `reg`. */
  predicate Loads(n: nat, cy: Cycle, reg: Register)
  {
    cy.valid && cy.wstrb == 0 && RegisterAt(n, cy.addr) == Some(reg)
  }

  function Value(r: Regs, reg: Register): Word
    requires InRange(|r.cmp|, reg) && |r.msip| == |r.cmp|
  {
    match reg
    case Msip(h) => if r.msip[h] then 1 else 0
    case CmpLo(h) => Lo(r.cmp[h])
    case CmpHi(h) => Hi(r.cmp[h])
    case TimeLo => Lo(r.mtime)
    case TimeHi => Hi(r.mtime)
  }

  /** Offsets outside the map show a mirror of some register, or an undriven value. */
  function Unmapped(c: Config, r: Regs, cy: Cycle): Word
    requires c.harts >= 1 && Wf(c, r)
  {
    var bit, slot := MsipSlot(c.harts, cy.addr), CmpSlot(c.harts, cy.addr);
    if cy.addr < MTIMECMP_BASE then
      if bit < c.harts then Value(r, Msip(bit)) else cy.floating % 2
    else if cy.addr < MTIME_BASE then
      if slot < c.harts then Half(r.cmp[slot], HalfBit(cy.addr)) else cy.floating
    else
      Half(r.mtime, HalfBit(cy.addr))
  }

  function Sample(c: Config, r: Regs, cy: Cycle): Word
    requires c.harts >= 1 && Wf(c, r)
  {
    match RegisterAt(c.harts, cy.addr)
    case Some(reg) => Value(r, reg)
    case None => Unmapped(c, r, cy)
  }

  function TimeAfter(c: Config, r: Regs, cy: Cycle): Double
  {
    match Target(c.harts, cy)
    case Some(TimeLo) => Join(Hi(r.mtime), cy.wdata)
    case Some(TimeHi) => Join(cy.wdata, Lo(r.mtime))
    case _ => if r.tick then Wrap(r.mtime + 1) else r.mtime
  }

  function CmpAfter(c: Config, r: Regs, cy: Cycle): (cmp: seq<Double>)
    requires Wf(c, r)
    ensures |cmp| == c.harts
  {
    match Target(c.harts, cy)
    case Some(CmpLo(h)) => r.cmp[h := Join(Hi(r.cmp[h]), cy.wdata)]
    case Some(CmpHi(h)) => r.cmp[h := Join(cy.wdata, Lo(r.cmp[h]))]
    case _ => r.cmp
  }

  function MsipAfter(c: Config, r: Regs, cy: Cycle): (msip: seq<bool>)
    requires Wf(c, r)
    ensures |msip| == c.harts
  {
    match Target(c.harts, cy)
    case Some(Msip(h)) => r.msip[h := cy.wdata % 2 == 1]
    case _ => r.msip
  }

  /** One clock edge in terms of registers. */
  function Next(c: Config, r: Regs, cy: Cycle): (r': Regs)
    requires c.harts >= 1 && Wf(c, r)
    ensures Wf(c, r')
  {
    Regs(NextCounter(c, r.counter), r.counter == Threshold(c), TimeAfter(c, r, cy), CmpAfter(c, r, cy),
         MsipAfter(c, r, cy), Sample(c, r, cy), if cy.wstrb == 0 then cy.valid else r.rvalid)
  }

  /** The timer interrupt line of hart `h`. */
  predicate Mtip(r: Regs, h: nat)
    requires h < |r.cmp|
  {
    r.mtime >= r.cmp[h]
  }
}
