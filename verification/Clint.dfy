/** The device as registers that each clock edge updates in place. */
module ClintDevice {
  import opened Words
  import opened Bits
  import opened Device

  class Clint {
    const c: Config
    var counter: nat
    var incrementTimerR: bool
    var mtime: Double
    const mtimecmp: array<bool>
    const msipReg: array<bool>
    const mtipReg: array<bool>
    var rdataReg: Word
    var rvalid: bool

    ghost predicate Shape()
      reads this, mtimecmp, msipReg, mtipReg
    {
      && c.harts >= 1
      && mtimecmp.Length == 64 * c.harts
      && msipReg.Length == c.harts && mtipReg.Length == c.harts
      && mtimecmp != msipReg && mtimecmp != mtipReg && msipReg != mtipReg
      && counter < COUNTER_SPAN
    }

    /** The clocked registers, as one value. */
    ghost function State(): (f: Flat)
      requires Shape()
      reads this, mtimecmp, msipReg, mtipReg
      ensures Shaped(c, f)
    {
      Flat(counter, incrementTimerR, mtime, mtimecmp[..], msipReg[..], rdataReg, rvalid)
    }

    /** The combinational interrupt lines have settled. */
    ghost predicate Settled()
      requires Shape()
      reads this, mtimecmp, msipReg, mtipReg
    {
      forall k: nat :: k < c.harts ==> mtipReg[k] == (mtime >= CmpWord(mtimecmp[..], k))
    }

    ghost predicate Valid()
      reads this, mtimecmp, msipReg, mtipReg
    {
      Shape() && Settled()
    }

    constructor (c: Config)
      requires c.harts >= 1
      ensures Shape() && this.c == c
      ensures fresh(mtimecmp) && fresh(msipReg) && fresh(mtipReg)
    {
      this.c := c;
      counter, incrementTimerR, mtime, rdataReg, rvalid := 0, false, 0, 0, false;
      mtimecmp := new bool[64 * c.harts];
      msipReg := new bool[c.harts];
      mtipReg := new bool[c.harts];
    }

    /** The compare loop over the harts: `mtime >= mtimecmp[k*64+:64]`, held low while in reset. */
    method Compare(arst: bool)
      requires Shape()
      modifies mtipReg
      ensures Shape() && State() == old(State())
      ensures !arst ==> Settled()
      ensures arst ==> forall k :: 0 <= k < c.harts ==> !mtipReg[k]
    {
      for k := 0 to c.harts
        invariant forall i: nat :: i < k ==> mtipReg[i] == (!arst && mtime >= CmpWord(mtimecmp[..], i))
        invariant mtimecmp[..] == old(mtimecmp[..]) && msipReg[..] == old(msipReg[..])
      {
        mtipReg[k] := if arst then false else mtime >= CmpWord(mtimecmp[..], k);
      }
    }

    /** Asynchronous reset: every register to its reset value, the loops running over the harts. */
    method AsyncReset()
      requires Shape()
      modifies this, mtimecmp, msipReg, mtipReg
      ensures Shape() && State() == ResetFlat(c)
      ensures mtime == 0 && counter == 0 && !incrementTimerR && rdataReg == 0 && !rvalid
      ensures forall i :: 0 <= i < 64 * c.harts ==> mtimecmp[i]
      ensures forall k :: 0 <= k < c.harts ==> !msipReg[k] && !mtipReg[k]
    {
      rdataReg, rvalid, counter, incrementTimerR := 0, false, 0, false;
      for h := 0 to c.harts
        invariant Shape() && !rvalid && rdataReg == 0 && counter == 0 && !incrementTimerR
        invariant forall i :: 0 <= i < 64 * h ==> mtimecmp[i]
      {
        forall i | 64 * h <= i < 64 * h + 64 {
          mtimecmp[i] := true;
        }
      }
      mtime := 0;
      for h := 0 to c.harts
        invariant Shape() && !rvalid && rdataReg == 0 && counter == 0 && !incrementTimerR && mtime == 0
        invariant forall i :: 0 <= i < mtimecmp.Length ==> mtimecmp[i]
        invariant forall i :: 0 <= i < h ==> !msipReg[i]
      {
        msipReg[h] := false;
      }
      assert mtimecmp[..] == ResetFlat(c).mtimecmp;
      assert msipReg[..] == ResetFlat(c).msip;
      Compare(true);
    }

    /** The registered address decoder. */
    method CaptureRead(cy: Cycle)
      requires Shape()
      modifies this`rdataReg, this`rvalid
      ensures rdataReg == old(ReadPort(c, State(), cy))
      ensures rvalid == if cy.wstrb == 0 then cy.valid else old(rvalid)
    {
      if cy.addr < MTIMECMP_BASE {
        var slot := MsipSlot(c.harts, cy.addr);
        if slot < c.harts {
          rdataReg := if msipReg[slot] then 1 else 0;
        } else {
          rdataReg := cy.floating % 2;
        }
      } else if cy.addr < MTIME_BASE {
        var top := CmpSlot(c.harts, cy.addr) * 64 + (HalfBit(cy.addr) + 1) * 32 - 1;
        if top < mtimecmp.Length {
          rdataReg := PartWord(mtimecmp[..], top - 31);
        } else {
          rdataReg := cy.floating;
        }
      } else {
        rdataReg := Half(mtime, HalfBit(cy.addr));
      }
      if cy.wstrb == 0 {
        rvalid := cy.valid;
      }
    }

    /** The part-select assignment to the compare vector. */
    method UpdateCmp(cy: Cycle)
      requires Shape()
      modifies mtimecmp
      ensures mtimecmp[..] == old(NextCmp(c, State(), cy))
    {
      if cy.valid && cy.wstrb != 0 && MTIMECMP_BASE <= cy.addr < MTIMECMP_BASE + 8 * c.harts {
        var top := CmpSlot(c.harts, cy.addr) * 64 + (HalfBit(cy.addr) + 1) * 32 - 1;
        if top < mtimecmp.Length {
          var lo, bits := top - 31, OfNat(cy.wdata, 32);
          forall i | 0 <= i < 32 {
            mtimecmp[lo + i] := bits[i];
          }
          assert mtimecmp[..] == WritePart(old(mtimecmp[..]), lo, cy.wdata);
        }
      }
    }

    /** A bus write to `mtime` beats a tick on the same edge. */
    method UpdateTime(cy: Cycle)
      requires Shape()
      modifies this`mtime
      ensures mtime == old(NextTime(State(), cy))
    {
      if cy.valid && cy.wstrb != 0 && MTIME_BASE <= cy.addr < MTIME_BASE + 8 {
        mtime := Splice(mtime, HalfBit(cy.addr), cy.wdata);
      } else if incrementTimerR {
        mtime := Wrap(mtime + 1);
      }
    }

    method UpdateMsip(cy: Cycle)
      requires Shape()
      modifies msipReg
      ensures msipReg[..] == old(NextMsip(c, State(), cy))
    {
      if cy.valid && cy.wstrb != 0 && cy.addr < 4 * c.harts {
        var slot := MsipSlot(c.harts, cy.addr);
        if slot < c.harts {
          msipReg[slot] := cy.wdata % 2 == 1;
        }
      }
    }

    /** The tick register and the external counter, reset exactly when it is not enabled. */
    method UpdatePrescaler()
      requires Shape()
      modifies this`incrementTimerR, this`counter
      ensures incrementTimerR == (old(counter) == Threshold(c)) && counter == NextCounter(c, old(counter))
    {
      incrementTimerR := counter == Threshold(c);
      var counterE := counter < Threshold(c);
      if !counterE {
        counter := 0;
      } else {
        counter := (counter + 1) % 1024;
      }
    }

    /**
     * One rising clock edge out of reset. The read port captures first, so that it sees the values
     * from before the edge; the lines then settle on the new state.
     */
    method Edge(cy: Cycle)
      requires Shape()
      modifies this, mtimecmp, msipReg, mtipReg
      ensures Valid() && State() == Step(c, old(State()), cy)
    {
      CaptureRead(cy);
      UpdateCmp(cy);
      UpdateTime(cy);
      UpdateMsip(cy);
      UpdatePrescaler();
      Compare(false);
    }
  }
}
