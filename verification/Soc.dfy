/**
 * The device on its bus, driven by one hart's loads and stores while every other cycle belongs to
 * somebody else. `schedule` lists what the bus carries before each of the driver's next accesses:
 * any number of cycles with any contents. Once it is used up the bus is the driver's alone, so every
 * terminating execution of driver code is a choice of schedule.
 */
module SystemBus {
  import opened Words
  import opened Device
  import opened Registers
  import opened Refinement
  import opened Runs
  import opened ClintDevice

  /** The hart's trap enables: global, machine timer, and whether the handler is installed. */
  datatype Traps = Traps(mie: bool, mti: bool, handler: bool) {

    predicate On() { mie && mti }
  }

  /**
   * What the hart does: it loads or stores a 32-bit word at an absolute address, or it makes no
   * access while these bus cycles pass.
   */
  datatype Event = Peek(address: int) | Poke(address: int, data: Word) | Pause(cycles: seq<Cycle>)

  /** The device's 16-bit address port: the interconnect passes the low bits. */
  function Port(address: int): nat { address % 0x10000 }

  /** The events of a hart, in order. */
  datatype Script = Start | Then(before: Script, last: Event) {

    function Do(e: Event): Script { Then(this, e) }

    function Size(): nat
    {
      if Start? then 0 else before.Size() + 1
    }

    function Accesses(): nat
    {
      if Start? then 0 else before.Accesses() + if last.Pause? then 0 else 1
    }

    /** All but the last `i` events. */
    function Back(i: nat): Script
    {
      if i == 0 || Start? then this else before.Back(i - 1)
    }
  }

  /** What others put on the bus before access number `i` of the hart. */
  function Gap(plan: seq<seq<Cycle>>, i: nat): seq<Cycle>
  {
    if i < |plan| then plan[i] else []
  }

  function Rest(plan: seq<seq<Cycle>>, i: nat): seq<seq<Cycle>>
  {
    if i < |plan| then plan[i..] else []
  }

  /** The bus cycle of an access: a store strobes the whole word. */
  function OnBus(e: Event): Cycle
    requires !e.Pause?
  {
    match e
    case Peek(address) => Cycle(true, Port(address), 0, 0, 0)
    case Poke(address, data) => Cycle(true, Port(address), data, 15, 0)
  }

  /** The bus cycles of one event: an access comes after its gap. */
  function CyclesOf(gap: seq<Cycle>, e: Event): seq<Cycle>
  {
    if e.Pause? then e.cycles else gap + [OnBus(e)]
  }

  /** Everything the bus carries while the hart follows a script and others follow a plan. */
  function Played(plan: seq<seq<Cycle>>, script: Script): seq<Cycle>
  {
    match script
    case Start => []
    case Then(before, last) => Played(plan, before) + CyclesOf(Gap(plan, before.Accesses()), last)
  }

  /**
   * Seen from the bus: when all but the last `i` events were done, exactly their cycles had passed, the
   * last of these events on a stretch of its own; and the gaps not yet used are still to come.
   */
  ghost predicate Placed(ins: seq<Cycle>, gaps: seq<seq<Cycle>>, plan: seq<seq<Cycle>>, script: Script, i: nat)
  {
    var s := script.Back(i);
    var to := |Played(plan, s)|;
    && to <= |ins|
    && (i == 0 ==> to == |ins| && gaps == Rest(plan, script.Accesses()))
    && (s.Then? ==> var from := |Played(plan, s.before)|;
                    from <= to && ins[from..to] == CyclesOf(Gap(plan, s.before.Accesses()), s.last))
  }

  lemma PlacedMore(ins: seq<Cycle>, gaps: seq<seq<Cycle>>, plan: seq<seq<Cycle>>, script: Script, e: Event, i: nat)
    requires forall j: nat :: Placed(ins, gaps, plan, script, j)
    ensures var cycles := ins + CyclesOf(Gap(plan, script.Accesses()), e);
            Placed(cycles, Rest(plan, script.Do(e).Accesses()), plan, script.Do(e), i)
  {
    var more := CyclesOf(Gap(plan, script.Accesses()), e);
    if i == 0 {
      assert Placed(ins, gaps, plan, script, 0);
    } else {
      assert Placed(ins, gaps, plan, script, i - 1);
      StretchStays(ins, more, plan, script.Back(i - 1));
    }
  }

  lemma StretchStays(ins: seq<Cycle>, more: seq<Cycle>, plan: seq<seq<Cycle>>, s: Script)
    requires |Played(plan, s)| <= |ins|
    ensures s.Then? ==> var from, to := |Played(plan, s.before)|, |Played(plan, s)|;
                        from <= to && (ins + more)[from..to] == ins[from..to]
  {
  }

  /** So script and plan determine the whole bus. */
  lemma {:induction false} PlacedIsPlayed(ins: seq<Cycle>, gaps: seq<seq<Cycle>>, plan: seq<seq<Cycle>>,
                                          script: Script, i: nat)
    requires i <= script.Size() && forall j: nat :: Placed(ins, gaps, plan, script, j)
    ensures |Played(plan, script.Back(i))| <= |ins|
    ensures ins[..|Played(plan, script.Back(i))|] == Played(plan, script.Back(i))
    ensures i == 0 ==> ins == Played(plan, script)
    decreases script.Size() - i
  {
    assert Placed(ins, gaps, plan, script, i);
    if i < script.Size() {
      PlacedIsPlayed(ins, gaps, plan, script, i + 1);
      BackOne(script, i);
      var s := script.Back(i);
      var from, to := |Played(plan, s.before)|, |Played(plan, s)|;
      assert ins[..to] == ins[..from] + ins[from..to];
    } else {
      BackAll(script);
    }
  }

  lemma {:induction false} BackOne(script: Script, i: nat)
    requires i < script.Size()
    ensures script.Back(i).Then? && script.Back(i + 1) == script.Back(i).before
  {
    if i > 0 {
      BackOne(script.before, i - 1);
    }
  }

  lemma {:induction false} BackAll(script: Script)
    ensures script.Back(script.Size()) == Start
  {
    if script.Then? {
      BackAll(script.before);
    }
  }

  lemma GapThenOwn(ins: seq<Cycle>, gap: seq<Cycle>, x: Event)
    requires !x.Pause?
    ensures ins + CyclesOf(gap, x) == ins + gap + [OnBus(x)]
  {
  }

  lemma GapTaken(plan: seq<seq<Cycle>>, gaps: seq<seq<Cycle>>, n: nat)
    requires gaps == Rest(plan, n)
    ensures Gap(gaps, 0) == Gap(plan, n) && Rest(plan, n + 1) == if gaps == [] then [] else gaps[1..]
  {
  }

  class Soc {
    const c: Config
    const clint: Clint
    var schedule: seq<seq<Cycle>>
    /** Everything that has happened since reset. */
    ghost var run: Run
    /** The cycles of `run` that are the driver's own accesses. */
    ghost var own: set<nat>
    /** The schedule as it was at first, and what the hart has done. */
    ghost const plan: seq<seq<Cycle>>
    ghost var script: Script
    var traps: Traps
    /** The states of `run` in which traps were on: there, and only there, a high line is a trap. */
    ghost var trapping: set<nat>

    ghost function Repr(): set<object>
      reads {}
    {
      {this, clint, clint.mtimecmp, clint.msipReg, clint.mtipReg}
    }

    /** The device and the traps agree with the run. */
    ghost predicate Sound()
      reads Repr()
    {
      && clint.Valid() && clint.c == c
      && run.FromReset() && run.c == c
      && Abs(c, clint.State()) == run.At(|run.ins|)
      && (forall i :: i in own ==> i < |run.ins|)
      && (forall i :: i in trapping ==> i <= |run.ins|)
      && (traps.mie && traps.mti ==> |run.ins| in trapping && traps.handler)
    }

    /** The run is what the hart's script and the others' plan come to, and nothing else. */
    ghost predicate Scripted()
      reads this
    {
      forall i: nat :: Placed(run.ins, schedule, plan, script, i)
    }

    ghost predicate Valid()
      reads Repr()
    {
      Sound() && Scripted()
    }

    /** The enables are as they were; if they were off, no state with traps on has been added. */
    ghost predicate TrapsKept(enables: Traps, states: set<nat>)
      reads this
    {
      traps == enables && states <= trapping && (!(enables.mie && enables.mti) ==> trapping == states)
    }

    constructor (c: Config, schedule: seq<seq<Cycle>>)
      requires Supported(c)
      ensures Valid() && fresh(Repr()) && this.c == c && this.schedule == schedule
      ensures run.ins == [] && own == {} && plan == schedule && script == Start && !traps.On() && trapping == {}
    {
      var device := new Clint(c);
      device.AsyncReset();
      device.Compare(false);
      ResetRefines(c);
      this.c, clint, this.schedule := c, device, schedule;
      run, own := Run(c, [Reset(c)], []), {};
      plan, script := schedule, Start;
      traps, trapping := Traps(false, false, false), {};
    }

    /** The interrupt pins are those of the run's latest state. */
    lemma PinsFollow(h: nat)
      requires Valid() && h < c.harts
      ensures clint.mtipReg[h] <==> run.Tip(|run.ins|, h)
      ensures clint.msipReg[h] == run.At(|run.ins|).msip[h]
    {
      assert Abs(c, clint.State()).cmp[h] == CmpWord(clint.mtimecmp[..], h);
    }

    /** What the hart did and what others did are all the bus ever carried. */
    lemma RunIsPlayed()
      requires Valid()
      ensures run.ins == Played(plan, script)
    {
      PlacedIsPlayed(run.ins, schedule, plan, script, 0);
    }

    /** The bus has carried one more event. */
    lemma Recorded(ins: seq<Cycle>, gaps: seq<seq<Cycle>>, earlier: Script, e: Event)
      requires (forall j: nat :: Placed(ins, gaps, plan, earlier, j)) && script == earlier.Do(e)
      requires run.ins == ins + CyclesOf(Gap(plan, earlier.Accesses()), e) && schedule == Rest(plan, script.Accesses())
      ensures Scripted()
    {
      forall i: nat ensures Placed(run.ins, schedule, plan, script, i) {
        PlacedMore(ins, gaps, plan, earlier, e, i);
      }
    }

    lemma RecordedAccess(ins: seq<Cycle>, gaps: seq<seq<Cycle>>, earlier: Script, x: Event)
      requires (forall j: nat :: Placed(ins, gaps, plan, earlier, j)) && script == earlier.Do(x) && !x.Pause?
      requires run.ins == ins + CyclesOf(Gap(gaps, 0), x) && schedule == if gaps == [] then [] else gaps[1..]
      ensures Scripted()
    {
      assert Placed(ins, gaps, plan, earlier, 0);
      GapTaken(plan, gaps, earlier.Accesses());
      Recorded(ins, gaps, earlier, x);
    }

    /** One bus cycle. */
    method Pass(cy: Cycle)
      requires Sound()
      modifies Repr() - {this}, `run, `trapping
      ensures Sound() && run == old(run).Then(cy) && old(run).Begins(run)
      ensures TrapsKept(traps, old(trapping))
      ensures forall t :: t in trapping ==> t in old(trapping) || t > |old(run).ins|
    {
      StepRefines(c, clint.State(), cy);
      ThenIsValid(run, cy);
      clint.Edge(cy);
      run := run.Then(cy);
      if traps.On() {
        trapping := trapping + {|run.ins|};
      }
    }

    method PassAll(cycles: seq<Cycle>)
      requires Sound()
      modifies Repr() - {this}, `run, `trapping
      ensures Sound() && old(run).Begins(run) && run.ins == old(run).ins + cycles
      ensures TrapsKept(traps, old(trapping))
      ensures forall t :: t in trapping ==> t in old(trapping) || t > |old(run).ins|
    {
      for i := 0 to |cycles|
        invariant run.ins == old(run).ins + cycles[..i]
        invariant Sound() && old(run).Begins(run) && TrapsKept(traps, old(trapping))
        invariant forall t :: t in trapping ==> t in old(trapping) || t > |old(run).ins|
      {
        Pass(cycles[i]);
      }
    }

    /** A CSR write of the hart: it never turns traps on without a handler. */
    method SetTraps(enables: Traps)
      requires Valid() && (enables.mie && enables.mti ==> enables.handler)
      modifies `traps, `trapping
      ensures Valid() && traps == enables
      ensures trapping == old(trapping) + if enables.On() then {|run.ins|} else {}
    {
      traps := enables;
      if traps.On() {
        trapping := trapping + {|run.ins|};
      }
    }

    /** These bus cycles, with no access of the driver's among them. */
    method Wait(cycles: seq<Cycle>)
      requires Valid()
      modifies Repr() - {this}, `run, `trapping, `script
      ensures Valid() && old(run).Begins(run) && TrapsKept(traps, old(trapping))
      ensures run.ins == old(run).ins + cycles && script == old(script).Do(Pause(cycles))
      ensures forall t :: t in trapping ==> t in old(trapping) || t > |old(run).ins|
    {
      assert Placed(run.ins, schedule, plan, script, 0);
      PassAll(cycles);
      script := script.Do(Pause(cycles));
      Recorded(old(run.ins), schedule, old(script), Pause(cycles));
    }

    /** What the schedule puts before the driver's next access. */
    method PassGap()
      requires Sound()
      modifies Repr() - {this}, `run, `trapping, `schedule
      ensures Sound() && old(run).Begins(run) && run.ins == old(run).ins + Gap(old(schedule), 0)
      ensures schedule == if old(schedule) == [] then [] else old(schedule)[1..]
      ensures TrapsKept(traps, old(trapping))
    {
      if schedule != [] {
        PassAll(schedule[0]);
        schedule := schedule[1..];
      }
    }

    method PassOwn(x: Event)
      requires Sound() && !x.Pause?
      modifies Repr() - {this}, `run, `trapping, `own
      ensures Sound() && old(run).Begins(run) && run.ins == old(run).ins + [OnBus(x)]
      ensures own == old(own) + {|old(run).ins|} && TrapsKept(traps, old(trapping))
    {
      Pass(OnBus(x));
      own := own + {|run.ins| - 1};
    }

    method PassGapThenOwn(x: Event)
      requires Sound() && !x.Pause?
      modifies Repr() - {this}, `run, `trapping, `schedule, `own
      ensures Sound() && old(run).Begins(run)
      ensures run.ins == old(run).ins + CyclesOf(Gap(old(schedule), 0), x)
      ensures schedule == (if old(schedule) == [] then [] else old(schedule)[1..])
      ensures own == old(own) + {|run.ins| - 1} && TrapsKept(traps, old(trapping))
    {
      PassGap();
      PassOwn(x);
    }

    /** The driver's next access, after whatever the schedule puts before it. */
    method Access(x: Event)
      requires Valid() && !x.Pause?
      modifies Repr()
      ensures Valid() && old(run).Begins(run) && |run.ins| > |old(run).ins|
      ensures run.ins == old(run).ins + (if old(schedule) == [] then [] else old(schedule)[0]) + [OnBus(x)]
      ensures own == old(own) + {|run.ins| - 1} && script == old(script).Do(x)
      ensures schedule == if old(schedule) == [] then [] else old(schedule)[1..]
      ensures TrapsKept(old(traps), old(trapping))
    {
      PassGapThenOwn(x);
      script := script.Do(x);
      RecordedAccess(old(run.ins), old(schedule), old(script), x);
      GapThenOwn(old(run.ins), Gap(old(schedule), 0), x);
    }
  }
}
