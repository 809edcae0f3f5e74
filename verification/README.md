# CLINT: device, 32-bit driver and re-arm handler

A model of the IObundle Core Local Interrupt Controller (`mtime`, `mtimecmp`, `msip` and the interrupt
lines), of the RV32 code that drives it, and of the example firmware's timer handler, with proofs about
whole runs of the three together.

## What is modelled

* **The device, twice.** `Device.dfy` is the register-transfer view: one `N_CORES*64`-bit compare vector
  with 32-bit part-selects, bit-sliced addresses, a 10-bit prescaler, a tick register, a registered read
  port. `Clint.dfy` is the class that updates those registers in place, one method per clocked block,
  proved equal to `Device.Step`. `Registers.dfy` is the view software has: named registers and an address
  map. `Refinement.dfy` and `Runs.dfy` prove that the first refines the second on every run.
* **Runs.** A run is a sequence of states linked by bus cycles, at most one access per clock edge, by
  anybody. `At(t)` is the state before edge `t`; the access of cycle `t` shows in `At(t + 1)`. Driver
  calls are the positions of their accesses in a run, so a statement about all positions and all other
  cycles is a statement about every interleaving with the clock and with other harts.
* **The driver.** `Driver.dfy` has the C functions as methods over `Soc.dfy`, which puts any number of
  foreign bus cycles, with any contents, before each access the driver makes. The list of those gaps is
  finite and the bus is undisturbed after it, so every execution of driver code that ends is an instance, and
  the polling loop is proved to end. The 64-bit branches of the C code serve as the atomic specification:
  one access on one cycle. `Soc.dfy` also keeps the hart's script, its loads and stores by absolute
  address; script and gaps together are proved to be all that the bus carries.
* **The handler.** `Firmware.dfy` has `main` up to its wait, `irq_entry`, and the loop of waits and traps
  around them. Its methods record what the hart did (readings, stores, own accesses, the states in which
  traps were on); `History.dfy` proves that this record is a history that every further trap extends, and
  that a history nobody disturbed is periodic; `Arming.dfy` has what periodic means, in ticks and in
  clock cycles, over any number of handler runs.

## Assumptions

* The counter block is not in the repository: its synchronous reset gives 0, otherwise enable adds one
  modulo 2^10, and clock enable is held at 1. The tick register is cleared by reset.
* `FREQ / 100000 - 1` is compared unsigned in 32 bits, so a clock below 100 kHz gives a threshold of
  2^32 - 1 and no tick at all.
* A bit-select outside its vector shows a value the environment picks (`floating`).
* The interconnect maps the device on a 64 KiB boundary and passes the low 16 address bits.
* `|=` of a low word and a shifted high word is their join; the macro `MTIMER_SECONDS_TO_CLOCKS` is taken at
  its two exact values, 100 and 100000 ticks.
* A hart traps on the timer only while its line is high and traps are enabled; the handler runs with
  traps off, and the return from it turns them on again. A wait lasts any number of cycles, so any
  latency between the line and the trap is covered. `main` waits once and then ends; the firmware is
  modelled for any number of waits.

Where the text of the repository and its code differ, the code is followed: the line is high when `mtime`
is greater than *or equal to* `mtimecmp` (`iob_clint.py:245`), although `README.md:37` says greater. Two
further points the code decides: any nonzero write strobe writes the whole 32-bit word
(`iob_clint.py:217`), and the read-valid flag is held, not cleared, by a cycle with a strobe
(`iob_clint.py:324`).

The rule for `mtime` and `mtimecmp` is section 3.2.1 of the RISC-V Privileged Architecture, version 1.12;
the high/low/high read is the loop of section 10.1 of the RISC-V Unprivileged ISA, version 20191213.

## Model

| member | source | states |
|---|---|---|
| Refinement.DecodeHart | iob_clint.py:208-230 | For up to 2048 harts, the bit-sliced address selects exactly the hart whose compare or software-interrupt register the offset names. |
| Refinement.DecodeSharp | iob_clint.py:208-256 | That bound is sharp: every compare register is reached at its address if and only if there are at most 2048 harts; beyond, hart 0's address selects slot 2048. |
| Refinement.BeyondDecode | iob_clint.py:208-258 | With more harts, a store to hart 0's compare address changes hart 2048's register of the device and not of the register view. |
| Refinement.RefinesIff | iob_clint.py:208-281 | So every edge of the flat device is an edge of the register view if and only if there are at most 2048 harts. |
| Refinement.StepRefines | iob_clint.py:217-281 | One clock edge of the flat, bit-sliced device is one edge of the register view, in every field and for every bus cycle, mapped or not. |
| Refinement.ResetRefines | iob_clint.py:251-276 | The two views agree on the reset state: compare values all ones, the rest zero. |
| Runs.RunRefines | iob_clint.py:236-258 | Over every run from reset the flat device is the register view, and each line is `mtime >= mtimecmp[k*64+:64]`. |
| Runs.OneHalfPerWrite | iob_clint.py:249-258 | Every cycle changes at most one half of one 64-bit compare word, the one an accepted write names. |
| Runs.RunsDetermined | iob_clint.py:217-281 | Start state and bus cycles determine the state at every time: the device has no other input. |
| Runs.LoadAnswers | iob_clint.py:220-230 | A load accepted on cycle t is answered valid on t+1 with the register's value from before edge t. |
| Runs.ReadValidRule | iob_clint.py:323-325 | Over whole runs the valid flag is up if and only if the latest strobe-free cycle was a request. |
| Runs.TimeAdvances | iob_clint.py:261-269 | While nobody writes `mtime` it moves on by exactly the pulses seen, modulo 2^64. |
| Registers.AddressMap | iob_clint.py:210-212 | The address map in numbers: the bytes of each register, and no others, name it. |
| Runs.TimeEdge | iob_clint.py:261-269 | On every edge of every run `mtime` takes the word of a valid, strobed cycle at 0xBFF8 or 0xBFFC in that half, else a pulse, else it stays. |
| Runs.CmpEdge | iob_clint.py:249-258 | A compare register takes the word of a valid, strobed cycle at its two addresses, and changes by nothing else. |
| Runs.MsipEdge | iob_clint.py:272-281 | A software-interrupt bit takes the low bit of a valid, strobed cycle at its address, and changes by nothing else. |
| Runs.MsipRule | iob_clint.py:272-281 | From reset on, a software-interrupt bit is the low bit of the last word stored to it, and low before the first. |
| Runs.ReadEdge | iob_clint.py:220-230 | On every edge, valid or not, the read port takes the addressed word, and off the map a mirror of a register or an undriven value. |
| Runs.SelectorIsLeast | iob_clint.py:208 | The mirrors repeat at the least power of two, from 2 on, with room for all harts. |
| Runs.CmpHolds | iob_clint.py:249-258 | A compare value that nobody writes never changes, whatever the rest of the bus does. |
| Timebase.PrescalerClosedForm | iob_clint.py:232-234 | Whatever the bus does, for 100 kHz <= FREQ < 102.5 MHz and P = FREQ/100000, after t edges the counter is t mod P and the pulse is up exactly on positive multiples of P; for every other FREQ the counter runs freely and no pulse ever comes. |
| Timebase.PulseExistsIff | iob_clint.py:142-234 | The 10-bit width is sharp: a pulse occurs in a run if and only if 100000 <= FREQ < 102500000 and the run lasts FREQ/100000 edges. |
| Timebase.FrozenTime | iob_clint.py:261-269 | With any other FREQ, `mtime` changes only by bus writes. |
| Timebase.PulseCount | iob_clint.py:232-234 | The pulses between two cycles follow from the cycle numbers alone. |
| Timebase.TimeClosedForm | iob_clint.py:261-269 | Unwritten, `mtime` is (t-1)/(FREQ/100000) modulo 2^64. |
| Timebase.PulsesInWindow | iob_clint.py:232-234 | At most n ticks fall in n*P clock cycles, whatever the prescaler's phase. |
| Timebase.TimebaseAccuracy | iob_clint.py:102 | For any FREQ from 100 kHz to below 102.5 MHz, and until `mtime` wraps, `mtime` is never more than one tick behind 100 kHz and gains less than one part in FREQ/100000. |
| Timebase.PulseConservation | iob_clint.py:232-269 | Pulses applied plus pulses lost to a write on the same cycle are one per P cycles. |
| Timebase.TimeLedger | iob_clint.py:261-269 | Over any run with any writes, `mtime` is its start plus applied pulses plus the jumps of the writes, modulo 2^64. |
| Timebase.TimeSinceWrite | iob_clint.py:264-268 | After the last write `mtime` is the value it left plus later pulses; a pulse on the write's own cycle is lost. |
| Interrupts.EdgeRule | iob_clint.py:236-269 | Without a write on the edge, a line rises if and only if a tick makes `mtime` equal the compare value, and falls if and only if `mtime` wraps to 0 and the compare value is not 0. |
| Interrupts.TipByPulses | iob_clint.py:236-269 | Over a quiet stretch without wrap the line is decided by the count of pulses. |
| Interrupts.UnprogrammedLine | iob_clint.py:250-258 | With `mtime` and the line's compare register unwritten since reset, for every FREQ, a line is high exactly while `mtime` is 2^64-1: by the closed form of `mtime` for a ticking period, never for any other. |
| TimeAccess.LinearizableRead | software/src/iob_clint.c:82-101 | An accepted high/low/high pass over at most 2^64-2^32 ticks returns the whole `mtime` at its low-word load: it is one 64-bit read on that cycle. |
| TimeAccess.ReadBoundSharp | software/src/iob_clint.c:93-100 | One tick more and the value can be wrong, at every rollover of the low word that does not also wrap `mtime`. |
| TimeAccess.PolledExists | iob_clint.py:220-269 | The runs of the two sharpness results exist, for any length and any choice of loads. |
| TimeAccess.RetryCost | software/src/iob_clint.c:93-99 | n failed passes in a row span at least (n-1)*2^32+1 ticks: a measure for the loop. |
| TimeAccess.SecondPassSuffices | software/src/iob_clint.c:93-99 | Two passes within 2^32*P clock cycles cannot both fail. |
| TimeAccess.RetryBoundSharp | software/src/iob_clint.c:93-99 | At 2^32+1 ticks two passes can both fail, across any two rollovers. |
| TimeAccess.PlainReadError | software/src/iob_clint.c:12-20 | The low-then-high read returns `mtime` at the low read plus 2^32 per carry out of the low word before the high read; with at most 2^64-2^32 ticks between, it is right if and only if the low word plus those ticks stays below 2^32. |
| TimeAccess.TornRead | software/src/iob_clint.c:12-20 | At every rollover of the low word there is a run from reset in which it returns a time 2^32 ticks ahead. |
| TimeAccess.PlainWriteEffect | software/src/iob_clint.c:5-10 | With d ticks between the stores the low word runs on modulo 2^32 and the carry is overwritten; the result is time + d if and only if the low word does not roll over. |
| TimeAccess.LostCarry | software/src/iob_clint.c:5-10 | For every value and every number of ticks that rolls its low word over, a run from reset in which the carry is lost. |
| Compare.CallStages | software/src/iob_clint.c:22-29 | The compare register in every state of the three-store update. |
| Compare.NoSpuriousInterrupt | software/src/iob_clint.c:22-29 | In every state of the update the line is high only where one 64-bit store on the low store's cycle would have it, and exactly there once the call is over; any old and new values, ticks, `mtime` writes and other traffic. |
| Compare.PlainUpdateSafe | software/src/iob_clint.c:68-70 | If the low word does not fall or the high word does not rise, no run shows a false interrupt in any state between the two stores of a plain update, whatever the bus and `mtime` do. |
| Compare.PlainUpdateSafeIff | software/src/iob_clint.c:68-70 | Exactly for those pairs of values is every plain update, in every run of every device, free of false interrupts. |
| Compare.PlainUpdateSpurious | software/src/iob_clint.c:68-70 | For every other pair of values, a run of the default device from reset in which the plain update raises one. |
| Compare.ConcurrentCallsLinearize | software/src/iob_clint.c:22-29 | In any interleaving of any number of updates by each hart, in every state, a line is high only if `mtime` has reached the value its hart's last low store was for, and between calls the register holds that value. |
| Compare.ConcurrentCallsSerialise | software/src/iob_clint.c:22-29 | Any such interleaving ends as if the updates ran one after another, in any order that keeps each hart's own. |
| Compare.ConcurrentCallsSafe | software/src/iob_clint.c:22-29 | From a call to its hart's next one, no state shows that hart a false interrupt; after the call's last store the line is exact. |
| Compare.CompareReadBack | software/src/iob_clint.c:22-41 | `clint_get_timercmp` returns what `clint_set_timercmp` set, across any ticks and other traffic. |
| Compare.MsipReadBack | software/src/iob_clint.c:43-53 | `clint_get_msip` returns the low bit of what was set; other harts' bits are untouched. |
| Arming.ArmedLine | software/src/iob_clint.c:55-78 | After arming at an offset the line is high if and only if `mtime` has reached the reading plus the offset. |
| Arming.ArmedInCycles | software/src/iob_clint.c:55-102 | End to end in clock cycles: the line is high exactly from a cycle fixed by the low-word load, between (offset-1)*P+1 and offset*P cycles after it. |
| Arming.ServiceStep | software/example_firmware.c:58-72 | From a handler's last store to the next entry the line is low until `mtime` reaches its reading plus the interval, and high from then on. |
| Arming.DeadlineAdvances | software/example_firmware.c:66-69 | The next deadline is the handler's reading plus the interval. |
| Arming.DeadlinesSpaced | software/example_firmware.c:66-69 | After any number k of handler runs the deadline is at least the first plus k intervals. |
| Arming.DeadlinesDrift | software/example_firmware.c:66-69 | If each handler reads within L ticks of its deadline, it is at most the first plus k*(interval+L). |
| Arming.OneEntryPerDeadline | software/example_firmware.c:58-72 | With handlers that finish before the deadline they set, exactly one entry falls in each deadline's window. |
| Arming.EntriesSpacedInCycles | software/example_firmware.c:58-72 | In clock cycles, the next entry is at least (interval-1)*P+1 after this handler's reading. |
| TimerHistory.HistoryServes | software/example_firmware.c:58-72 | A handler run taken on a trap extends the history of the hart's timer, whatever others do meanwhile. |
| TimerHistory.FirstLine | software/example_firmware.c:32-46 | In an undisturbed history, from the first arming to the first handler entry the line is high exactly when the first interval has passed since the reading. |
| TimerHistory.FirstTrapIsDue | software/example_firmware.c:32-46 | In no state before that entry in which traps were on is the line high early. |
| TimerHistory.HistoryIsPeriodic | software/example_firmware.c:58-72 | The handler runs of an undisturbed history are the periodic runs of the results above; nothing is asked of the handler's own accesses. |
| TimerHistory.HistoryDeadlines | software/example_firmware.c:32-72 | The i-th handler run answers a deadline that has passed and lies at least the first interval plus i intervals after the first reading. |
| TimerHistory.HistoryLine | software/example_firmware.c:32-72 | The exact line of an undisturbed history: in every state with no handler run under way it is high if and only if the interval in force has passed since the reading in force. |
| TimerHistory.HistoryLineInCycles | software/example_firmware.c:32-72 | In clock cycles from reset: if and only if that state is at or past a cycle fixed by the latest reading and its interval. |
| ClintDevice.Clint.AsyncReset | iob_clint.py:250-277 | Every register to its reset value, by loops over the harts: compare words all ones, software-interrupt bits, counters, read port and `mtime` zero, lines low. |
| ClintDevice.Clint.Compare | iob_clint.py:238-247 | The lines settle to `mtime >= word`, or low in reset. |
| ClintDevice.Clint.UpdateCmp | iob_clint.py:250-258 | The part-select write into the compare vector. |
| ClintDevice.Clint.Edge | iob_clint.py:220-281 | The in-place edge is `Device.Step`, which the refinement and run results are about. |
| SystemBus.Soc.PinsFollow | iob_clint.py:237-272 | The interrupt pins are those of the run's latest state. |
| SystemBus.Soc.Access | software/src/iob_clint.c:5-102 | One access of the hart: the whole of the next gap passes first, then the access itself, and nothing else. |
| SystemBus.Soc.RunIsPlayed | software/src/iob_clint.c:5-102 | The bus carries exactly what the hart's script of absolute addresses and the others' plan of gaps come to. |
| Driver.ClintDriver.SetTimer | software/src/iob_clint.c:5-10 | Its two stores, at base + 0xBFF8 and base + 0xBFFC, each after its gap and nothing else, and the `mtime` they leave. |
| Driver.ClintDriver.GetTimer | software/src/iob_clint.c:12-20 | Its two loads, by absolute address, each after its gap, and the exact result, torn or not. |
| Driver.ClintDriver.SetTimerCmp | software/src/iob_clint.c:22-29 | Its three stores, by absolute address, each after its gap; the value left in the device, no false interrupt in any state of the call. |
| Driver.ClintDriver.GetTimerCmp | software/src/iob_clint.c:31-41 | Its two loads, by absolute address, each after its gap; the register's value if nobody writes it meanwhile. |
| Driver.ClintDriver.SetMsip | software/src/iob_clint.c:43-45 | One store at base + 4*hart after its gap: the low bit of the value in that hart's register, other harts as they were. |
| Driver.ClintDriver.GetMsip | software/src/iob_clint.c:47-53 | One load at base + 4*hart after its gap; the hart's bit. |
| Driver.ClintDriver.GetRawTime | software/src/iob_clint.c:82-101 | The polling loop: it ends, makes only the high, low, high loads of its passes, each after its gap, and its result is that of its last, accepted pass, hence `mtime` at that pass's low-word load. |
| Driver.PassesBounded | software/src/iob_clint.c:93-99 | The passes of a finished call are bounded by the ticks that went by. |
| Driver.ClintDriver.SetRawTimeCmp | software/src/iob_clint.c:55-78 | Arms hart 0 at the accepted reading plus the offset modulo 2^64, by the polling loads and three stores, each after its gap, and nothing else. |
| Driver.ReadsAndStores | software/src/iob_clint.c:55-101 | Polling reads and one update store nothing but the update's three words. |
| Driver.ArmingIsQuiet | software/src/iob_clint.c:55-78 | If the others leave `mtime` and hart 0's compare register alone, so does the call itself. |
| Driver.ClintDriver.ArmedPin | software/src/iob_clint.c:55-78 | The device's pin after an undisturbed arming, in clock cycles. |
| ExampleFirmware.Firmware.Boot | software/example_firmware.c:22-43 | The given base, then a timestamp, then the first deadline 100 ticks ahead, by those reads and stores alone; no state from entry to the last store has traps on, and the state after it has; they never are on without a handler installed. |
| ExampleFirmware.Firmware.IrqEntry | software/example_firmware.c:58-72 | With the interrupt bit set and cause 7 it re-arms 100000 ticks from its reading, then takes a timestamp, by those reads and stores alone; any other cause, exceptions numbered 7 among them, leaves the device and the timestamp alone. |
| ExampleFirmware.TrapExtendsHistory | software/example_firmware.c:58-72 | The accesses of `irq_entry` on a trap are one more handler run of the firmware's history. |
| ExampleFirmware.Firmware.TakeTrap | software/example_firmware.c:58-72 | A trap runs that handler; traps are off in every state the handler adds but the last, where they are as before. |
| ExampleFirmware.Firmware.WaitThenTrap | software/example_firmware.c:46-72 | The given cycles pass, none of them the hart's own; the handler runs if and only if the pin is high after the last of them. |
| ExampleFirmware.UndisturbedIsOnSchedule | software/example_firmware.c:19-72 | If nobody else writes `mtime` or hart 0's compare register and `mtime` does not wrap, the handler runs are periodic, none is early, and a wait ends in one if and only if 100 ticks have passed since the first reading, or 100000 since the last handler's. |
| ExampleFirmware.FirmwareByTheClock | software/example_firmware.c:32-72 | In clock cycles, for any FREQ that ticks: the line is high once FREQ cycles (one second) have passed since the last handler's reading, or FREQ/1000 since the first one, and low until 99999 or 99 timer periods have. |
| ExampleFirmware.Firmware.RunFirmware | software/example_firmware.c:19-72 | The closed loop: `main`, then exactly the given waits, one after another, with a trap for exactly those that end with the pin high; its script is that of the boot, the waits and the handlers and nothing else, all at the given base; the timestamp is the latest reading; undisturbed, it is on the schedule above. |

## Left out

- The bus wrappers (AXI-Lite, Wishbone), the ready signal (always 1), the Python description, device tree text and the documentation-only register block: plumbing.
- The commented-out real-time-clock synchroniser and its unused input: dead code.
- 64-bit accesses as bus traffic: how one is split over the 32-bit bus is not in the files. The 64-bit branches appear as the atomic specification.
- CSR access and trap entry: represented by the enables, the set of states in which they were on, and the rule that a trap needs both an enabled state and the line high.
- UART output, startup code, test benches, the simulation wrapper and the PC emulation stub: input, output and build.
- Two writers racing on one hart's compare register: the driver has no lock and promises nothing there.
- Executions of the polling loop that never end because the environment disturbs every pass: they return no value. Driver.PassesBounded and TimeAccess.RetryCost bound the passes by the ticks instead.
- Hart numbers outside the configured range: the driver does not check them; the device ignores such writes.
- Reset in the middle of a run: runs start at reset and stay out of it.
