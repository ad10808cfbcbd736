# Bare-metal Cortex-M examples: register access, reset entry and vector table

This project models the three bare-metal example programs of the
repository that contain behaviour, and proves what each of them does to
the memory-mapped registers of the microcontroller:

- `app/05-blink`: enables the GPIO port E clock (AHBENR bit 21), makes PE9
  an output (MODER bits 19:18 := 0b01), then forever writes BS9 to BSRR,
  busy-waits 100 000 iterations, writes BR9, busy-waits again.
- `app/04-led`: enables the GPIO port C clock (APB2ENR bit 4), sets the
  PC8 configuration nibble of CRH to 0b0010, writes BS8 then BR8 to BSRR,
  and spins.
- `app/03-crash`: reads the word at address 0 (the initial stack pointer),
  reads again at the address it found there, and spins; when that second
  address lies outside the memory map the read is a bus error and control
  goes through the exception vector table to the fault handler.

All three install the same 14-entry exception vector table (slot i is
ARMv7-M exception number i + 2, section B1.5.2 of the ARMv7-M Architecture
Reference Manual): NMI, HardFault, MemManage, BusFault, UsageFault,
four reserved slots, SVCall, the debug-monitor slot (left empty), one
reserved slot, PendSV and SysTick. Every bound slot holds the same
handler, which executes `bkpt` and spins forever.

Structure:

- `bits.dfy` (module `Bits`): the two word operations the programs use,
  `w | mask` and `(w & !field) | value`, with contracts saying which bits
  change and which do not.
- `vectors.dfy` (module `Vectors`): the exceptions, their slots, and the
  table layout every program follows.
- `bus.dfy` (module `Bus`): the processor state. `State` holds a partial
  map from 32-bit addresses to 32-bit words, the ordered log of bus
  events (`Read(addr)`, `Write(addr, value)`, and `Spin(count)` for a
  busy-wait of `count` iterations with no bus access) and the control mode
  (`Running` or `Trapped`). Pure functions `Load`, `Store`, `OrInto`
  (read-OR-write), `Replace` (read-clear-OR-write), `Elapse` (busy-wait)
  and `Trap` specify them. Class `Machine` holds the same state as fields that its
  methods update in place, plus the vector table; every program method
  takes a `Machine` and is proved equal to the pure specification.
- `blink.dfy`, `led.dfy`, `crash.dfy` (modules `Blink`, `Led`, `Crash`):
  one method per source function, the program's vector table as a
  constant, and lemmas about the resulting traces.

Modelling choices:

- Every `*ptr` dereference is one read or one write, logged in the order
  issued. A compound assignment `*p |= m` is a read followed by a write.
- The map of registers behaves as plain storage: a write stores the word.
  Nothing is claimed about what the hardware does with it.
- An access to an address outside the map is logged, and then the
  processor takes HardFault. The configurable faults are disabled after
  reset and no program enables them, so a bus error escalates to HardFault.
  The handler found in that slot moves the state to `Trapped`. Once
  `Trapped`, no access happens: control never comes back from the handler.
- The infinite loops are not run literally. `Blink.Entry` (the program's `main`) takes a number of
  passes to observe. `Led.Start` and `Crash.Entry` stop where the final
  `loop {}` begins, since that loop issues no access.
- `delay(n)` runs its empty loop n times and then logs one `Spin(n)`
  event: where the busy-waits fall in the trace, and how long each is,
  are part of what the lemmas state.

## Model

| member | source | states |
|---|---|---|
| Bits.Mask | app/04-led/src/main.rs:24 | `1 << k` is a word with exactly one set bit, bit k |
| Bits.SetBits | app/05-blink/src/main.rs:39 | `w \| mask` has every mask bit set and every other bit equal to w's |
| Bits.ReplaceField | app/05-blink/src/main.rs:58 | `(w & !field) \| value` carries the value in the field and w's bits everywhere else |
| Bits.SetBitsIdempotent | app/04-led/src/main.rs:31 | OR-ing the same mask twice gives the same word as once |
| Bits.ReplaceFieldIdempotent | app/04-led/src/main.rs:50 | writing the same field value twice gives the same word as once |
| Vectors.Slot | app/05-blink/src/main.rs:92-105 | slot = exception number - 2, below 14; only the debug monitor lands on an empty slot |
| Vectors.ExceptionAt | app/04-led/src/main.rs:89-102 | the exception named by each slot; every non-reserved slot names one, and it maps back to that slot |
| Vectors.SlotRoundTrip | app/03-crash/src/main.rs:26-39 | every exception is found back at its own slot |
| Vectors.WellFormedBinds | app/03-crash/src/main.rs:26-39 | in the shared layout every exception except the debug monitor reaches the handler, and the debug monitor reaches an empty slot |
| Bus.Load | app/03-crash/src/main.rs:9 | `*p` for a read: one `Read` logged, registers unchanged, the mapped word returned; it traps exactly when the address is unmapped, and nothing is logged once trapped |
| Bus.Store | app/05-blink/src/main.rs:68 | `*p = v`: one `Write` logged and no read; it traps exactly when the address is unmapped, and then no register changes |
| Bus.OrInto | app/05-blink/src/main.rs:39 | `*p \|= mask`: on a mapped address a read then a write of the OR-ed word, only that address changing; otherwise a trap with registers unchanged |
| Bus.Replace | app/05-blink/src/main.rs:58 | `*p = (*p & !f) \| v`: on a mapped address a read then a write of the replaced word; otherwise a trap with registers unchanged |
| Bus.Elapse | app/05-blink/src/main.rs:20-22 | a busy-wait adds one `Spin(count)` event while running, nothing once trapped, and leaves registers and mode as they were |
| Bus.Trap | app/05-blink/src/main.rs:83-89 | the handler takes control for good: mode Trapped, registers and log untouched |
| Bus.TrappedAbsorbs | app/05-blink/src/main.rs:83-89 | once the handler has taken control, no read, write, read-modify-write or busy-wait changes registers, log or mode |
| Bus.OrIntoEffect | app/05-blink/src/main.rs:39 | `*p \|= mask` on a mapped address is one read then one write of the OR-ed word; no other address changes |
| Bus.ReplaceEffect | app/05-blink/src/main.rs:58 | `*p = (*p & !f) \| v` is one read then one write of the replaced word; no other address changes |
| Bus.StoreEffect | app/05-blink/src/main.rs:68 | a blind store is exactly one write, no read, and only that address changes |
| Bus.UnmappedFaults | app/03-crash/src/main.rs:10 | an access to an unmapped address is logged, writes nothing and traps |
| Bus.OrIntoIdempotent | app/04-led/src/main.rs:31 | running `*p \|= mask` twice leaves the same registers and mode as once |
| Bus.ReplaceIdempotent | app/04-led/src/main.rs:50 | running the field update twice leaves the same registers and mode as once |
| Bus.Machine.constructor | app/04-led/src/main.rs:84-89 | power-on: the given memory, an empty log, the reset entry in control, the program's table installed |
| Bus.Machine.ReadWord | app/03-crash/src/main.rs:9 | one read, as written and as `Load` specifies, faulting through the table when unmapped |
| Bus.Machine.WriteWord | app/05-blink/src/main.rs:68 | one write, as written and as `Store` specifies, faulting through the table when unmapped |
| Bus.Machine.TakeException | app/03-crash/src/main.rs:25-39 | the entry the hardware fetches for the exception, `Vector(vectors, e)`, holds the handler, and running it leaves registers and log unchanged with mode Trapped |
| Bus.Machine.Idle | app/05-blink/src/main.rs:20-22 | a busy-wait as the observer sees it: one `Spin(count)` event, registers and mode untouched |
| Bus.Machine.Handler | app/04-led/src/main.rs:75-81 | `bkpt` then `loop {}`: control is trapped for good, registers and log untouched |
| Blink.RegisterMap | app/05-blink/src/main.rs:24-47 | AHBENR is 0x4002_1014 with IOPEEN bit 21, MODER is 0x4800_1000 with field 19:18, BSRR is 0x4800_1018; BS9 (bit 9) and BR9 (bit 25) share no bit |
| Blink.Delay | app/05-blink/src/main.rs:20-22 | `delay(n)` adds exactly one `Spin(n)` event to the trace and touches no register or mode |
| Blink.PowerOnGpioe | app/05-blink/src/main.rs:24-41 | the machine state afterwards is the read-OR-write of IOPEEN into AHBENR |
| Blink.PutPe9InOutputMode | app/05-blink/src/main.rs:49-60 | the machine state afterwards is the MODER9 field update to 0b01 |
| Blink.SetPe9High | app/05-blink/src/main.rs:62-70 | the machine state afterwards is one store of BS9 to BSRR |
| Blink.SetPe9Low | app/05-blink/src/main.rs:72-80 | the machine state afterwards is one store of BR9 to BSRR |
| Blink.BlinkOnce | app/05-blink/src/main.rs:12-17 | one pass: BSRR := BS9, a busy-wait of 100 000 iterations, BSRR := BR9, a busy-wait of 100 000 iterations, in that order |
| Blink.Entry | app/05-blink/src/main.rs:7-18 | bring-up once, then the given number of passes of the loop, each one set-wait-reset-wait |
| Blink.BringUp | app/05-blink/src/main.rs:8-9 | BringUp(s): the AHBENR read-OR-write of IOPEEN, then the MODER field update; still running exactly when both registers are mapped, and no address is added or removed |
| Blink.Period | app/05-blink/src/main.rs:13-16 | Period(s): store BS9, elapse `Ticks`, store BR9, elapse `Ticks`, in source order; still running exactly when BSRR is mapped, and no address is added or removed |
| Blink.Rounds | app/05-blink/src/main.rs:12-17 | Rounds(s, k): k passes of Period; still running exactly when no pass runs or BSRR is mapped, and no address is added or removed |
| Blink.PowerOnGpioeEffect | app/05-blink/src/main.rs:26-39 | only AHBENR changes; bit 21 is 1 and the other 31 bits keep their prior values, for any prior value |
| Blink.PutPe9InOutputModeEffect | app/05-blink/src/main.rs:51-58 | only MODER changes; bits 19:18 are 0b01 and all other bits keep their prior values |
| Blink.PowerOnGpioeIdempotent | app/05-blink/src/main.rs:39 | a second `power_on_gpioe` changes no register |
| Blink.PutPe9InOutputModeIdempotent | app/05-blink/src/main.rs:58 | a second `put_pe9_in_output_mode` changes no register |
| Blink.BringUpIdempotent | app/05-blink/src/main.rs:8-9 | clock enable plus mode configuration run twice leave the same registers and mode as once |
| Blink.PassesLength | app/05-blink/src/main.rs:12-17 | each pass of the loop shows exactly four events, so k passes show 4k |
| Blink.PeriodEffect | app/05-blink/src/main.rs:12-17 | one pass on a running machine with BSRR mapped is exactly set, spin, reset, spin, and leaves BSRR holding BR9, still running |
| Blink.RoundsTrace | app/05-blink/src/main.rs:12-17 | k passes issue exactly k copies of [BSRR := BS9, spin 100 000, BSRR := BR9, spin 100 000]; BSRR ends on BR9 |
| Blink.MainTrace | app/05-blink/src/main.rs:7-17 | `main` issues the AHBENR read-modify-write, then the MODER one, once each, then only the loop's passes, each with its two stores and two busy-waits |
| Blink.TrappedStays | app/05-blink/src/main.rs:12-17 | passes of the loop after a trap issue nothing |
| Blink.UnmappedBsrrTraps | app/05-blink/src/main.rs:12-17 | with BSRR unmapped, the first pass faults at its first store; nothing follows and no register changes |
| Blink.ExceptionsLayout | app/05-blink/src/main.rs:91-105 | the `EXCEPTIONS` static, `Blink.Exceptions`: 14 entries, empty exactly at 5..8, 10, 11, the handler elsewhere |
| Blink.BootMapped | app/05-blink/src/main.rs:7-17 | from power-on with the three registers mapped: the exact trace of bring-up and the passes, still running |
| Blink.BootAhbenrUnmapped | app/05-blink/src/main.rs:8 | from power-on with AHBENR unmapped: the first read faults, nothing follows |
| Blink.BootModerUnmapped | app/05-blink/src/main.rs:8-9 | from power-on with MODER unmapped: the clock update, then the MODER read faults, nothing follows |
| Blink.BootBsrrUnmapped | app/05-blink/src/main.rs:8-13 | from power-on with BSRR unmapped: bring-up, then the first store of a pass faults; trapped exactly when a pass runs |
| Blink.Boot | app/05-blink/src/main.rs:6-18 | from power-on with the three registers mapped: the exact bus trace of bring-up and the passes, still running; with AHBENR unmapped: one read, trapped; with MODER unmapped: the clock update then one read, trapped; with BSRR unmapped: bring-up, then trapped at the first store exactly when a pass runs |
| Led.RegisterMap | app/04-led/src/main.rs:16-43 | APB2ENR is 0x4002_1018 with IOPCEN bit 4, CRH is 0x4001_1004, BSRR is 0x4001_1010; BS8 (bit 8) and BR8 (bit 24) share no bit |
| Led.TurnOnGpioc | app/04-led/src/main.rs:16-33 | the machine state afterwards is the read-OR-write of IOPCEN into APB2ENR |
| Led.PutPc8InOutputMode | app/04-led/src/main.rs:41-52 | the machine state afterwards is the CRH nibble update `(crh & !0b1111) \| 0b0010` |
| Led.SetPc8High | app/04-led/src/main.rs:54-62 | the machine state afterwards is one store of BS8 to BSRR |
| Led.SetPc8Low | app/04-led/src/main.rs:64-72 | the machine state afterwards is one store of BR8 to BSRR |
| Led.Start | app/04-led/src/main.rs:6-14 | the four calls in order, then nothing |
| Led.Started | app/04-led/src/main.rs:8-11 | Started(s): the APB2ENR read-OR-write, the CRH field update, the BS8 store, the BR8 store, in source order; still running exactly when all three registers are mapped, and no address is added or removed |
| Led.TurnOnGpiocEffect | app/04-led/src/main.rs:18-31 | only APB2ENR changes; bit 4 is 1 and the other bits keep their prior values |
| Led.TurnOnGpiocIdempotent | app/04-led/src/main.rs:31 | a second `turn_on_gpioc` changes no register |
| Led.PutPc8InOutputModeEffect | app/04-led/src/main.rs:43-50 | only CRH changes; bits 3:0 are 0b0010 and bits 31:4 keep their prior values |
| Led.PutPc8InOutputModeIdempotent | app/04-led/src/main.rs:50 | a second `put_pc8_in_output_mode` changes no register |
| Led.StartTrace | app/04-led/src/main.rs:7-13 | `start` issues exactly: APB2ENR read and write, CRH read and write, BSRR := BS8, BSRR := BR8, and is still running |
| Led.ExceptionsLayout | app/04-led/src/main.rs:88-102 | the `EXCEPTIONS` static, `Led.Exceptions`: 14 entries, empty exactly at 5..8, 10, 11, the handler elsewhere |
| Led.BootMapped | app/04-led/src/main.rs:7-13 | from power-on with the three registers mapped: the exact six-access trace of `start`, still running |
| Led.BootApb2enrUnmapped | app/04-led/src/main.rs:8 | from power-on with APB2ENR unmapped: the first read faults, nothing follows |
| Led.BootCrhUnmapped | app/04-led/src/main.rs:8-9 | from power-on with CRH unmapped: the clock update, then the CRH read faults, nothing follows |
| Led.BootBsrrUnmapped | app/04-led/src/main.rs:8-10 | from power-on with BSRR unmapped: the clock and mode updates, then the BS8 store faults, nothing follows |
| Led.Boot | app/04-led/src/main.rs:84-86 | the `RESET` static, `Led.Reset`, leads to `start`: from power-on the exact trace of `start`; with APB2ENR unmapped one read, trapped; with CRH unmapped the clock update then one read, trapped; with BSRR unmapped the trace ends at the BS8 store, trapped |
| Crash.Entry | app/03-crash/src/main.rs:6-14 | the machine state afterwards is the two dependent reads |
| Crash.Crashed | app/03-crash/src/main.rs:9-10 | Crashed(s): load address 0, then load the address found there; no register changes, and still running exactly when both addresses are mapped |
| Crash.CrashTrace | app/03-crash/src/main.rs:9-10 | it reads 0, then the address read there; no register changes; trapped exactly when that address is unmapped |
| Crash.CrashNeverWrites | app/03-crash/src/main.rs:8-13 | whatever memory holds, at most two accesses are added, all reads |
| Crash.ExceptionsLayout | app/03-crash/src/main.rs:25-39 | the `EXCEPTIONS` static, `Crash.Exceptions`: 14 entries, empty exactly at 5..8, 10, 11, the handler elsewhere |
| Crash.FaultIsBound | app/03-crash/src/main.rs:27-29 | the HardFault and BusFault slots of this table hold the handler |
| Crash.Boot | app/03-crash/src/main.rs:6-13 | from power-on: the trace is the two reads, and the program ends in the handler exactly when the second address is unmapped |

## Left out

- Volatile and compiler semantics: each dereference is taken as one access
  in program order; nothing is claimed about reordering or elision.
- What the hardware does with the writes (BSRR driving the pins, clock
  gating, BSRR reading as 0): the register map stores words as plain
  memory, and no pin-level view is modelled.
- `asm!("bkpt")`: modelled only as the move to the `Trapped` state.
- Linker placement (`#[link_section]`, `#[export_name]`, `#[no_mangle]`):
  names and sections, not behaviour. The reset slot is modelled only as
  the jump into `start`.
- The `panic_fmt` and `eh_personality` lang items: empty bodies.
- `src/first/main.rs` and `app/01-qemu/src/main.rs`: dead local
  assignments and a spin, no observable behaviour.
- Wall-clock timing of `delay`: only its iteration count is modelled.
- Imprecise bus faults: on a Cortex-M3/M4 a store to a missing address in
  the Device region is usually buffered and raises an imprecise BusFault
  some instructions later. The model traps at the faulting store itself,
  so in the BSRR-unmapped cases of `Blink.Boot` and `Led.Boot` nothing
  after that store is issued, where hardware may issue a few more.
- Overlapping and unaligned words: the register map holds one independent
  word per address, so words at addresses less than four apart do not
  share bytes, and an unaligned address is an ordinary key. The second
  address in `Crash` can be either; a real unaligned load may fault or
  be split into byte accesses.
- Exception entry's vector fetch as a bus read and the stacking of eight
  words onto the main stack: the model goes straight from the faulting
  access to the handler, and neither adds an event to the trace nor
  changes a register.
- Asynchronous preemption: `Machine.TakeException` can be called at any
  point, but interleavings inside a read-modify-write are not explored.
- Literal non-termination: the loops are observed for a finite number of
  passes, or up to the final `loop {}`.
- Bus.Machine.TakeException: an exception whose slot is empty (the debug
  monitor) is not modelled; the caller must name a bound exception.
- Exceptions taken while a handler already spins leave the state
  `Trapped`; nested handlers are not distinguished.
