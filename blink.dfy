/**
 * `app/05-blink`: enable the port-E clock, make PE9 a push-pull output,
 * then toggle PE9 through its set/reset register forever with a busy-wait
 * between the edges.
 */
module Blink {
  import opened Bits
  import opened Vectors
  import opened Bus

  /** RCC register block and its AHB peripheral clock enable register. */
  const Rcc: Address := 0x4002_1000
  const AhbenrOffset: Address := 0x14
  const Ahbenr: Address := Rcc + AhbenrOffset
  /** IOPEEN, the port-E clock enable bit. */
  const Iopeen: bv32 := 1 << 21

  /** GPIO port E register block: mode register and bit set/reset register. */
  const Gpioe: Address := 0x4800_1000
  const ModerOffset: Address := 0x0
  const BsrrOffset: Address := 0x18
  const Moder: Address := Gpioe + ModerOffset
  const Bsrr: Address := Gpioe + BsrrOffset
  /** MODER9, bits 19:18, and its general-purpose output encoding 0b01. */
  const Moder9: bv32 := 0x3 << 18
  const Moder9Output: bv32 := 0x1 << 18
  /** BS9 drives PE9 high, BR9 drives it low. */
  const Bs9: bv32 := 1 << 9
  const Br9: bv32 := 1 << (16 + 9)

  /** Busy-wait length `main` passes to `delay`. */
  const Ticks: bv32 := 100_000

  /** The register map the program relies on. */
  lemma RegisterMap()
    ensures Ahbenr == 0x4002_1014 && Iopeen == Mask(21)
    ensures Moder == 0x4800_1000 && Moder9 == Mask(19) | Mask(18) && Moder9Output == Mask(18)
    ensures Bsrr == 0x4800_1018 && Bs9 == Mask(9) && Br9 == Mask(25)
    ensures Disjoint(Bs9, Br9)
    ensures Moder9Output & !Moder9 == 0
  {
  }

  /**
   * `delay(n)`: `for _ in 0..n {}` runs n iterations and issues no bus
   * access; the observer sees one busy-wait of n iterations.
   */
  method Delay(m: Machine, n: bv32)
    requires m.Valid()
    modifies m
    ensures m.Snapshot() == Elapse(old(m.Snapshot()), n as nat)
  {
    var i: nat := 0;
    while i < n as nat
      invariant i <= n as nat
    {
      i := i + 1;
    }
    m.Idle(i);
  }

  /** `power_on_gpioe`: `*ahbenr |= IOPEEN`. */
  method PowerOnGpioe(m: Machine)
    requires m.Valid()
    modifies m
    ensures m.Snapshot() == OrInto(old(m.Snapshot()), Ahbenr, Iopeen)
  {
    var ahbenr := m.ReadWord(Ahbenr);
    m.WriteWord(Ahbenr, ahbenr | Iopeen);
  }

  /** `put_pe9_in_output_mode`: `*moder = (*moder & !(0b11 << 18)) | (0b01 << 18)`. */
  method PutPe9InOutputMode(m: Machine)
    requires m.Valid()
    modifies m
    ensures m.Snapshot() == Replace(old(m.Snapshot()), Moder, Moder9, Moder9Output)
  {
    var moder := m.ReadWord(Moder);
    var configured := (moder & !Moder9) | Moder9Output;
    assert configured == ReplaceField(moder, Moder9, Moder9Output);
    m.WriteWord(Moder, configured);
  }

  /** `set_pe9_high`: one blind store of BS9 to BSRR. */
  method SetPe9High(m: Machine)
    requires m.Valid()
    modifies m
    ensures m.Snapshot() == Store(old(m.Snapshot()), Bsrr, Bs9)
  {
    m.WriteWord(Bsrr, Bs9);
  }

  /** `set_pe9_low`: one blind store of BR9 to BSRR. */
  method SetPe9Low(m: Machine)
    requires m.Valid()
    modifies m
    ensures m.Snapshot() == Store(old(m.Snapshot()), Bsrr, Br9)
  {
    m.WriteWord(Bsrr, Br9);
  }

  /** Bring-up of `main`: clock enable, then mode configuration. */
  function BringUp(s: State): (r: State)
    ensures r.mode == Running <==> s.mode == Running && Ahbenr in s.regs && Moder in s.regs
    ensures r.regs.Keys == s.regs.Keys
  {
    Replace(OrInto(s, Ahbenr, Iopeen), Moder, Moder9, Moder9Output)
  }

  /** One pass of `main`'s loop: set, wait, reset, wait. */
  function Period(s: State): (r: State)
    ensures r.mode == Running <==> s.mode == Running && Bsrr in s.regs
    ensures r.regs.Keys == s.regs.Keys
  {
    Elapse(Store(Elapse(Store(s, Bsrr, Bs9), Ticks as nat), Bsrr, Br9), Ticks as nat)
  }

  /** The state after k passes of the loop. */
  function Rounds(s: State, k: nat): (r: State)
    ensures r.mode == Running <==> s.mode == Running && (k == 0 || Bsrr in s.regs)
    ensures r.regs.Keys == s.regs.Keys
  {
    if k == 0 then s else Period(Rounds(s, k - 1))
  }

  /** k copies of a trace, one after the other. */
  function Repeat(p: seq<Event>, k: nat): seq<Event> {
    if k == 0 then [] else Repeat(p, k - 1) + p
  }

  /** What each pass shows: BSRR := BS9, a busy-wait of `Ticks`, BSRR := BR9, a busy-wait of `Ticks`. */
  const PeriodTrace: seq<Event> := [Write(Bsrr, Bs9), Spin(Ticks as nat), Write(Bsrr, Br9), Spin(Ticks as nat)]

  /**
   * Each pass of the loop shows exactly four events, so k passes show 4k: a
   * corollary of RoundsTrace, stated on its own to keep the length
   * arithmetic out of the trace proofs.
   */
  lemma {:induction false} PassesLength(k: nat)
    ensures |Repeat(PeriodTrace, k)| == 4 * k
  {
    if k > 0 {
      PassesLength(k - 1);
    }
  }

  /** One pass of `main`'s loop: `set_pe9_high(); delay(ticks); set_pe9_low(); delay(ticks);`. */
  method BlinkOnce(m: Machine)
    requires m.Valid()
    modifies m
    ensures m.Snapshot() == Period(old(m.Snapshot()))
  {
    SetPe9High(m);
    Delay(m, Ticks);
    SetPe9Low(m);
    Delay(m, Ticks);
  }

  /**
   * `main`, observed for its first `rounds` passes: bring-up once, then the
   * loop body `rounds` times.  The program itself never leaves the loop.
   */
  method Entry(m: Machine, rounds: nat)
    requires m.Valid()
    modifies m
    ensures m.Snapshot() == Rounds(BringUp(old(m.Snapshot())), rounds)
  {
    PowerOnGpioe(m);
    PutPe9InOutputMode(m);
    ghost var start := m.Snapshot();
    var k := 0;
    while k < rounds
      invariant k <= rounds && m.Valid()
      invariant m.Snapshot() == Rounds(start, k)
    {
      BlinkOnce(m);
      k := k + 1;
    }
  }

  /** `power_on_gpioe` touches only AHBENR: bit 21 becomes 1, the other 31 bits and every other address are kept. */
  lemma PowerOnGpioeEffect(s: State)
    requires s.mode == Running && Ahbenr in s.regs
    ensures var t := OrInto(s, Ahbenr, Iopeen);
      && t.mode == Running
      && t.regs.Keys == s.regs.Keys
      && (forall a :: a in s.regs && a != Ahbenr ==> t.regs[a] == s.regs[a])
      && t.regs[Ahbenr] & Iopeen == Iopeen
      && t.regs[Ahbenr] & !Iopeen == s.regs[Ahbenr] & !Iopeen
      && t.log == s.log + [Read(Ahbenr), Write(Ahbenr, t.regs[Ahbenr])]
  {
    OrIntoEffect(s, Ahbenr, Iopeen);
  }

  /** `put_pe9_in_output_mode` touches only MODER: bits 19:18 become 0b01, the other bits and addresses are kept. */
  lemma PutPe9InOutputModeEffect(s: State)
    requires s.mode == Running && Moder in s.regs
    ensures var t := Replace(s, Moder, Moder9, Moder9Output);
      && t.mode == Running
      && t.regs.Keys == s.regs.Keys
      && (forall a :: a in s.regs && a != Moder ==> t.regs[a] == s.regs[a])
      && (t.regs[Moder] >> 18) & 0x3 == 0x1
      && t.regs[Moder] & !Moder9 == s.regs[Moder] & !Moder9
      && t.log == s.log + [Read(Moder), Write(Moder, t.regs[Moder])]
  {
    ReplaceEffect(s, Moder, Moder9, Moder9Output);
  }

  /** One pass on a running machine with BSRR mapped: the four events of PeriodTrace, BSRR left on BR9. */
  lemma PeriodEffect(u: State)
    requires u.mode == Running && Bsrr in u.regs
    ensures Period(u) == State(u.regs[Bsrr := Br9], u.log + PeriodTrace, Running)
  {
    var a := Store(u, Bsrr, Bs9);
    assert a == State(u.regs[Bsrr := Bs9], u.log + [Write(Bsrr, Bs9)], Running);
    var b := Elapse(a, Ticks as nat);
    var c := Store(b, Bsrr, Br9);
    assert c == State(u.regs[Bsrr := Bs9][Bsrr := Br9], b.log + [Write(Bsrr, Br9)], Running);
    assert u.regs[Bsrr := Bs9][Bsrr := Br9] == u.regs[Bsrr := Br9];
    assert Elapse(c, Ticks as nat).log == u.log + PeriodTrace;
  }

  /**
   * Each pass of the loop is exactly: BSRR := BS9, a busy-wait of `Ticks`,
   * BSRR := BR9, a busy-wait of `Ticks`; BSRR ends on the reset word.
   */
  lemma {:induction false} RoundsTrace(s: State, k: nat)
    requires s.mode == Running && Bsrr in s.regs
    ensures var t := Rounds(s, k);
      && t.mode == Running
      && t.regs == (if k == 0 then s.regs else s.regs[Bsrr := Br9])
      && t.log == s.log + Repeat(PeriodTrace, k)
  {
    if k == 1 {
      PeriodEffect(s);
    } else if k > 1 {
      RoundsTrace(s, k - 1);
      var u := Rounds(s, k - 1);
      assert u == State(s.regs[Bsrr := Br9], s.log + Repeat(PeriodTrace, k - 1), Running);
      PeriodEffect(u);
      assert u.regs[Bsrr := Br9] == s.regs[Bsrr := Br9];
      assert u.log + PeriodTrace == s.log + Repeat(PeriodTrace, k);
    }
  }

  /**
   * From power-on with the three registers mapped, `main` issues the
   * clock-enable read-modify-write, then the mode read-modify-write, once
   * each, and after that only the loop's passes.
   */
  lemma MainTrace(s: State, k: nat)
    requires s.mode == Running && Ahbenr in s.regs && Moder in s.regs && Bsrr in s.regs
    ensures var t := Rounds(BringUp(s), k);
      && t.mode == Running
      && t.log == s.log
           + [Read(Ahbenr), Write(Ahbenr, SetBits(s.regs[Ahbenr], Iopeen)),
              Read(Moder), Write(Moder, ReplaceField(s.regs[Moder], Moder9, Moder9Output))]
           + Repeat(PeriodTrace, k)
  {
    var v := OrInto(s, Ahbenr, Iopeen);
    OrIntoEffect(s, Ahbenr, Iopeen);
    ReplaceEffect(v, Moder, Moder9, Moder9Output);
    RoundsTrace(BringUp(s), k);
  }

  /** A second `power_on_gpioe` changes no register. */
  lemma PowerOnGpioeIdempotent(s: State)
    ensures var t := OrInto(s, Ahbenr, Iopeen);
      OrInto(t, Ahbenr, Iopeen).regs == t.regs && OrInto(t, Ahbenr, Iopeen).mode == t.mode
  {
    OrIntoIdempotent(s, Ahbenr, Iopeen);
  }

  /** A second `put_pe9_in_output_mode` changes no register. */
  lemma PutPe9InOutputModeIdempotent(s: State)
    ensures var t := Replace(s, Moder, Moder9, Moder9Output);
      Replace(t, Moder, Moder9, Moder9Output).regs == t.regs && Replace(t, Moder, Moder9, Moder9Output).mode == t.mode
  {
    ReplaceIdempotent(s, Moder, Moder9, Moder9Output);
  }

  /** Bring-up run twice leaves the registers and mode exactly as running it once. */
  lemma BringUpIdempotent(s: State)
    ensures BringUp(BringUp(s)).regs == BringUp(s).regs
    ensures BringUp(BringUp(s)).mode == BringUp(s).mode
  {
    var u := BringUp(s);
    if s.mode == Running && Ahbenr in s.regs && Moder in s.regs {
      var v := OrInto(s, Ahbenr, Iopeen);
      OrIntoEffect(s, Ahbenr, Iopeen);
      ReplaceEffect(v, Moder, Moder9, Moder9Output);
      var v2 := OrInto(u, Ahbenr, Iopeen);
      OrIntoEffect(u, Ahbenr, Iopeen);
      ReplaceEffect(v2, Moder, Moder9, Moder9Output);
      SetBitsIdempotent(s.regs[Ahbenr], Iopeen);
      ReplaceFieldIdempotent(s.regs[Moder], Moder9, Moder9Output);
    } else if s.mode == Running && Ahbenr in s.regs {
      OrIntoEffect(s, Ahbenr, Iopeen);
      UnmappedFaults(OrInto(s, Ahbenr, Iopeen), Moder, 0, Moder9, Moder9Output);
      TrappedAbsorbs(u, Ahbenr, Moder9Output, Iopeen);
      TrappedAbsorbs(u, Moder, Moder9Output, Moder9);
    } else {
      assert u.mode == Trapped;
      TrappedAbsorbs(u, Ahbenr, Moder9Output, Iopeen);
      TrappedAbsorbs(u, Moder, Moder9Output, Moder9);
    }
  }

  /** `exception::EXCEPTIONS` of this program. */
  const Exceptions: seq<Option<Handler>> := [
    Some(FaultHandler), // NMI
    Some(FaultHandler), // HardFault
    Some(FaultHandler), // MemManage
    Some(FaultHandler), // BusFault
    Some(FaultHandler), // UsageFault
    None, None, None, None, // reserved
    Some(FaultHandler), // SVCall
    None, // reserved for debug
    None, // reserved
    Some(FaultHandler), // PendSV
    Some(FaultHandler)  // SysTick
  ]

  /** The table has 14 entries, empty exactly at slots 5..8, 10 and 11, the handler everywhere else. */
  lemma ExceptionsLayout()
    ensures WellFormed(Exceptions)
    ensures forall i :: 0 <= i < |Exceptions| ==> (Exceptions[i].None? <==> i in {5, 6, 7, 8, 10, 11})
  {
  }

  /** All three registers mapped: bring-up, then the passes, still running. */
  lemma BootMapped(memory: map<Address, bv32>, rounds: nat)
    requires Ahbenr in memory && Moder in memory && Bsrr in memory
    ensures var t := Rounds(BringUp(PowerOn(memory)), rounds);
      && t.mode == Running
      && t.log == [Read(Ahbenr), Write(Ahbenr, SetBits(memory[Ahbenr], Iopeen)),
                   Read(Moder), Write(Moder, ReplaceField(memory[Moder], Moder9, Moder9Output))]
                  + Repeat(PeriodTrace, rounds)
  {
    MainTrace(PowerOn(memory), rounds);
  }

  /** AHBENR unmapped: the first read faults and nothing follows. */
  lemma BootAhbenrUnmapped(memory: map<Address, bv32>, rounds: nat)
    requires Ahbenr !in memory
    ensures var t := Rounds(BringUp(PowerOn(memory)), rounds);
      t.mode == Trapped && t.log == [Read(Ahbenr)]
  {
    var s := PowerOn(memory);
    UnmappedFaults(s, Ahbenr, Iopeen, Moder9, Moder9Output);
    TrappedAbsorbs(OrInto(s, Ahbenr, Iopeen), Moder, Moder9Output, Moder9);
    TrappedStays(BringUp(s), rounds);
  }

  /** MODER unmapped: the clock update, then the read of MODER faults and nothing follows. */
  lemma BootModerUnmapped(memory: map<Address, bv32>, rounds: nat)
    requires Ahbenr in memory && Moder !in memory
    ensures var t := Rounds(BringUp(PowerOn(memory)), rounds);
      && t.mode == Trapped
      && t.log == [Read(Ahbenr), Write(Ahbenr, SetBits(memory[Ahbenr], Iopeen)), Read(Moder)]
  {
    var s := PowerOn(memory);
    UnmappedFaults(OrInto(s, Ahbenr, Iopeen), Moder, 0, Moder9, Moder9Output);
    TrappedStays(BringUp(s), rounds);
  }

  /** BSRR unmapped: bring-up, then the first store of a pass faults and nothing follows. */
  lemma BootBsrrUnmapped(memory: map<Address, bv32>, rounds: nat)
    requires Ahbenr in memory && Moder in memory && Bsrr !in memory
    ensures var t := Rounds(BringUp(PowerOn(memory)), rounds);
      && (t.mode == Trapped <==> rounds > 0)
      && t.log == [Read(Ahbenr), Write(Ahbenr, SetBits(memory[Ahbenr], Iopeen)),
                   Read(Moder), Write(Moder, ReplaceField(memory[Moder], Moder9, Moder9Output))]
                  + (if rounds == 0 then [] else [Write(Bsrr, Bs9)])
  {
    var s := PowerOn(memory);
    var u := OrInto(s, Ahbenr, Iopeen);
    assert u.log == [Read(Ahbenr), Write(Ahbenr, SetBits(memory[Ahbenr], Iopeen))];
    UnmappedBsrrTraps(BringUp(s), rounds);
  }

  /**
   * Power-on reset with this program's vector table, then `main` observed
   * for `rounds` passes: the bus trace it issues and the control state.
   */
  method Boot(memory: map<Address, bv32>, rounds: nat) returns (trace: seq<Event>, mode: Mode)
    ensures Ahbenr in memory && Moder in memory && Bsrr in memory ==>
      && mode == Running
      && trace == [Read(Ahbenr), Write(Ahbenr, SetBits(memory[Ahbenr], Iopeen)),
                   Read(Moder), Write(Moder, ReplaceField(memory[Moder], Moder9, Moder9Output))]
                  + Repeat(PeriodTrace, rounds)
    ensures Ahbenr !in memory ==> mode == Trapped && trace == [Read(Ahbenr)]
    ensures Ahbenr in memory && Moder !in memory ==>
      && mode == Trapped
      && trace == [Read(Ahbenr), Write(Ahbenr, SetBits(memory[Ahbenr], Iopeen)), Read(Moder)]
    ensures Ahbenr in memory && Moder in memory && Bsrr !in memory ==>
      && (mode == Trapped <==> rounds > 0)
      && trace == [Read(Ahbenr), Write(Ahbenr, SetBits(memory[Ahbenr], Iopeen)),
                   Read(Moder), Write(Moder, ReplaceField(memory[Moder], Moder9, Moder9Output))]
                  + (if rounds == 0 then [] else [Write(Bsrr, Bs9)])
  {
    ExceptionsLayout();
    var m := new Machine(memory, Exceptions);
    Entry(m, rounds);
    if Ahbenr !in memory {
      BootAhbenrUnmapped(memory, rounds);
    } else if Moder !in memory {
      BootModerUnmapped(memory, rounds);
    } else if Bsrr !in memory {
      BootBsrrUnmapped(memory, rounds);
    } else {
      BootMapped(memory, rounds);
    }
    trace, mode := m.log, m.mode;
  }

  /** Once trapped, further passes of the loop issue nothing. */
  lemma {:induction false} TrappedStays(s: State, k: nat)
    requires s.mode == Trapped
    ensures Rounds(s, k) == s
  {
    if k > 0 {
      TrappedStays(s, k - 1);
      TrappedAbsorbs(s, Bsrr, Bs9, 0);
      TrappedAbsorbs(s, Bsrr, Br9, 0);
    }
  }

  /** With BSRR unmapped, the first pass faults at its first store and nothing follows. */
  lemma {:induction false} UnmappedBsrrTraps(s: State, k: nat)
    requires s.mode == Running && Bsrr !in s.regs
    ensures Rounds(s, k).mode == (if k == 0 then Running else Trapped)
    ensures Rounds(s, k).regs == s.regs
    ensures Rounds(s, k).log == s.log + (if k == 0 then [] else [Write(Bsrr, Bs9)])
  {
    if k > 1 {
      UnmappedBsrrTraps(s, k - 1);
      TrappedAbsorbs(Rounds(s, k - 1), Bsrr, Bs9, 0);
      TrappedAbsorbs(Rounds(s, k - 1), Bsrr, Br9, 0);
    }
  }
}
