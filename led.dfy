/**
 * `app/04-led`: enable the port-C clock, make PC8 a 2 MHz push-pull output,
 * drive PC8 high then low through its set/reset register, then spin.
 */
module Led {
  import opened Bits
  import opened Vectors
  import opened Bus

  /** RCC register block and its APB2 peripheral clock enable register. */
  const Rcc: Address := 0x4002_1000
  const Apb2enrOffset: Address := 0x18
  const Apb2enr: Address := Rcc + Apb2enrOffset
  /** IOPCEN, the port-C clock enable bit. */
  const Iopcen: bv32 := 1 << 4

  /** GPIO port C register block: configuration register high and bit set/reset register. */
  const Gpioc: Address := 0x4001_1000
  const CrhOffset: Address := 0x4
  const BsrrOffset: Address := 0x10
  const Crh: Address := Gpioc + CrhOffset
  const Bsrr: Address := Gpioc + BsrrOffset
  /** CNF8:MODE8, bits 3:0, and the value 0b0010 (CNF8 = 0b00, MODE8 = 0b10). */
  const Pin8Config: bv32 := 0xF
  const Pin8Output: bv32 := 0x2
  /** BS8 drives PC8 high, BR8 drives it low. */
  const Bs8: bv32 := 1 << 8
  const Br8: bv32 := 1 << (16 + 8)

  /** The register map the program relies on. */
  lemma RegisterMap()
    ensures Apb2enr == 0x4002_1018 && Iopcen == Mask(4)
    ensures Crh == 0x4001_1004 && Pin8Output & !Pin8Config == 0
    ensures Bsrr == 0x4001_1010 && Bs8 == Mask(8) && Br8 == Mask(24)
    ensures Disjoint(Bs8, Br8)
  {
  }

  /** `turn_on_gpioc`: `*apb2enr |= IOPCEN`. */
  method TurnOnGpioc(m: Machine)
    requires m.Valid()
    modifies m
    ensures m.Snapshot() == OrInto(old(m.Snapshot()), Apb2enr, Iopcen)
  {
    var apb2enr := m.ReadWord(Apb2enr);
    m.WriteWord(Apb2enr, apb2enr | Iopcen);
  }

  /** `put_pc8_in_output_mode`: `*crh = *crh & !0b1111 | 0b0010`, which Rust groups as `(*crh & !0b1111) | 0b0010`. */
  method PutPc8InOutputMode(m: Machine)
    requires m.Valid()
    modifies m
    ensures m.Snapshot() == Replace(old(m.Snapshot()), Crh, Pin8Config, Pin8Output)
  {
    var crh := m.ReadWord(Crh);
    var configured := (crh & !Pin8Config) | Pin8Output;
    assert configured == ReplaceField(crh, Pin8Config, Pin8Output);
    m.WriteWord(Crh, configured);
  }

  /** `set_pc8_high`: one blind store of BS8 to BSRR. */
  method SetPc8High(m: Machine)
    requires m.Valid()
    modifies m
    ensures m.Snapshot() == Store(old(m.Snapshot()), Bsrr, Bs8)
  {
    m.WriteWord(Bsrr, Bs8);
  }

  /** `set_pc8_low`: one blind store of BR8 to BSRR. */
  method SetPc8Low(m: Machine)
    requires m.Valid()
    modifies m
    ensures m.Snapshot() == Store(old(m.Snapshot()), Bsrr, Br8)
  {
    m.WriteWord(Bsrr, Br8);
  }

  /** Everything `start` does before its final `loop {}`. */
  function Started(s: State): (r: State)
    ensures r.mode == Running <==> s.mode == Running && Apb2enr in s.regs && Crh in s.regs && Bsrr in s.regs
    ensures r.regs.Keys == s.regs.Keys
  {
    Store(Store(Replace(OrInto(s, Apb2enr, Iopcen), Crh, Pin8Config, Pin8Output), Bsrr, Bs8), Bsrr, Br8)
  }

  /** `start`: the four calls in order, then a spin that issues nothing. */
  method Start(m: Machine)
    requires m.Valid()
    modifies m
    ensures m.Snapshot() == Started(old(m.Snapshot()))
  {
    TurnOnGpioc(m);
    PutPc8InOutputMode(m);
    SetPc8High(m);
    SetPc8Low(m);
  }

  /** `turn_on_gpioc` touches only APB2ENR: bit 4 becomes 1, the other bits and addresses are kept. */
  lemma TurnOnGpiocEffect(s: State)
    requires s.mode == Running && Apb2enr in s.regs
    ensures var t := OrInto(s, Apb2enr, Iopcen);
      && t.mode == Running
      && t.regs.Keys == s.regs.Keys
      && (forall a :: a in s.regs && a != Apb2enr ==> t.regs[a] == s.regs[a])
      && t.regs[Apb2enr] & Iopcen == Iopcen
      && t.regs[Apb2enr] & !Iopcen == s.regs[Apb2enr] & !Iopcen
      && t.log == s.log + [Read(Apb2enr), Write(Apb2enr, t.regs[Apb2enr])]
  {
    OrIntoEffect(s, Apb2enr, Iopcen);
  }

  /** A second `turn_on_gpioc` changes no register. */
  lemma TurnOnGpiocIdempotent(s: State)
    ensures var t := OrInto(s, Apb2enr, Iopcen);
      OrInto(t, Apb2enr, Iopcen).regs == t.regs && OrInto(t, Apb2enr, Iopcen).mode == t.mode
  {
    OrIntoIdempotent(s, Apb2enr, Iopcen);
  }

  /** `put_pc8_in_output_mode` touches only CRH: bits 3:0 become 0b0010, bits 31:4 and every other address are kept. */
  lemma PutPc8InOutputModeEffect(s: State)
    requires s.mode == Running && Crh in s.regs
    ensures var t := Replace(s, Crh, Pin8Config, Pin8Output);
      && t.mode == Running
      && t.regs.Keys == s.regs.Keys
      && (forall a :: a in s.regs && a != Crh ==> t.regs[a] == s.regs[a])
      && t.regs[Crh] & 0xF == 0x2
      && t.regs[Crh] >> 4 == s.regs[Crh] >> 4
      && t.log == s.log + [Read(Crh), Write(Crh, t.regs[Crh])]
  {
    ReplaceEffect(s, Crh, Pin8Config, Pin8Output);
  }

  /** A second `put_pc8_in_output_mode` changes no register. */
  lemma PutPc8InOutputModeIdempotent(s: State)
    ensures var t := Replace(s, Crh, Pin8Config, Pin8Output);
      Replace(t, Crh, Pin8Config, Pin8Output).regs == t.regs && Replace(t, Crh, Pin8Config, Pin8Output).mode == t.mode
  {
    ReplaceIdempotent(s, Crh, Pin8Config, Pin8Output);
  }

  /**
   * From power-on with the three registers mapped, `start` issues exactly:
   * the APB2ENR read-modify-write, the CRH read-modify-write, BSRR := BS8,
   * BSRR := BR8; it is still running (spinning) afterwards.
   */
  lemma StartTrace(s: State)
    requires s.mode == Running && Apb2enr in s.regs && Crh in s.regs && Bsrr in s.regs
    ensures var t := Started(s);
      && t.mode == Running
      && t.regs == s.regs[Apb2enr := SetBits(s.regs[Apb2enr], Iopcen)]
                         [Crh := ReplaceField(s.regs[Crh], Pin8Config, Pin8Output)]
                         [Bsrr := Br8]
      && t.log == s.log + [Read(Apb2enr), Write(Apb2enr, SetBits(s.regs[Apb2enr], Iopcen)),
                           Read(Crh), Write(Crh, ReplaceField(s.regs[Crh], Pin8Config, Pin8Output)),
                           Write(Bsrr, Bs8), Write(Bsrr, Br8)]
  {
    var u := OrInto(s, Apb2enr, Iopcen);
    OrIntoEffect(s, Apb2enr, Iopcen);
    var v := Replace(u, Crh, Pin8Config, Pin8Output);
    ReplaceEffect(u, Crh, Pin8Config, Pin8Output);
    StoreEffect(v, Bsrr, Bs8);
    StoreEffect(Store(v, Bsrr, Bs8), Bsrr, Br8);
  }

  /** `vector_table::EXCEPTIONS` of this program. */
  const Exceptions: seq<Option<Handler>> := [
    Some(FaultHandler), // NMI
    Some(FaultHandler), // HardFault
    Some(FaultHandler), // MemManage
    Some(FaultHandler), // BusFault
    Some(FaultHandler), // UsageFault
    None, None, None, None, // reserved
    Some(FaultHandler), // SVCall
    None, // reserved for debug
    None, // reserved
    Some(FaultHandler), // PendSV
    Some(FaultHandler)  // SysTick
  ]

  /** The table has 14 entries, empty exactly at slots 5..8, 10 and 11, the handler everywhere else. */
  lemma ExceptionsLayout()
    ensures WellFormed(Exceptions)
    ensures forall i :: 0 <= i < |Exceptions| ==> (Exceptions[i].None? <==> i in {5, 6, 7, 8, 10, 11})
  {
  }

  /** What `vector_table::RESET` can point at: this program has a single entry function. */
  datatype EntryPoint = StartEntry

  /** `vector_table::RESET`: the reset slot holds `start`. */
  const Reset: EntryPoint := StartEntry

  /** All three registers mapped: the exact trace of `start`, still running. */
  lemma BootMapped(memory: map<Address, bv32>)
    requires Apb2enr in memory && Crh in memory && Bsrr in memory
    ensures var t := Started(PowerOn(memory));
      && t.mode == Running
      && t.log == [Read(Apb2enr), Write(Apb2enr, SetBits(memory[Apb2enr], Iopcen)),
                   Read(Crh), Write(Crh, ReplaceField(memory[Crh], Pin8Config, Pin8Output)),
                   Write(Bsrr, Bs8), Write(Bsrr, Br8)]
  {
    StartTrace(PowerOn(memory));
  }

  /** APB2ENR unmapped: the first read faults and nothing follows. */
  lemma BootApb2enrUnmapped(memory: map<Address, bv32>)
    requires Apb2enr !in memory
    ensures var t := Started(PowerOn(memory));
      t.mode == Trapped && t.log == [Read(Apb2enr)]
  {
    var s := PowerOn(memory);
    var u := OrInto(s, Apb2enr, Iopcen);
    UnmappedFaults(s, Apb2enr, Iopcen, Pin8Config, Pin8Output);
    TrappedAbsorbs(u, Crh, Pin8Output, Pin8Config);
    TrappedAbsorbs(u, Bsrr, Bs8, 0);
    TrappedAbsorbs(u, Bsrr, Br8, 0);
  }

  /** CRH unmapped: the clock update, then the read of CRH faults and nothing follows. */
  lemma BootCrhUnmapped(memory: map<Address, bv32>)
    requires Apb2enr in memory && Crh !in memory
    ensures var t := Started(PowerOn(memory));
      && t.mode == Trapped
      && t.log == [Read(Apb2enr), Write(Apb2enr, SetBits(memory[Apb2enr], Iopcen)), Read(Crh)]
  {
    var u := OrInto(PowerOn(memory), Apb2enr, Iopcen);
    var v := Replace(u, Crh, Pin8Config, Pin8Output);
    UnmappedFaults(u, Crh, 0, Pin8Config, Pin8Output);
    TrappedAbsorbs(v, Bsrr, Bs8, 0);
    TrappedAbsorbs(v, Bsrr, Br8, 0);
  }

  /** BSRR unmapped: the clock and mode updates, then the BS8 store faults and nothing follows. */
  lemma BootBsrrUnmapped(memory: map<Address, bv32>)
    requires Apb2enr in memory && Crh in memory && Bsrr !in memory
    ensures var t := Started(PowerOn(memory));
      && t.mode == Trapped
      && t.log == [Read(Apb2enr), Write(Apb2enr, SetBits(memory[Apb2enr], Iopcen)),
                   Read(Crh), Write(Crh, ReplaceField(memory[Crh], Pin8Config, Pin8Output)),
                   Write(Bsrr, Bs8)]
  {
    var v := Replace(OrInto(PowerOn(memory), Apb2enr, Iopcen), Crh, Pin8Config, Pin8Output);
    UnmappedFaults(v, Bsrr, 0, 0, Bs8);
    TrappedAbsorbs(Store(v, Bsrr, Bs8), Bsrr, Br8, 0);
  }

  /**
   * Power-on reset with this program's vector table: the hardware jumps
   * through the reset slot into `start`.  Returns the bus trace and the
   * control state once `start` has reached its final spin.
   */
  method Boot(memory: map<Address, bv32>) returns (trace: seq<Event>, mode: Mode)
    ensures Apb2enr in memory && Crh in memory && Bsrr in memory ==>
      && mode == Running
      && trace == [Read(Apb2enr), Write(Apb2enr, SetBits(memory[Apb2enr], Iopcen)),
                   Read(Crh), Write(Crh, ReplaceField(memory[Crh], Pin8Config, Pin8Output)),
                   Write(Bsrr, Bs8), Write(Bsrr, Br8)]
    ensures Apb2enr !in memory ==> mode == Trapped && trace == [Read(Apb2enr)]
    ensures Apb2enr in memory && Crh !in memory ==>
      && mode == Trapped
      && trace == [Read(Apb2enr), Write(Apb2enr, SetBits(memory[Apb2enr], Iopcen)), Read(Crh)]
    ensures Apb2enr in memory && Crh in memory && Bsrr !in memory ==>
      && mode == Trapped
      && trace == [Read(Apb2enr), Write(Apb2enr, SetBits(memory[Apb2enr], Iopcen)),
                   Read(Crh), Write(Crh, ReplaceField(memory[Crh], Pin8Config, Pin8Output)),
                   Write(Bsrr, Bs8)]
  {
    ExceptionsLayout();
    var m := new Machine(memory, Exceptions);
    match Reset {
      case StartEntry => Start(m);
    }
    if Apb2enr !in memory {
      BootApb2enrUnmapped(memory);
    } else if Crh !in memory {
      BootCrhUnmapped(memory);
    } else if Bsrr !in memory {
      BootBsrrUnmapped(memory);
    } else {
      BootMapped(memory);
    }
    trace, mode := m.log, m.mode;
  }
}
