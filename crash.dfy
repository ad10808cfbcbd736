/**
 * `app/03-crash`: read the word at address 0 (the initial stack pointer,
 * i.e. the end of SRAM), dereference it as an address, then spin.  When
 * that address is outside the memory map the second read is a bus error
 * and control passes for good to the fault handler.
 */
module Crash {
  import opened Vectors
  import opened Bus

  /** The two reads of `main`, in order; the second address is the first word read. */
  function Crashed(s: State): (r: State)
    ensures r.regs == s.regs
    ensures r.mode == Running <==> s.mode == Running && 0 in s.regs && s.regs[0] as int as Address in s.regs
  {
    var first := Load(s, 0);
    Load(first.state, first.value as int as Address).state
  }

  /** `main`: `let sram_boundary = *(0 as *const u32); let _crash = *(sram_boundary as *const u32);` then `loop {}`. */
  method Entry(m: Machine)
    requires m.Valid()
    modifies m
    ensures m.Snapshot() == Crashed(old(m.Snapshot()))
  {
    var sramBoundary := m.ReadWord(0);
    var _ := m.ReadWord(sramBoundary as int as Address);
  }

  /**
   * With address 0 mapped, `main` reads 0 first and then the word it found
   * there, writes nothing, and ends trapped exactly when that second
   * address is unmapped; otherwise it spins in `loop {}` still running.
   */
  lemma CrashTrace(s: State)
    requires s.mode == Running && 0 in s.regs
    ensures var t := Crashed(s);
      var target := s.regs[0] as int as Address;
      && t.regs == s.regs
      && t.log == s.log + [Read(0), Read(target)]
      && (t.mode == Trapped <==> target !in s.regs)
  {
  }

  /** Whatever memory holds, `main` never writes and never changes a register. */
  lemma CrashNeverWrites(s: State)
    ensures Crashed(s).regs == s.regs
    ensures |Crashed(s).log| <= |s.log| + 2 && Crashed(s).log[..|s.log|] == s.log
    ensures forall i :: |s.log| <= i < |Crashed(s).log| ==> Crashed(s).log[i].Read?
  {
  }

  /** `exception::EXCEPTIONS` of this program. */
  const Exceptions: seq<Option<Handler>> := [
    Some(FaultHandler), // NMI
    Some(FaultHandler), // HardFault
    Some(FaultHandler), // MemManage
    Some(FaultHandler), // BusFault
    Some(FaultHandler), // UsageFault
    None, None, None, None, // reserved
    Some(FaultHandler), // SVCall
    None, // reserved for debug
    None, // reserved
    Some(FaultHandler), // PendSV
    Some(FaultHandler)  // SysTick
  ]

  /** The table has 14 entries, empty exactly at slots 5..8, 10 and 11, the handler everywhere else. */
  lemma ExceptionsLayout()
    ensures WellFormed(Exceptions)
    ensures forall i :: 0 <= i < |Exceptions| ==> (Exceptions[i].None? <==> i in {5, 6, 7, 8, 10, 11})
  {
  }

  /** The bus error of the second read reaches the handler through a bound slot of this table. */
  lemma FaultIsBound()
    ensures Vector(Exceptions, HardFault) == Some(FaultHandler)
    ensures Vector(Exceptions, BusFault) == Some(FaultHandler)
  {
    ExceptionsLayout();
    WellFormedBinds(Exceptions, HardFault);
    WellFormedBinds(Exceptions, BusFault);
  }

  /**
   * Power-on reset with this program's vector table, then `main`: when the
   * word at address 0 names an address outside the memory map, the program
   * issues exactly the two reads and ends in the fault handler.
   */
  method Boot(memory: map<Address, bv32>) returns (trace: seq<Event>, mode: Mode)
    ensures 0 in memory ==> trace == [Read(0), Read(memory[0] as int as Address)]
    ensures 0 in memory ==> (mode == Trapped <==> memory[0] as int as Address !in memory)
    ensures 0 !in memory ==> trace == [Read(0)] && mode == Trapped
  {
    ExceptionsLayout();
    var m := new Machine(memory, Exceptions);
    Entry(m);
    trace, mode := m.log, m.mode;
  }
}
