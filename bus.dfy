/**
 * Memory-mapped register access.  The programs reach their peripherals
 * through plain pointer dereferences of fixed addresses: each dereference
 * is one read or one write of a 32-bit word, as written.  The address space is a partial
 * map; an access to an address outside it is a bus error, which the
 * processor turns into an exception and hands to the vector table.
 *
 * `State` is the value-level view used by the specification functions;
 * `Machine` is the same state as an object whose fields the programs update
 * in place.
 */
module Bus {
  import opened Bits
  import opened Vectors

  /** A 32-bit bus address (`u32` in the programs). */
  newtype Address = x: int | 0 <= x < 0x1_0000_0000

  /**
   * What an observer of the program sees, in order: a bus read, a bus
   * write, or a busy-wait of `count` loop iterations with no bus access.
   */
  datatype Event = Read(addr: Address) | Write(addr: Address, value: bv32) | Spin(count: nat)

  /** Program control: the reset entry owns it until a handler takes it for good. */
  datatype Mode = Running | Trapped

  datatype State = State(regs: map<Address, bv32>, log: seq<Event>, mode: Mode)

  /** The state right after power-on: the given memory, nothing issued, the reset entry running. */
  function PowerOn(memory: map<Address, bv32>): State {
    State(memory, [], Running)
  }

  /** The state after a read and the word it returned (0 when the read faulted: control never uses it). */
  datatype Loaded = Loaded(state: State, value: bv32)

  /** `*p` for a read. Once trapped, control never reaches the access. */
  function Load(s: State, addr: Address): (r: Loaded)
    ensures r.state.regs == s.regs
    ensures r.state.log == if s.mode == Trapped then s.log else s.log + [Read(addr)]
    ensures r.state.mode == Running <==> s.mode == Running && addr in s.regs
    ensures r.state.mode == Running ==> r.value == s.regs[addr]
  {
    if s.mode == Trapped then Loaded(s, 0)
    else if addr in s.regs then Loaded(s.(log := s.log + [Read(addr)]), s.regs[addr])
    else Loaded(s.(log := s.log + [Read(addr)], mode := Trapped), 0)
  }

  /** `*p = value`: a blind store, no read; a faulting store changes no register. */
  function Store(s: State, addr: Address, value: bv32): (r: State)
    ensures r.log == if s.mode == Trapped then s.log else s.log + [Write(addr, value)]
    ensures r.mode == Running <==> s.mode == Running && addr in s.regs
    ensures r.regs == if r.mode == Trapped then s.regs else s.regs[addr := value]
  {
    if s.mode == Trapped then s
    else if addr in s.regs then s.(regs := s.regs[addr := value], log := s.log + [Write(addr, value)])
    else s.(log := s.log + [Write(addr, value)], mode := Trapped)
  }

  /**
   * `*p |= mask`: a full read, the OR, a full write.  It faults exactly
   * when the address is unmapped, and then only the read is issued.
   */
  function OrInto(s: State, addr: Address, mask: bv32): (r: State)
    ensures r.mode == Running <==> s.mode == Running && addr in s.regs
    ensures r.mode == Running ==>
      && r.regs == s.regs[addr := SetBits(s.regs[addr], mask)]
      && r.log == s.log + [Read(addr), Write(addr, SetBits(s.regs[addr], mask))]
    ensures r.mode == Trapped ==> r.regs == s.regs
  {
    var l := Load(s, addr);
    Store(l.state, addr, SetBits(l.value, mask))
  }

  /**
   * `*p = (*p & !field) | value`: a full read, clear the field, OR in the
   * value, a full write.  It faults exactly when the address is unmapped,
   * and then only the read is issued.
   */
  function Replace(s: State, addr: Address, field: bv32, value: bv32): (r: State)
    requires value & !field == 0
    ensures r.mode == Running <==> s.mode == Running && addr in s.regs
    ensures r.mode == Running ==>
      && r.regs == s.regs[addr := ReplaceField(s.regs[addr], field, value)]
      && r.log == s.log + [Read(addr), Write(addr, ReplaceField(s.regs[addr], field, value))]
    ensures r.mode == Trapped ==> r.regs == s.regs
  {
    var l := Load(s, addr);
    Store(l.state, addr, ReplaceField(l.value, field, value))
  }

  /** A busy-wait of `count` iterations: no bus access, only time passes. */
  function Elapse(s: State, count: nat): (r: State)
    ensures r.regs == s.regs && r.mode == s.mode
    ensures r.log == if s.mode == Trapped then s.log else s.log + [Spin(count)]
  {
    if s.mode == Trapped then s else s.(log := s.log + [Spin(count)])
  }

  /** The fault handler runs: `bkpt`, then it spins; registers and log stay as they are. */
  function Trap(s: State): (r: State)
    ensures r.mode == Trapped && r.regs == s.regs && r.log == s.log
  {
    s.(mode := Trapped)
  }

  /** Nothing any access does can leave the trapped state or touch the registers or the log. */
  lemma TrappedAbsorbs(s: State, addr: Address, value: bv32, field: bv32)
    requires s.mode == Trapped
    ensures Load(s, addr).state == s
    ensures Store(s, addr, value) == s
    ensures OrInto(s, addr, field) == s
    ensures value & !field == 0 ==> Replace(s, addr, field, value) == s
    ensures Elapse(s, value as nat) == s
    ensures Trap(s) == s
  {
  }

  /**
   * Read-modify-write on a mapped register, as one equation: the running
   * case of OrInto's contract restated with the mapped address as a
   * precondition, the form the program proofs call.
   */
  lemma OrIntoEffect(s: State, addr: Address, mask: bv32)
    requires s.mode == Running && addr in s.regs
    ensures var t := OrInto(s, addr, mask);
      && t.mode == Running
      && t.regs == s.regs[addr := SetBits(s.regs[addr], mask)]
      && t.log == s.log + [Read(addr), Write(addr, t.regs[addr])]
  {
    var w := SetBits(s.regs[addr], mask);
    var l := Load(s, addr);
    assert l == Loaded(s.(log := s.log + [Read(addr)]), s.regs[addr]);
    assert OrInto(s, addr, mask) == State(s.regs[addr := w], s.log + [Read(addr), Write(addr, w)], Running);
  }

  /** Field replacement on a mapped register: the running case of Replace's contract, restated under a precondition. */
  lemma ReplaceEffect(s: State, addr: Address, field: bv32, value: bv32)
    requires value & !field == 0
    requires s.mode == Running && addr in s.regs
    ensures var t := Replace(s, addr, field, value);
      && t.mode == Running
      && t.regs == s.regs[addr := ReplaceField(s.regs[addr], field, value)]
      && t.log == s.log + [Read(addr), Write(addr, t.regs[addr])]
  {
    var w := ReplaceField(s.regs[addr], field, value);
    var l := Load(s, addr);
    assert l == Loaded(s.(log := s.log + [Read(addr)]), s.regs[addr]);
    assert Replace(s, addr, field, value) == State(s.regs[addr := w], s.log + [Read(addr), Write(addr, w)], Running);
  }

  /** A store to a mapped register is one write and nothing else: the running case of Store's contract, restated under a precondition. */
  lemma StoreEffect(s: State, addr: Address, value: bv32)
    requires s.mode == Running && addr in s.regs
    ensures var t := Store(s, addr, value);
      && t.mode == Running
      && t.regs == s.regs[addr := value]
      && t.log == s.log + [Write(addr, value)]
  {
  }

  /** A read-modify-write of an unmapped address faults at the read: it is logged, nothing is written. */
  lemma UnmappedFaults(s: State, addr: Address, mask: bv32, field: bv32, value: bv32)
    requires s.mode == Running && addr !in s.regs
    ensures OrInto(s, addr, mask) == State(s.regs, s.log + [Read(addr)], Trapped)
    ensures value & !field == 0 ==> Replace(s, addr, field, value) == State(s.regs, s.log + [Read(addr)], Trapped)
    ensures Store(s, addr, value) == State(s.regs, s.log + [Write(addr, value)], Trapped)
  {
  }

  /** Running a read-modify-write twice leaves the same registers and mode as running it once. */
  lemma OrIntoIdempotent(s: State, addr: Address, mask: bv32)
    ensures OrInto(OrInto(s, addr, mask), addr, mask).regs == OrInto(s, addr, mask).regs
    ensures OrInto(OrInto(s, addr, mask), addr, mask).mode == OrInto(s, addr, mask).mode
  {
    var t := OrInto(s, addr, mask);
    if s.mode == Running && addr in s.regs {
      OrIntoEffect(s, addr, mask);
      OrIntoEffect(t, addr, mask);
      SetBitsIdempotent(s.regs[addr], mask);
      assert t.regs[addr] == SetBits(s.regs[addr], mask);
    } else {
      TrappedAbsorbs(t, addr, 0, mask);
    }
  }

  /** Writing the same field value twice leaves the same registers and mode as writing it once. */
  lemma ReplaceIdempotent(s: State, addr: Address, field: bv32, value: bv32)
    requires value & !field == 0
    ensures Replace(Replace(s, addr, field, value), addr, field, value).regs == Replace(s, addr, field, value).regs
    ensures Replace(Replace(s, addr, field, value), addr, field, value).mode == Replace(s, addr, field, value).mode
  {
    var t := Replace(s, addr, field, value);
    if s.mode == Running && addr in s.regs {
      ReplaceEffect(s, addr, field, value);
      ReplaceEffect(t, addr, field, value);
      ReplaceFieldIdempotent(s.regs[addr], field, value);
      assert t.regs[addr] == ReplaceField(s.regs[addr], field, value);
    } else {
      TrappedAbsorbs(t, addr, value, field);
    }
  }

  /**
   * The processor with its memory and its vector table.  `regs` and `log`
   * change only through ReadWord, WriteWord and Idle; `mode` only through
   * the exception entry.
   */
  class Machine {
    var regs: map<Address, bv32>
    var log: seq<Event>
    var mode: Mode
    const vectors: seq<Option<Handler>>

    ghost predicate Valid() {
      WellFormed(vectors)
    }

    function Snapshot(): State
      reads this
    {
      State(regs, log, mode)
    }

    /** Power-on: memory as given, nothing issued yet, the reset entry in control. */
    constructor (memory: map<Address, bv32>, table: seq<Option<Handler>>)
      requires WellFormed(table)
      ensures Valid() && vectors == table
      ensures Snapshot() == State(memory, [], Running)
    {
      regs := memory;
      log := [];
      mode := Running;
      vectors := table;
    }

    /** One read, as written; an unmapped address raises the fault that ends in the handler. */
    method ReadWord(addr: Address) returns (value: bv32)
      requires Valid()
      modifies this
      ensures Loaded(Snapshot(), value) == Load(old(Snapshot()), addr)
    {
      value := 0;
      if mode == Running {
        log := log + [Read(addr)];
        if addr in regs {
          value := regs[addr];
        } else {
          TakeException(HardFault);
        }
      }
    }

    /** One write, as written; an unmapped address raises the fault that ends in the handler. */
    method WriteWord(addr: Address, value: bv32)
      requires Valid()
      modifies this
      ensures Snapshot() == Store(old(Snapshot()), addr, value)
    {
      if mode == Running {
        log := log + [Write(addr, value)];
        if addr in regs {
          regs := regs[addr := value];
        } else {
          TakeException(HardFault);
        }
      }
    }

    /**
     * Exception entry: the hardware fetches slot Slot(e) of the table and
     * runs the handler bound there.  Bus errors arrive as HardFault, since
     * the configurable faults stay disabled after reset.
     */
    method TakeException(e: Exception)
      requires Valid() && e != DebugMonitor
      modifies this
      ensures Vector(vectors, e) == Some(FaultHandler)
      ensures Snapshot() == Trap(old(Snapshot()))
    {
      WellFormedBinds(vectors, e);
      match Vector(vectors, e)
      case Some(FaultHandler) => Handler();
    }

    /** The busy-wait of `delay` as an observer sees it: `count` iterations, no bus access. */
    method Idle(count: nat)
      modifies this`log
      ensures Snapshot() == Elapse(old(Snapshot()), count)
    {
      if mode == Running {
        log := log + [Spin(count)];
      }
    }

    /** `exception::handler`: `bkpt`, then `loop {}`. Control never comes back. */
    method Handler()
      modifies this`mode
      ensures Snapshot() == Trap(old(Snapshot()))
    {
      mode := Trapped;
    }
  }
}
