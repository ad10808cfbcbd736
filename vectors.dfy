/**
 * The 14-entry exception vector table that all three programs place after
 * the reset vector.  Slot i holds the handler for ARMv7-M exception number
 * i + 2 (section B1.5.2 of the ARMv7-M Architecture Reference Manual).
 */
module Vectors {

  datatype Option<T> = None | Some(value: T)

  /** The only handler the programs bind: `bkpt`, then spin forever. */
  datatype Handler = FaultHandler

  /** The system exceptions that have a slot in the table. */
  datatype Exception =
    | Nmi | HardFault | MemManage | BusFault | UsageFault
    | SvCall | DebugMonitor | PendSv | SysTick

  const TableLength: nat := 14

  /** Slots 5..8 and 11 are reserved by the architecture; slot 10 (debug monitor) is left empty here. */
  predicate Reserved(i: nat) {
    (5 <= i <= 8) || i == 10 || i == 11
  }

  /** ARMv7-M exception number. */
  function Number(e: Exception): nat {
    match e
    case Nmi => 2
    case HardFault => 3
    case MemManage => 4
    case BusFault => 5
    case UsageFault => 6
    case SvCall => 11
    case DebugMonitor => 12
    case PendSv => 14
    case SysTick => 15
  }

  /** Table slot of an exception; only the debug monitor lands on a slot left empty. */
  function Slot(e: Exception): (i: nat)
    ensures i < TableLength && i + 2 == Number(e)
    ensures Reserved(i) <==> e == DebugMonitor
  {
    Number(e) - 2
  }

  /** The exception whose vector lives in slot i, if the architecture defines one. */
  function ExceptionAt(i: nat): (r: Option<Exception>)
    ensures r.Some? ==> Slot(r.value) == i
    ensures i < TableLength && !Reserved(i) ==> r.Some?
  {
    match i
    case 0 => Some(Nmi)
    case 1 => Some(HardFault)
    case 2 => Some(MemManage)
    case 3 => Some(BusFault)
    case 4 => Some(UsageFault)
    case 9 => Some(SvCall)
    case 10 => Some(DebugMonitor)
    case 12 => Some(PendSv)
    case 13 => Some(SysTick)
    case _ => None
  }

  /** Slot and ExceptionAt are inverse: every exception is found back at its own slot. */
  lemma SlotRoundTrip(e: Exception)
    ensures ExceptionAt(Slot(e)) == Some(e)
  {
  }

  /** The layout every program's table follows: reserved slots empty, every other slot bound to the handler. */
  predicate WellFormed(table: seq<Option<Handler>>) {
    |table| == TableLength &&
    forall i :: 0 <= i < |table| ==> table[i] == if Reserved(i) then None else Some(FaultHandler)
  }

  /** The entry the hardware fetches when exception e is taken. */
  function Vector(table: seq<Option<Handler>>, e: Exception): Option<Handler>
    requires |table| == TableLength
  {
    table[Slot(e)]
  }

  /** In a well-formed table every exception except the debug monitor reaches the fault handler. */
  lemma WellFormedBinds(table: seq<Option<Handler>>, e: Exception)
    requires WellFormed(table)
    ensures Vector(table, e) == Some(FaultHandler) <==> e != DebugMonitor
    ensures Vector(table, e) == None <==> e == DebugMonitor
  {
  }
}
