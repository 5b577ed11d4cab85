/** The named operands of the assembly blocks. */
module Operands {
  import opened Bits
  import opened Ops
  import opened Isa

  const Rseq: Reg := 0
  const WordPtr: Reg := 1
  const Id: Reg := 2
  const Expected: Reg := 3
  const Update: Reg := 4
  const SidePtr: Reg := 5
  const SideUpdate: Reg := 6
  const OtherPtr: Reg := 7
  const OtherExpected: Reg := 8
  const Avoided: Reg := 9
  const Offset: Reg := 10
  const Count: Reg := 11
  const Got: Reg := 12
  const Tmp: Reg := 13
  const Current: Reg := 14
  const Prev: Reg := 15
  const OtherVal: Reg := 16
  const Chase: Reg := 17
  const Sum: Reg := 18
  const Base: Reg := 19
  const Slot: Reg := 20
  const Status: Reg := 21

  /** The `in(reg)` operands. */
  predicate IsInput(r: Reg) {
    r <= Count
  }

  /** The operands a call is entered with; the upper half of `Id` is left open. */
  predicate Loaded(call: Call, area: usize, regs: map<Reg, usize>) {
    && Get(regs, Rseq) == area
    && Get(regs, WordPtr) == call.op.word
    && Low32(Get(regs, Id)) == call.key.id
    && match call.op
       case CompareExchange(_, expected, update) =>
         Get(regs, Expected) == expected && Get(regs, Update) == update
       case FetchAdd(_, count) =>
         Get(regs, Count) == count
       case StoreIf(_, expected, update, side, sideUpdate) =>
         && Get(regs, Expected) == expected && Get(regs, Update) == update
         && Get(regs, SidePtr) == side && Get(regs, SideUpdate) == sideUpdate
       case CompareExchangeIf(_, expected, update, other, otherExpected) =>
         && Get(regs, Expected) == expected && Get(regs, Update) == update
         && Get(regs, OtherPtr) == other && Get(regs, OtherExpected) == otherExpected
       case LoadIfNe(_, avoided, offset) =>
         Get(regs, Avoided) == avoided && Get(regs, Offset) == offset
       case FetchAddAt(_, offset, count) =>
         Get(regs, Offset) == offset && Get(regs, Count) == count
  }

  /** Which of the six blocks an operation runs. */
  datatype Opcode = OpCompareExchange | OpFetchAdd | OpStoreIf | OpCompareExchangeIf | OpLoadIfNe | OpFetchAddAt

  function OpcodeOf(op: Op): Opcode {
    match op
    case CompareExchange(_, _, _) => OpCompareExchange
    case FetchAdd(_, _) => OpFetchAdd
    case StoreIf(_, _, _, _, _) => OpStoreIf
    case CompareExchangeIf(_, _, _, _, _) => OpCompareExchangeIf
    case LoadIfNe(_, _, _) => OpLoadIfNe
    case FetchAddAt(_, _, _) => OpFetchAddAt
  }
}
