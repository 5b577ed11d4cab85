/** The six critical sections of the aarch64 backend, one instruction a line. */
module Aarch64 {
  import opened Ops
  import opened Isa
  import opened Operands

  function CompareExchangeBlock(kind: Kind): Program {
    Program([
      Jump(2),
      Signature,
      Adrp(Tmp),                        // 17: abort
      AddLo12(Tmp),
      StoreCs(Tmp, Rseq)
    ] + [
      LoadIndex(Got, Rseq, kind),       // 12: start
      CmpW(Got, Id),
      BranchNe(16)
    ] + [
      Load(Current, WordPtr),
      Cmp(Current, Expected),
      BranchNe(14),
      Store(Update, WordPtr)
    ] + [
      MovImm(Status, 0),                // 16: post-commit
      Jump(18),
      MovImm(Status, 1),                // 18: miss
      Jump(18),
      MovImm(Current, 0),               // 19: index mismatch
      MovImm(Status, 2)
    ], 5, 12, 2, Status, Current)
  }

  function FetchAddBlock(kind: Kind): Program {
    Program([
      Jump(2),
      Signature,
      Adrp(Tmp),                        // 27: abort
      AddLo12(Tmp),
      StoreCs(Tmp, Rseq)
    ] + [
      LoadIndex(Got, Rseq, kind),       // 22: start
      CmpW(Got, Id),
      BranchNe(13)
    ] + [
      Load(Prev, WordPtr),
      Add(Sum, Prev, Count),
      Store(Sum, WordPtr)
    ] + [
      MovImm(Status, 0),                // 26: post-commit
      Jump(15),
      MovImm(Prev, 0),                  // 29: index mismatch
      MovImm(Status, 2)
    ], 5, 11, 2, Status, Prev)
  }

  function StoreIfBlock(kind: Kind): Program {
    Program([
      Jump(2),
      Signature,
      Adrp(Tmp),                        // 37: abort
      AddLo12(Tmp),
      StoreCs(Tmp, Rseq)
    ] + [
      LoadIndex(Got, Rseq, kind),       // 32: start
      CmpW(Got, Id),
      BranchNe(17)
    ] + [
      Load(Current, WordPtr),
      Cmp(Current, Expected),
      BranchNe(15),
      Store(SideUpdate, SidePtr),
      Store(Update, WordPtr)
    ] + [
      MovImm(Status, 0),                // 36: post-commit
      Jump(19),
      MovImm(Status, 1),                // 38: miss
      Jump(19),
      MovImm(Current, 0),               // 39: index mismatch
      MovImm(Status, 2)
    ], 5, 13, 2, Status, Current)
  }

  function CompareExchangeIfBlock(kind: Kind): Program {
    Program([
      Jump(2),
      Signature,
      Adrp(Tmp),                        // 57: abort
      AddLo12(Tmp),
      StoreCs(Tmp, Rseq)
    ] + [
      LoadIndex(Got, Rseq, kind),       // 52: start
      CmpW(Got, Id),
      BranchNe(20)
    ] + [
      Load(Current, WordPtr),
      Cmp(Current, Expected),
      BranchNe(18),
      Load(OtherVal, OtherPtr),
      Cmp(OtherVal, OtherExpected),
      BranchNe(17),
      Store(Update, WordPtr)
    ] + [
      MovImm(Status, 0),                // 56: post-commit
      Jump(22),
      Mov(Current, OtherVal),           // 53: second miss
      MovImm(Status, 1),                // 54: first miss
      Jump(22),
      MovImm(Current, 0),               // 55: index mismatch
      MovImm(Status, 2)
    ], 5, 15, 2, Status, Current)
  }

  function LoadIfNeBlock(kind: Kind): Program {
    Program([
      Jump(2),
      Signature,
      Adrp(Tmp),                        // 47: abort
      AddLo12(Tmp),
      StoreCs(Tmp, Rseq)
    ] + [
      LoadIndex(Got, Rseq, kind),       // 42: start
      CmpW(Got, Id),
      BranchNe(18)
    ] + [
      Load(Current, WordPtr),
      Cmp(Current, Avoided),
      BranchEq(16),
      Add(Chase, Current, Offset),
      Load(Chase, Chase),
      Store(Chase, WordPtr)
    ] + [
      MovImm(Status, 0),                // 46: post-commit
      Jump(20),
      MovImm(Status, 1),                // 44: miss
      Jump(20),
      MovImm(Current, 0),               // 45: index mismatch
      MovImm(Status, 2)
    ], 5, 14, 2, Status, Current)
  }

  function FetchAddAtBlock(kind: Kind): Program {
    Program([
      Jump(2),
      Signature,
      Adrp(Tmp),                        // 67: abort
      AddLo12(Tmp),
      StoreCs(Tmp, Rseq)
    ] + [
      LoadIndex(Got, Rseq, kind),       // 62: start
      CmpW(Got, Id),
      BranchNe(16)
    ] + [
      Load(Base, WordPtr),
      Add(Base, Base, Offset),
      Load(Slot, Base),
      Load(Prev, Slot),
      Add(Sum, Prev, Count),
      Store(Sum, Slot)
    ] + [
      MovImm(Status, 0),                // 66: post-commit
      Jump(18),
      MovImm(Prev, 0),                  // 65: index mismatch
      MovImm(Status, 2)
    ], 5, 14, 2, Status, Prev)
  }

  function Block(opcode: Opcode, kind: Kind): Program {
    match opcode
    case OpCompareExchange => CompareExchangeBlock(kind)
    case OpFetchAdd => FetchAddBlock(kind)
    case OpStoreIf => StoreIfBlock(kind)
    case OpCompareExchangeIf => CompareExchangeIfBlock(kind)
    case OpLoadIfNe => LoadIfNeBlock(kind)
    case OpFetchAddAt => FetchAddAtBlock(kind)
  }
}
