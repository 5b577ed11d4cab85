/** The six critical sections of the x86_64 backend, one instruction a line. */
module X86 {
  import opened Ops
  import opened Isa
  import opened Operands

  function CompareExchangeBlock(kind: Kind): Program {
    Program([
      Jump(2),
      Signature,
      Lea(Tmp),                         // 17: abort
      StoreCs(Tmp, Rseq)
    ] + [
      LoadIndex(Got, Rseq, kind),       // 12: start
      CmpW(Got, Id),
      BranchNe(15)
    ] + [
      Load(Current, WordPtr),
      Cmp(Current, Expected),
      BranchNe(13),
      Store(Update, WordPtr)
    ] + [
      MovImm(Status, 0),                // 16: post-commit
      Jump(17),
      MovImm(Status, 1),                // 18: miss
      Jump(17),
      MovImm(Current, 0),               // 19: index mismatch
      MovImm(Status, 2)
    ], 4, 11, 2, Status, Current)
  }

  function FetchAddBlock(kind: Kind): Program {
    Program([
      Jump(2),
      Signature,
      Lea(Tmp),                         // 27: abort
      StoreCs(Tmp, Rseq)
    ] + [
      LoadIndex(Got, Rseq, kind),       // 22: start
      CmpW(Got, Id),
      BranchNe(11)
    ] + [
      Mov(Prev, Count),
      Xadd(WordPtr, Prev)
    ] + [
      MovImm(Status, 0),                // 26: post-commit
      Jump(13),
      MovImm(Prev, 0),                  // 29: index mismatch
      MovImm(Status, 2)
    ], 4, 9, 2, Status, Prev)
  }

  function StoreIfBlock(kind: Kind): Program {
    Program([
      Jump(2),
      Signature,
      Lea(Tmp),                         // 37: abort
      StoreCs(Tmp, Rseq)
    ] + [
      LoadIndex(Got, Rseq, kind),       // 32: start
      CmpW(Got, Id),
      BranchNe(16)
    ] + [
      Load(Current, WordPtr),
      Cmp(Current, Expected),
      BranchNe(14),
      Store(SideUpdate, SidePtr),
      Store(Update, WordPtr)
    ] + [
      MovImm(Status, 0),                // 36: post-commit
      Jump(18),
      MovImm(Status, 1),                // 38: miss
      Jump(18),
      MovImm(Current, 0),               // 39: index mismatch
      MovImm(Status, 2)
    ], 4, 12, 2, Status, Current)
  }

  function CompareExchangeIfBlock(kind: Kind): Program {
    Program([
      Jump(2),
      Signature,
      Lea(Tmp),                         // 57: abort
      StoreCs(Tmp, Rseq)
    ] + [
      LoadIndex(Got, Rseq, kind),       // 52: start
      CmpW(Got, Id),
      BranchNe(19)
    ] + [
      Load(Current, WordPtr),
      Cmp(Current, Expected),
      BranchNe(17),
      Load(OtherVal, OtherPtr),
      Cmp(OtherVal, OtherExpected),
      BranchNe(16),
      Store(Update, WordPtr)
    ] + [
      MovImm(Status, 0),                // 56: post-commit
      Jump(21),
      Mov(Current, OtherVal),           // 53: second miss
      MovImm(Status, 1),                // 54: first miss
      Jump(21),
      MovImm(Current, 0),               // 55: index mismatch
      MovImm(Status, 2)
    ], 4, 14, 2, Status, Current)
  }

  function LoadIfNeBlock(kind: Kind): Program {
    Program([
      Jump(2),
      Signature,
      Lea(Tmp),                         // 47: abort
      StoreCs(Tmp, Rseq)
    ] + [
      LoadIndex(Got, Rseq, kind),       // 42: start
      CmpW(Got, Id),
      BranchNe(18)
    ] + [
      Load(Current, WordPtr),
      Cmp(Current, Avoided),
      BranchEq(16),
      Mov(Chase, Current),
      Add(Chase, Chase, Offset),
      Load(Chase, Chase),
      Store(Chase, WordPtr)
    ] + [
      MovImm(Status, 0),                // 46: post-commit
      Jump(20),
      MovImm(Status, 1),                // 44: miss
      Jump(20),
      MovImm(Current, 0),               // 45: index mismatch
      MovImm(Status, 2)
    ], 4, 14, 2, Status, Current)
  }

  function FetchAddAtBlock(kind: Kind): Program {
    Program([
      Jump(2),
      Signature,
      Lea(Tmp),                         // 67: abort
      StoreCs(Tmp, Rseq)
    ] + [
      LoadIndex(Got, Rseq, kind),       // 62: start
      CmpW(Got, Id),
      BranchNe(14)
    ] + [
      Load(Base, WordPtr),
      Add(Base, Base, Offset),
      Load(Slot, Base),
      Mov(Prev, Count),
      Xadd(Slot, Prev)
    ] + [
      MovImm(Status, 0),                // 66: post-commit
      Jump(16),
      MovImm(Prev, 0),                  // 65: index mismatch
      MovImm(Status, 2)
    ], 4, 12, 2, Status, Prev)
  }

  function Block(opcode: Opcode, kind: Kind): Program {
    match opcode
    case OpCompareExchange => CompareExchangeBlock(kind)
    case OpFetchAdd => FetchAddBlock(kind)
    case OpStoreIf => StoreIfBlock(kind)
    case OpCompareExchangeIf => CompareExchangeIfBlock(kind)
    case OpLoadIfNe => LoadIfNeBlock(kind)
    case OpFetchAddAt => FetchAddAtBlock(kind)
  }
}
