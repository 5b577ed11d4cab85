/** What all twelve blocks have in common, and what each of them computes. */
module Blocks {
  import opened Bits
  import opened Ops
  import opened Isa
  import opened Operands
  import Aarch64
  import X86

  datatype Arch = Arm | Intel

  function Block(arch: Arch, opcode: Opcode, kind: Kind): Program {
    match arch
    case Arm => Aarch64.Block(opcode, kind)
    case Intel => X86.Block(opcode, kind)
  }

  function BlockOf(arch: Arch, call: Call): Program {
    Block(arch, OpcodeOf(call.op), call.key.kind)
  }

  /** Registers a critical section may overwrite before it has committed. */
  predicate IsScratch(r: Reg) {
    !IsInput(r) && r != Status
  }

  predicate MissAt(p: Program, pc: nat) {
    && pc + 2 <= |p.code|
    && p.code[pc] == MovImm(Status, 1)
    && p.code[pc + 1] == Jump(|p.code|)
  }

  /** Where a failed check or compare leads: to Abort, to Miss, or to Miss with the other word's value. */
  predicate FailExit(p: Program, pc: nat) {
    || pc + 2 == |p.code|
    || MissAt(p, pc)
    || (pc < |p.code| && p.code[pc] == Mov(Current, OtherVal) && MissAt(p, pc + 1))
  }

  /** Inside the range: forward branches leave it, inputs and status stay, only the last store commits.
      After the range: forward jumps, no memory, no input. */
  predicate InstrOk(p: Program, pc: nat)
    requires pc < |p.code|
  {
    match p.code[pc]
    case Jump(target) => p.post <= pc < target <= |p.code|
    case Signature => false
    case Lea(_) => false
    case Adrp(_) => false
    case AddLo12(_) => false
    case StoreCs(_, _) => false
    case LoadIndex(dst, base, _) => pc == p.start && IsScratch(dst) && base == Rseq
    case CmpW(_, _) => pc < p.post - 1
    case Cmp(_, _) => pc < p.post - 1
    case BranchNe(target) => pc < p.post - 1 && p.post <= target < |p.code| && FailExit(p, target)
    case BranchEq(target) => pc < p.post - 1 && p.post <= target < |p.code| && FailExit(p, target)
    case Load(dst, _) => pc < p.post - 1 && IsScratch(dst)
    case Store(src, addr) => pc == p.post - 1 || (pc < p.post - 1 && src == SideUpdate && addr == SidePtr)
    case Xadd(_, reg) => pc == p.post - 1 && IsScratch(reg)
    case Add(dst, _, _) => pc < p.post - 1 && IsScratch(dst)
    case Mov(dst, src) => pc != p.post - 1 && IsScratch(dst) && (pc >= p.post ==> IsScratch(src))
    case MovImm(dst, _) => pc >= p.post && !IsInput(dst)
  }

  /** Entry, abort point and arming: what every block does before its range. */
  predicate Armed(p: Program) {
    && 2 == p.abort && 4 <= p.start && p.start + 3 < p.post && p.post + 2 <= |p.code|
    && p.code[0] == Jump(2)
    && p.code[1] == Signature
    && ((p.start == 4 && p.code[2] == Lea(Tmp))
        || (p.start == 5 && p.code[2] == Adrp(Tmp) && p.code[3] == AddLo12(Tmp)))
    && p.code[p.start - 1] == StoreCs(Tmp, Rseq)
  }

  /** The range opens with the index check. */
  predicate Checked(p: Program, kind: Kind) {
    && 2 <= |p.code| && p.start + 2 < |p.code|
    && p.code[p.start] == LoadIndex(Got, Rseq, kind)
    && p.code[p.start + 1] == CmpW(Got, Id)
    && p.code[p.start + 2] == BranchNe(|p.code| - 2)
  }

  /** The commit falls through to status 0; an index mismatch ends the block with status 2. */
  predicate Exits(p: Program) {
    && p.status == Status && IsScratch(p.value) && p.value != Got
    && p.post + 4 <= |p.code|
    && p.code[p.post] == MovImm(Status, 0)
    && p.code[p.post + 1] == Jump(|p.code|)
    && p.code[|p.code| - 2] == MovImm(p.value, 0)
    && p.code[|p.code| - 1] == MovImm(Status, 2)
  }

  /** Only `store_if` stores before its commit, and it loads from its word alone.
      Only `fetch_add_at` commits to another word than its own. */
  predicate ScratchOk(p: Program, opcode: Opcode, pc: nat)
    requires pc < |p.code|
  {
    match p.code[pc]
    case Store(_, addr) =>
      if pc < p.post - 1 then opcode == OpStoreIf else addr == WordPtr || opcode == OpFetchAddAt
    case Xadd(addr, _) => addr == WordPtr || opcode == OpFetchAddAt
    case Load(_, addr) => opcode == OpStoreIf ==> addr == WordPtr
    case _ => true
  }

  predicate WellFormed(p: Program, opcode: Opcode, kind: Kind) {
    && Armed(p) && Checked(p, kind)
    && p.status == Status && IsScratch(p.value)
    && forall pc | p.start <= pc < |p.code| :: InstrOk(p, pc) && ScratchOk(p, opcode, pc)
  }

  predicate CompareExchangeShape(p: Program, kind: Kind) {
    var s := p.start;
    && Armed(p) && Checked(p, kind) && Exits(p) && p.value == Current
    && p.post == s + 7 && |p.code| == p.post + 6 && MissAt(p, p.post + 2)
    && p.code[s + 3] == Load(Current, WordPtr)
    && p.code[s + 4] == Cmp(Current, Expected)
    && p.code[s + 5] == BranchNe(p.post + 2)
    && p.code[s + 6] == Store(Update, WordPtr)
  }

  /** aarch64 loads, adds and stores; x86_64 has one `xadd`. */
  predicate FetchAddShape(p: Program, kind: Kind) {
    var s := p.start;
    && Armed(p) && Checked(p, kind) && Exits(p) && p.value == Prev && |p.code| == p.post + 4
    && if p.post == s + 6 then
         && p.code[s + 3] == Load(Prev, WordPtr)
         && p.code[s + 4] == Add(Sum, Prev, Count)
         && p.code[s + 5] == Store(Sum, WordPtr)
       else
         && p.post == s + 5
         && p.code[s + 3] == Mov(Prev, Count)
         && p.code[s + 4] == Xadd(WordPtr, Prev)
  }

  predicate StoreIfShape(p: Program, kind: Kind) {
    var s := p.start;
    && Armed(p) && Checked(p, kind) && Exits(p) && p.value == Current
    && p.post == s + 8 && |p.code| == p.post + 6 && MissAt(p, p.post + 2)
    && p.code[s + 3] == Load(Current, WordPtr)
    && p.code[s + 4] == Cmp(Current, Expected)
    && p.code[s + 5] == BranchNe(p.post + 2)
    && p.code[s + 6] == Store(SideUpdate, SidePtr)
    && p.code[s + 7] == Store(Update, WordPtr)
  }

  predicate CompareExchangeIfShape(p: Program, kind: Kind) {
    var s := p.start;
    && Armed(p) && Checked(p, kind) && Exits(p) && p.value == Current
    && p.post == s + 10 && |p.code| == p.post + 7 && MissAt(p, p.post + 3)
    && p.code[s + 3] == Load(Current, WordPtr)
    && p.code[s + 4] == Cmp(Current, Expected)
    && p.code[s + 5] == BranchNe(p.post + 3)
    && p.code[s + 6] == Load(OtherVal, OtherPtr)
    && p.code[s + 7] == Cmp(OtherVal, OtherExpected)
    && p.code[s + 8] == BranchNe(p.post + 2)
    && p.code[s + 9] == Store(Update, WordPtr)
    && p.code[p.post + 2] == Mov(Current, OtherVal)
  }

  /** x86_64 needs a move before its two-operand add. */
  predicate LoadIfNeShape(p: Program, kind: Kind) {
    var s := p.start;
    && Armed(p) && Checked(p, kind) && Exits(p) && p.value == Current
    && s + 9 <= p.post && |p.code| == p.post + 6 && MissAt(p, p.post + 2)
    && p.code[s + 3] == Load(Current, WordPtr)
    && p.code[s + 4] == Cmp(Current, Avoided)
    && p.code[s + 5] == BranchEq(p.post + 2)
    && (if p.post == s + 9 then
          p.code[s + 6] == Add(Chase, Current, Offset)
        else
          p.post == s + 10 && p.code[s + 6] == Mov(Chase, Current) && p.code[s + 7] == Add(Chase, Chase, Offset))
    && p.code[p.post - 2] == Load(Chase, Chase)
    && p.code[p.post - 1] == Store(Chase, WordPtr)
  }

  predicate FetchAddAtShape(p: Program, kind: Kind) {
    var s := p.start;
    && Armed(p) && Checked(p, kind) && Exits(p) && p.value == Prev && |p.code| == p.post + 4 && s + 8 <= p.post
    && p.code[s + 3] == Load(Base, WordPtr)
    && p.code[s + 4] == Add(Base, Base, Offset)
    && p.code[s + 5] == Load(Slot, Base)
    && if p.post == s + 9 then
         && p.code[s + 6] == Load(Prev, Slot)
         && p.code[s + 7] == Add(Sum, Prev, Count)
         && p.code[s + 8] == Store(Sum, Slot)
       else
         && p.post == s + 8
         && p.code[s + 6] == Mov(Prev, Count)
         && p.code[s + 7] == Xadd(Slot, Prev)
  }

  lemma ArmCompareExchange(kind: Kind)
    ensures CompareExchangeShape(Aarch64.CompareExchangeBlock(kind), kind)
  {
  }

  lemma IntelCompareExchange(kind: Kind)
    ensures CompareExchangeShape(X86.CompareExchangeBlock(kind), kind)
  {
  }

  /** The index check, the commit exit and the mismatch exit are well formed in every block. */
  lemma CommonOk(p: Program, opcode: Opcode, kind: Kind, pc: nat)
    requires Armed(p) && Checked(p, kind) && Exits(p) && p.start <= pc < |p.code|
    ensures p.start + 3 < p.post && p.post + 4 <= |p.code|
    ensures pc < p.start + 3 || p.post <= pc < p.post + 2 || |p.code| - 2 <= pc ==> InstrOk(p, pc) && ScratchOk(p, opcode, pc)
  {
  }

  lemma MissOk(p: Program, opcode: Opcode, at: nat, pc: nat)
    requires MissAt(p, at) && p.post <= at && pc < |p.code| && p.start < p.post
    ensures pc == at || pc == at + 1 ==> InstrOk(p, pc) && ScratchOk(p, opcode, pc)
  {
  }

  lemma CommonFacts(p: Program, kind: Kind)
    requires Exits(p)
    ensures p.status == Status && IsScratch(p.value)
  {
  }

  lemma CompareExchangeWellFormed(p: Program, kind: Kind)
    requires CompareExchangeShape(p, kind)
    ensures WellFormed(p, OpCompareExchange, kind)
  {
    hide Armed, Checked, Exits, MissAt;
    forall pc | p.start <= pc < |p.code| ensures InstrOk(p, pc) && ScratchOk(p, OpCompareExchange, pc) {
      CommonOk(p, OpCompareExchange, kind, pc);
      MissOk(p, OpCompareExchange, p.post + 2, pc);
    }
    CommonFacts(p, kind);
    hide InstrOk, ScratchOk;
  }

  lemma ArmFetchAdd(kind: Kind)
    ensures FetchAddShape(Aarch64.FetchAddBlock(kind), kind)
  {
  }

  lemma IntelFetchAdd(kind: Kind)
    ensures FetchAddShape(X86.FetchAddBlock(kind), kind)
  {
  }

  lemma FetchAddWellFormed(p: Program, kind: Kind)
    requires FetchAddShape(p, kind)
    ensures WellFormed(p, OpFetchAdd, kind)
  {
    hide Armed, Checked, Exits, MissAt;
    forall pc | p.start <= pc < |p.code| ensures InstrOk(p, pc) && ScratchOk(p, OpFetchAdd, pc) {
      CommonOk(p, OpFetchAdd, kind, pc);
    }
    CommonFacts(p, kind);
    hide InstrOk, ScratchOk;
  }

  lemma ArmStoreIf(kind: Kind)
    ensures StoreIfShape(Aarch64.StoreIfBlock(kind), kind)
  {
  }

  lemma IntelStoreIf(kind: Kind)
    ensures StoreIfShape(X86.StoreIfBlock(kind), kind)
  {
  }

  lemma StoreIfWellFormed(p: Program, kind: Kind)
    requires StoreIfShape(p, kind)
    ensures WellFormed(p, OpStoreIf, kind)
  {
    hide Armed, Checked, Exits, MissAt;
    forall pc | p.start <= pc < |p.code| ensures InstrOk(p, pc) && ScratchOk(p, OpStoreIf, pc) {
      CommonOk(p, OpStoreIf, kind, pc);
      MissOk(p, OpStoreIf, p.post + 2, pc);
    }
    CommonFacts(p, kind);
    hide InstrOk, ScratchOk;
  }

  lemma ArmCompareExchangeIf(kind: Kind)
    ensures CompareExchangeIfShape(Aarch64.CompareExchangeIfBlock(kind), kind)
  {
  }

  lemma IntelCompareExchangeIf(kind: Kind)
    ensures CompareExchangeIfShape(X86.CompareExchangeIfBlock(kind), kind)
  {
  }

  lemma CompareExchangeIfWellFormed(p: Program, kind: Kind)
    requires CompareExchangeIfShape(p, kind)
    ensures WellFormed(p, OpCompareExchangeIf, kind)
  {
    hide Armed, Checked, Exits, MissAt;
    forall pc | p.start <= pc < |p.code| ensures InstrOk(p, pc) && ScratchOk(p, OpCompareExchangeIf, pc) {
      CommonOk(p, OpCompareExchangeIf, kind, pc);
      MissOk(p, OpCompareExchangeIf, p.post + 3, pc);
    }
    CommonFacts(p, kind);
    hide InstrOk, ScratchOk;
  }

  lemma ArmLoadIfNe(kind: Kind)
    ensures LoadIfNeShape(Aarch64.LoadIfNeBlock(kind), kind)
  {
  }

  lemma IntelLoadIfNe(kind: Kind)
    ensures LoadIfNeShape(X86.LoadIfNeBlock(kind), kind)
  {
  }

  lemma LoadIfNeWellFormed(p: Program, kind: Kind)
    requires LoadIfNeShape(p, kind)
    ensures WellFormed(p, OpLoadIfNe, kind)
  {
    hide Armed, Checked, Exits, MissAt;
    forall pc | p.start <= pc < |p.code| ensures InstrOk(p, pc) && ScratchOk(p, OpLoadIfNe, pc) {
      CommonOk(p, OpLoadIfNe, kind, pc);
      MissOk(p, OpLoadIfNe, p.post + 2, pc);
    }
    CommonFacts(p, kind);
    hide InstrOk, ScratchOk;
  }

  lemma ArmFetchAddAt(kind: Kind)
    ensures FetchAddAtShape(Aarch64.FetchAddAtBlock(kind), kind)
  {
  }

  lemma IntelFetchAddAt(kind: Kind)
    ensures FetchAddAtShape(X86.FetchAddAtBlock(kind), kind)
  {
  }

  lemma FetchAddAtWellFormed(p: Program, kind: Kind)
    requires FetchAddAtShape(p, kind)
    ensures WellFormed(p, OpFetchAddAt, kind)
  {
    hide Armed, Checked, Exits, MissAt;
    forall pc | p.start <= pc < |p.code| ensures InstrOk(p, pc) && ScratchOk(p, OpFetchAddAt, pc) {
      CommonOk(p, OpFetchAddAt, kind, pc);
    }
    CommonFacts(p, kind);
    hide InstrOk, ScratchOk;
  }

  /** Every block of both backends is well formed. */
  lemma EveryBlockWellFormed(arch: Arch, opcode: Opcode, kind: Kind)
    ensures WellFormed(Block(arch, opcode, kind), opcode, kind)
  {
    hide WellFormed;
    var p := Block(arch, opcode, kind);
    match opcode
    case OpCompareExchange =>
      if arch == Arm { ArmCompareExchange(kind); } else { IntelCompareExchange(kind); }
      CompareExchangeWellFormed(p, kind);
    case OpFetchAdd =>
      if arch == Arm { ArmFetchAdd(kind); } else { IntelFetchAdd(kind); }
      FetchAddWellFormed(p, kind);
    case OpStoreIf =>
      if arch == Arm { ArmStoreIf(kind); } else { IntelStoreIf(kind); }
      StoreIfWellFormed(p, kind);
    case OpCompareExchangeIf =>
      if arch == Arm { ArmCompareExchangeIf(kind); } else { IntelCompareExchangeIf(kind); }
      CompareExchangeIfWellFormed(p, kind);
    case OpLoadIfNe =>
      if arch == Arm { ArmLoadIfNe(kind); } else { IntelLoadIfNe(kind); }
      LoadIfNeWellFormed(p, kind);
    case OpFetchAddAt =>
      if arch == Arm { ArmFetchAddAt(kind); } else { IntelFetchAddAt(kind); }
      FetchAddAtWellFormed(p, kind);
  }

  lemma EveryExits(arch: Arch, opcode: Opcode, kind: Kind)
    ensures Exits(Block(arch, opcode, kind))
  {
    var p := Block(arch, opcode, kind);
    hide Exits, Armed, Checked, MissAt;
    match opcode
    case OpCompareExchange =>
      if arch == Arm { ArmCompareExchange(kind); } else { IntelCompareExchange(kind); }
    case OpFetchAdd =>
      if arch == Arm { ArmFetchAdd(kind); } else { IntelFetchAdd(kind); }
    case OpStoreIf =>
      if arch == Arm { ArmStoreIf(kind); } else { IntelStoreIf(kind); }
    case OpCompareExchangeIf =>
      if arch == Arm { ArmCompareExchangeIf(kind); } else { IntelCompareExchangeIf(kind); }
    case OpLoadIfNe =>
      if arch == Arm { ArmLoadIfNe(kind); } else { IntelLoadIfNe(kind); }
    case OpFetchAddAt =>
      if arch == Arm { ArmFetchAddAt(kind); } else { IntelFetchAddAt(kind); }
  }
}
