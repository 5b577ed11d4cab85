/** The public operations of a bound thread: key guards, operands, and what becomes of an attempt. */
module Threads {
  import opened Bits
  import opened Ops
  import I = Isa
  import opened Operands
  import opened Blocks
  import opened Execution

  /** A word and the index it was picked with. */
  datatype Word = Word(addr: usize, key: Key)

  datatype Error = CompareMiss(seen: usize) | IndexMismatch

  datatype Reply = Got(value: usize) | Failed(error: Error)

  function ReplyOf(a: Attempt): Reply {
    match a
    case Ok(v) => Got(v)
    case Miss(v) => Failed(CompareMiss(v))
    case Abort => Failed(IndexMismatch)
  }

  const CPU_UNINIT: u32 := 0xFFFF_FFFF
  const CPU_REG_FAILED: u32 := 0xFFFF_FFFE

  /** The operands of a call, each in its register. */
  function OperandsOf(call: Call, area: usize): (regs: map<I.Reg, usize>)
    ensures Loaded(call, area, regs)
  {
    var base := map[Rseq := area, WordPtr := call.op.word, Id := call.key.id];
    match call.op
    case CompareExchange(_, expected, update) => base[Expected := expected][Update := update]
    case FetchAdd(_, count) => base[Count := count]
    case StoreIf(_, expected, update, side, sideUpdate) =>
      base[Expected := expected][Update := update][SidePtr := side][SideUpdate := sideUpdate]
    case CompareExchangeIf(_, expected, update, other, otherExpected) =>
      base[Expected := expected][Update := update][OtherPtr := other][OtherExpected := otherExpected]
    case LoadIfNe(_, avoided, offset) => base[Avoided := avoided][Offset := offset]
    case FetchAddAt(_, offset, count) => base[Offset := offset][Count := count]
  }

  /** The call took effect as a whole, in one pass, and this is what the caller is told. */
  predicate Took(call: Call, pass: Pass, reply: Reply) {
    var e := Meaning(call, pass.index, pass.base);
    reply == ReplyOf(e.attempt) && pass.committed == e.mem
  }

  lemma Taken(call: Call, answer: Attempt, pass: Pass)
    requires answer == Meaning(call, pass.index, pass.base).attempt
    requires pass.committed == Meaning(call, pass.index, pass.base).mem
    ensures Took(call, pass, ReplyOf(answer))
  {
  }

  class Thread {
    const hart: Hart
    const arch: Arch
    const hasCid: bool

    constructor (hart: Hart, arch: Arch, hasCid: bool)
      ensures this.hart == hart && this.arch == arch && this.hasCid == hasCid
    {
      this.hart, this.arch, this.hasCid := hart, arch, hasCid;
    }

    /** The kernel's CPU number, unless it is a sentinel. */
    method CpuId() returns (id: Option<u32>)
      ensures id == None <==> hart.cpuId == CPU_UNINIT || hart.cpuId == CPU_REG_FAILED
      ensures id.Some? <==> hart.cpuId < 0xFFFF_FFFE
      ensures id.Some? ==> id.value == hart.cpuId
    {
      id := if hart.cpuId == CPU_UNINIT || hart.cpuId == CPU_REG_FAILED then None else Some(hart.cpuId);
    }

    method Cid() returns (id: Option<u32>)
      ensures id.Some? <==> hasCid
      ensures id.Some? ==> id.value == hart.mmCid
    {
      id := if hasCid then Some(hart.mmCid) else None;
    }

    /** Forget the last descriptor: no later fix-up can read it. */
    method PrepareUnload()
      modifies hart
      ensures hart.cs == 0 && hart.mem == old(hart.mem) && hart.core == old(hart.core)
      ensures hart.cpuId == old(hart.cpuId) && hart.mmCid == old(hart.mmCid)
    {
      hart.cs := 0;
    }

    /** Enter the critical section of a call. */
    method Attempt(call: Call, site: usize, turns: seq<Turn>) returns (reply: Reply, ghost pass: Pass)
      modifies hart
      ensures Took(call, pass, reply) && Fits(pass, turns, old(hart.mem), old(hart.Number(call.key.kind)), call.key.kind)
      ensures Leaves(pass, turns, hart.mem) && Indices(turns, pass.spent, old(hart.Now()), hart.Now())
      ensures hart.Now() == old(hart.Ending(arch, call, site, OperandsOf(call, hart.area), turns))
      ensures var p := BlockOf(arch, call);
              reply == ReplyOf(I.FromStatus(I.Get(hart.core.regs, p.status), I.Get(hart.core.regs, p.value)))
      ensures NeverAway(turns) ==> hart.mem == pass.committed
    {
      hide *;
      var answer;
      answer, pass := hart.Perform(arch, call, site, OperandsOf(call, hart.area), turns);
      reply := ReplyOf(answer);
      Taken(call, answer, pass);
    }

    method CompareExchange(w: Word, expected: usize, update: usize, site: usize, turns: seq<Turn>)
      returns (reply: Reply, ghost pass: Pass)
      modifies hart
      ensures reply == if pass.index != w.key.id then Failed(IndexMismatch)
                       else if Read(pass.base, w.addr) == expected then Got(expected)
                       else Failed(CompareMiss(Read(pass.base, w.addr)))
      ensures pass.committed == if pass.index == w.key.id && Read(pass.base, w.addr) == expected
                                then pass.base[w.addr := update] else pass.base
      ensures Took(Call(Op.CompareExchange(w.addr, expected, update), w.key), pass, reply)
      ensures Fits(pass, turns, old(hart.mem), old(hart.Number(w.key.kind)), w.key.kind)
      ensures Leaves(pass, turns, hart.mem) && Indices(turns, pass.spent, old(hart.Now()), hart.Now())
      ensures var call := Call(Op.CompareExchange(w.addr, expected, update), w.key);
              hart.Now() == old(hart.Ending(arch, call, site, OperandsOf(call, hart.area), turns))
      ensures NeverAway(turns) ==> hart.mem == pass.committed
    {
      hide Fits, Leaves, Indices, NeverAway, OperandsOf;
      reply, pass := Attempt(Call(Op.CompareExchange(w.addr, expected, update), w.key), site, turns);
    }

    /** Both words must have been picked with one key, or the section is not entered. */
    method CompareExchangeIf(w: Word, expected: usize, update: usize, other: Word, otherExpected: usize,
                             site: usize, turns: seq<Turn>)
      returns (reply: Reply, ghost pass: Pass)
      modifies hart
      ensures other.key != w.key ==> reply == Failed(IndexMismatch) && unchanged(hart)
      ensures other.key == w.key ==>
                && reply == (if pass.index != w.key.id then Failed(IndexMismatch)
                             else if Read(pass.base, w.addr) != expected then Failed(CompareMiss(Read(pass.base, w.addr)))
                             else if Read(pass.base, other.addr) != otherExpected then Failed(CompareMiss(Read(pass.base, other.addr)))
                             else Got(expected))
                && pass.committed == (if pass.index == w.key.id && Read(pass.base, w.addr) == expected
                                         && Read(pass.base, other.addr) == otherExpected
                                      then pass.base[w.addr := update] else pass.base)
      ensures other.key == w.key ==>
                var call := Call(Op.CompareExchangeIf(w.addr, expected, update, other.addr, otherExpected), w.key);
                && Took(call, pass, reply) && Fits(pass, turns, old(hart.mem), old(hart.Number(w.key.kind)), w.key.kind)
                && Leaves(pass, turns, hart.mem) && Indices(turns, pass.spent, old(hart.Now()), hart.Now())
                && hart.Now() == old(hart.Ending(arch, call, site, OperandsOf(call, hart.area), turns))
                && (NeverAway(turns) ==> hart.mem == pass.committed)
    {
      hide Fits, Leaves, Indices, NeverAway, OperandsOf;
      if other.key != w.key {
        pass := Pass(hart.mem, 0, hart.mem, 0, 0);
        return Failed(IndexMismatch), pass;
      }
      reply, pass := Attempt(Call(Op.CompareExchangeIf(w.addr, expected, update, other.addr, otherExpected), w.key), site, turns);
    }

    /** An add has no compare to miss: it succeeds exactly when the index is the word's. */
    method FetchAdd(w: Word, count: usize, site: usize, turns: seq<Turn>) returns (reply: Reply, ghost pass: Pass)
      modifies hart
      ensures reply == if pass.index == w.key.id then Got(Read(pass.base, w.addr)) else Failed(IndexMismatch)
      ensures pass.committed == if pass.index == w.key.id then pass.base[w.addr := WrapAdd(Read(pass.base, w.addr), count)]
                                else pass.base
      ensures Took(Call(Op.FetchAdd(w.addr, count), w.key), pass, reply)
      ensures Fits(pass, turns, old(hart.mem), old(hart.Number(w.key.kind)), w.key.kind)
      ensures Leaves(pass, turns, hart.mem) && Indices(turns, pass.spent, old(hart.Now()), hart.Now())
      ensures var call := Call(Op.FetchAdd(w.addr, count), w.key);
              hart.Now() == old(hart.Ending(arch, call, site, OperandsOf(call, hart.area), turns))
      ensures NeverAway(turns) ==> hart.mem == pass.committed
    {
      hide Fits, WrapAdd, Leaves, Indices, NeverAway, OperandsOf;
      reply, pass := Attempt(Call(Op.FetchAdd(w.addr, count), w.key), site, turns);
      if reply.Failed? { reply := Failed(IndexMismatch); }
    }

    /** What replaces the word is what is at the held value plus the offset. */
    method LoadIfNe(w: Word, avoided: usize, offset: usize, site: usize, turns: seq<Turn>)
      returns (reply: Reply, ghost pass: Pass)
      modifies hart
      ensures reply == if pass.index != w.key.id then Failed(IndexMismatch)
                       else if Read(pass.base, w.addr) == avoided then Failed(CompareMiss(avoided))
                       else Got(Read(pass.base, w.addr))
      ensures pass.committed == if pass.index == w.key.id && Read(pass.base, w.addr) != avoided
                                then pass.base[w.addr := Read(pass.base, WrapAdd(Read(pass.base, w.addr), offset))] else pass.base
      ensures Took(Call(Op.LoadIfNe(w.addr, avoided, offset), w.key), pass, reply)
      ensures Fits(pass, turns, old(hart.mem), old(hart.Number(w.key.kind)), w.key.kind)
      ensures Leaves(pass, turns, hart.mem) && Indices(turns, pass.spent, old(hart.Now()), hart.Now())
      ensures var call := Call(Op.LoadIfNe(w.addr, avoided, offset), w.key);
              hart.Now() == old(hart.Ending(arch, call, site, OperandsOf(call, hart.area), turns))
      ensures NeverAway(turns) ==> hart.mem == pass.committed
    {
      hide Fits, WrapAdd, Leaves, Indices, NeverAway, OperandsOf;
      reply, pass := Attempt(Call(Op.LoadIfNe(w.addr, avoided, offset), w.key), site, turns);
    }

    /** The count goes to the word whose address is at the held value plus the offset. */
    method FetchAddAt(w: Word, offset: usize, count: usize, site: usize, turns: seq<Turn>)
      returns (reply: Reply, ghost pass: Pass)
      modifies hart
      ensures var slot := Read(pass.base, WrapAdd(Read(pass.base, w.addr), offset));
              && reply == (if pass.index == w.key.id then Got(Read(pass.base, slot)) else Failed(IndexMismatch))
              && pass.committed == if pass.index == w.key.id then pass.base[slot := WrapAdd(Read(pass.base, slot), count)]
                                   else pass.base
      ensures Took(Call(Op.FetchAddAt(w.addr, offset, count), w.key), pass, reply)
      ensures Fits(pass, turns, old(hart.mem), old(hart.Number(w.key.kind)), w.key.kind)
      ensures Leaves(pass, turns, hart.mem) && Indices(turns, pass.spent, old(hart.Now()), hart.Now())
      ensures var call := Call(Op.FetchAddAt(w.addr, offset, count), w.key);
              hart.Now() == old(hart.Ending(arch, call, site, OperandsOf(call, hart.area), turns))
      ensures NeverAway(turns) ==> hart.mem == pass.committed
    {
      hide Fits, WrapAdd, Leaves, Indices, NeverAway, OperandsOf;
      reply, pass := Attempt(Call(Op.FetchAddAt(w.addr, offset, count), w.key), site, turns);
      if reply.Failed? { reply := Failed(IndexMismatch); }
    }

    method StoreIf(w: Word, expected: usize, update: usize, side: Word, sideUpdate: usize, site: usize, turns: seq<Turn>)
      returns (reply: Reply, ghost pass: Pass)
      modifies hart
      ensures side.key != w.key ==> reply == Failed(IndexMismatch) && unchanged(hart)
      ensures side.key == w.key ==>
                && reply == (if pass.index != w.key.id then Failed(IndexMismatch)
                             else if Read(pass.base, w.addr) == expected then Got(expected)
                             else Failed(CompareMiss(Read(pass.base, w.addr))))
                && pass.committed == (if pass.index == w.key.id && Read(pass.base, w.addr) == expected
                                      then pass.base[side.addr := sideUpdate][w.addr := update] else pass.base)
      ensures side.key == w.key ==>
                var call := Call(Op.StoreIf(w.addr, expected, update, side.addr, sideUpdate), w.key);
                && Took(call, pass, reply) && Fits(pass, turns, old(hart.mem), old(hart.Number(w.key.kind)), w.key.kind)
                && Leaves(pass, turns, hart.mem) && Indices(turns, pass.spent, old(hart.Now()), hart.Now())
                && hart.Now() == old(hart.Ending(arch, call, site, OperandsOf(call, hart.area), turns))
                && (NeverAway(turns) ==> hart.mem == pass.committed)
    {
      hide Fits, Leaves, Indices, NeverAway, OperandsOf;
      if side.key != w.key {
        pass := Pass(hart.mem, 0, hart.mem, 0, 0);
        return Failed(IndexMismatch), pass;
      }
      reply, pass := Attempt(Call(Op.StoreIf(w.addr, expected, update, side.addr, sideUpdate), w.key), site, turns);
    }
  }
}
