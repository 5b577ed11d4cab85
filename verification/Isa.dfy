/** The instructions the twelve assembly blocks are made of, and what one of them does. */
module Isa {
  import opened Bits
  import opened Ops

  /** Registers: the named operands of the blocks, or machine registers once allocated. */
  type Reg = nat

  datatype Instr =
    | Jump(target: nat)
    | Signature
    | Lea(dst: Reg)
    | Adrp(dst: Reg)
    | AddLo12(dst: Reg)
    | StoreCs(src: Reg, base: Reg)
    | LoadIndex(dst: Reg, base: Reg, kind: Kind)
    | CmpW(left: Reg, right: Reg)
    | Cmp(left: Reg, right: Reg)
    | BranchNe(target: nat)
    | BranchEq(target: nat)
    | Load(dst: Reg, addr: Reg)
    | Store(src: Reg, addr: Reg)
    | Xadd(addr: Reg, reg: Reg)
    | Add(dst: Reg, left: Reg, right: Reg)
    | Mov(dst: Reg, src: Reg)
    | MovImm(dst: Reg, imm: usize)

  /** A block with its descriptor: the range `[start, post)` and the abort address. */
  datatype Program = Program(code: seq<Instr>, start: nat, post: nat, abort: nat, status: Reg, value: Reg)

  datatype Core = Core(pc: nat, regs: map<Reg, usize>, eq: bool)

  /** What is fixed while a thread runs undisturbed: its descriptor, its area and its indices. */
  datatype Env = Env(site: usize, area: usize, cpuId: u32, mmCid: u32)

  datatype Cell = Cell(addr: usize, value: usize)

  /** The next register state, and at most one store to `rseq_cs`, to memory, and one load. */
  datatype Result = Result(core: Core, cs: Option<usize>, store: Option<Cell>, load: Option<usize>)

  function Get(regs: map<Reg, usize>, r: Reg): usize {
    if r in regs then regs[r] else 0
  }

  function Index(env: Env, kind: Kind): u32 {
    match kind case CpuIndex => env.cpuId case CidIndex => env.mmCid
  }

  function Set(c: Core, r: Reg, v: usize): Core {
    Core(c.pc + 1, c.regs[r := v], c.eq)
  }

  function Exec(i: Instr, env: Env, c: Core, m: Mem): Result {
    match i
    case Jump(target) => Result(c.(pc := target), None, None, None)
    case Signature => Result(c, None, None, None)
    case Lea(dst) => Result(Set(c, dst, env.site), None, None, None)
    case Adrp(dst) => Result(Set(c, dst, env.site - PageOffset(env.site)), None, None, None)
    case AddLo12(dst) =>
      Result(Set(c, dst, WrapAdd(Get(c.regs, dst), PageOffset(env.site))), None, None, None)
    case StoreCs(src, base) =>
      Result(c.(pc := c.pc + 1), if Get(c.regs, base) == env.area then Some(Get(c.regs, src)) else None, None, None)
    case LoadIndex(dst, base, kind) =>
      Result(Set(c, dst, if Get(c.regs, base) == env.area then Index(env, kind) else 0), None, None, None)
    case CmpW(left, right) =>
      Result(c.(pc := c.pc + 1, eq := Low32(Get(c.regs, left)) == Low32(Get(c.regs, right))), None, None, None)
    case Cmp(left, right) =>
      Result(c.(pc := c.pc + 1, eq := Get(c.regs, left) == Get(c.regs, right)), None, None, None)
    case BranchNe(target) => Result(c.(pc := if c.eq then c.pc + 1 else target), None, None, None)
    case BranchEq(target) => Result(c.(pc := if c.eq then target else c.pc + 1), None, None, None)
    case Load(dst, addr) =>
      var a := Get(c.regs, addr);
      Result(Set(c, dst, Read(m, a)), None, None, Some(a))
    case Store(src, addr) =>
      Result(c.(pc := c.pc + 1), None, Some(Cell(Get(c.regs, addr), Get(c.regs, src))), None)
    case Xadd(addr, reg) =>
      var a := Get(c.regs, addr);
      Result(Set(c, reg, Read(m, a)), None, Some(Cell(a, WrapAdd(Read(m, a), Get(c.regs, reg)))), Some(a))
    case Add(dst, left, right) =>
      Result(Set(c, dst, WrapAdd(Get(c.regs, left), Get(c.regs, right))), None, None, None)
    case Mov(dst, src) => Result(Set(c, dst, Get(c.regs, src)), None, None, None)
    case MovImm(dst, imm) => Result(Set(c, dst, imm), None, None, None)
  }

  predicate InRange(p: Program, pc: nat) {
    p.start <= pc < p.post
  }

  /** `Attempt::from_status` on the block's output operands. */
  function FromStatus(status: usize, value: usize): Attempt {
    if status == 0 then Ok(value) else if status == 1 then Miss(value) else Abort
  }

  /** Memory after at most one store. */
  function After(m: Mem, store: Option<Cell>): Mem {
    match store case None => m case Some(cell) => m[cell.addr := cell.value]
  }

  /** What is left of a call: its answer and the memory it leaves. */
  datatype Rest = Rest(attempt: Attempt, mem: Mem)

  /** Run from `c` to the end of the block with nobody else moving. */
  function Remaining(p: Program, env: Env, c: Core, m: Mem): Rest
    decreases |p.code| - c.pc
  {
    if c.pc >= |p.code| then Rest(FromStatus(Get(c.regs, p.status), Get(c.regs, p.value)), m)
    else
      var e := Exec(p.code[c.pc], env, c, m);
      if e.core.pc <= c.pc then Rest(Abort, m) else Remaining(p, env, e.core, After(m, e.store))
  }

  /** One instruction loads and stores only in `s`. */
  predicate Touches(e: Result, s: set<usize>) {
    (e.load.Some? ==> e.load.value in s) && (e.store.Some? ==> e.store.value.addr in s)
  }

  /** The rest of the run loads and stores only in `s`. */
  predicate Within(p: Program, env: Env, c: Core, m: Mem, s: set<usize>)
    decreases |p.code| - c.pc
  {
    c.pc < |p.code| ==>
      var e := Exec(p.code[c.pc], env, c, m);
      e.core.pc > c.pc ==> Touches(e, s) && Within(p, env, e.core, After(m, e.store), s)
  }
}
