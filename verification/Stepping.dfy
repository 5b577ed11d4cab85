/** One lemma for each instruction: what it does to the rest of a run. */
module Stepping {
  import opened Bits
  import opened Ops
  import opened Isa
  import opened Operands
  import opened Blocks

  /** What a run is to be proved to do: leave `rest`, and touch `access` only. */
  datatype Claim = Claim(p: Program, env: Env, access: set<usize>, rest: Rest)

  predicate Holds(g: Claim, c: Core, m: Mem) {
    Remaining(g.p, g.env, c, m) == g.rest && Within(g.p, g.env, c, m, g.access)
  }

  /** From `c` onwards the block does to `m` what the call means on `m`. */
  predicate Faithful(p: Program, env: Env, call: Call, c: Core, seen: Mem, m: Mem) {
    var e := Meaning(call, Index(env, call.key.kind), m);
    && Holds(Claim(p, env, e.access, Rest(e.attempt, e.mem)), c, m)
    && seen.Keys <= e.access
  }

  lemma LoadStep(g: Claim, c: Core, m: Mem, dst: Reg, addr: Reg) returns (d: Core)
    requires c.pc < |g.p.code| && g.p.code[c.pc] == Load(dst, addr) && Get(c.regs, addr) in g.access
    ensures d == Core(c.pc + 1, c.regs[dst := Read(m, Get(c.regs, addr))], c.eq)
    ensures Holds(g, d, m) ==> Holds(g, c, m)
  {
    d := Exec(g.p.code[c.pc], g.env, c, m).core;
  }

  lemma CmpStep(g: Claim, c: Core, m: Mem, left: Reg, right: Reg) returns (d: Core)
    requires c.pc < |g.p.code| && g.p.code[c.pc] == Cmp(left, right)
    ensures d == Core(c.pc + 1, c.regs, Get(c.regs, left) == Get(c.regs, right))
    ensures Holds(g, d, m) ==> Holds(g, c, m)
  {
    d := Exec(g.p.code[c.pc], g.env, c, m).core;
  }

  lemma BranchStep(g: Claim, c: Core, m: Mem, taken: bool, target: nat) returns (d: Core)
    requires c.pc < |g.p.code| && c.pc < target
    requires g.p.code[c.pc] == if taken == c.eq then BranchEq(target) else BranchNe(target)
    ensures d == Core(if taken then target else c.pc + 1, c.regs, c.eq)
    ensures Holds(g, d, m) ==> Holds(g, c, m)
  {
    d := Exec(g.p.code[c.pc], g.env, c, m).core;
  }

  lemma StoreStep(g: Claim, c: Core, m: Mem, src: Reg, addr: Reg) returns (d: Core, n: Mem)
    requires c.pc < |g.p.code| && g.p.code[c.pc] == Store(src, addr) && Get(c.regs, addr) in g.access
    ensures d == Core(c.pc + 1, c.regs, c.eq) && n == m[Get(c.regs, addr) := Get(c.regs, src)]
    ensures Holds(g, d, n) ==> Holds(g, c, m)
  {
    var e := Exec(g.p.code[c.pc], g.env, c, m);
    d, n := e.core, After(m, e.store);
  }

  lemma AddStep(g: Claim, c: Core, m: Mem, dst: Reg, left: Reg, right: Reg) returns (d: Core)
    requires c.pc < |g.p.code| && g.p.code[c.pc] == Add(dst, left, right)
    ensures d == Core(c.pc + 1, c.regs[dst := WrapAdd(Get(c.regs, left), Get(c.regs, right))], c.eq)
    ensures Holds(g, d, m) ==> Holds(g, c, m)
  {
    d := Exec(g.p.code[c.pc], g.env, c, m).core;
  }

  lemma MovStep(g: Claim, c: Core, m: Mem, dst: Reg, src: Reg) returns (d: Core)
    requires c.pc < |g.p.code| && g.p.code[c.pc] == Mov(dst, src)
    ensures d == Core(c.pc + 1, c.regs[dst := Get(c.regs, src)], c.eq)
    ensures Holds(g, d, m) ==> Holds(g, c, m)
  {
    d := Exec(g.p.code[c.pc], g.env, c, m).core;
  }

  lemma XaddStep(g: Claim, c: Core, m: Mem, addr: Reg, reg: Reg) returns (d: Core, n: Mem)
    requires c.pc < |g.p.code| && g.p.code[c.pc] == Xadd(addr, reg) && Get(c.regs, addr) in g.access
    ensures d == Core(c.pc + 1, c.regs[reg := Read(m, Get(c.regs, addr))], c.eq)
    ensures n == m[Get(c.regs, addr) := WrapAdd(Read(m, Get(c.regs, addr)), Get(c.regs, reg))]
    ensures Holds(g, d, n) ==> Holds(g, c, m)
  {
    var e := Exec(g.p.code[c.pc], g.env, c, m);
    d, n := e.core, After(m, e.store);
  }

  lemma ImmStep(g: Claim, c: Core, m: Mem, dst: Reg, imm: usize) returns (d: Core)
    requires c.pc < |g.p.code| && g.p.code[c.pc] == MovImm(dst, imm)
    ensures d == Core(c.pc + 1, c.regs[dst := imm], c.eq)
    ensures Holds(g, d, m) ==> Holds(g, c, m)
  {
    d := Exec(g.p.code[c.pc], g.env, c, m).core;
  }

  lemma IndexStep(g: Claim, c: Core, m: Mem, kind: Kind) returns (d: Core)
    requires c.pc < |g.p.code| && g.p.code[c.pc] == LoadIndex(Got, Rseq, kind) && Get(c.regs, Rseq) == g.env.area
    ensures d == Core(c.pc + 1, c.regs[Got := Index(g.env, kind)], c.eq)
    ensures Holds(g, d, m) ==> Holds(g, c, m)
  {
    d := Exec(g.p.code[c.pc], g.env, c, m).core;
  }

  lemma CmpWStep(g: Claim, c: Core, m: Mem, got: u32, id: u32) returns (d: Core)
    requires c.pc < |g.p.code| && g.p.code[c.pc] == CmpW(Got, Id)
    requires Get(c.regs, Got) == got && Low32(Get(c.regs, Id)) == id
    ensures d == Core(c.pc + 1, c.regs, got == id)
    ensures Holds(g, d, m) ==> Holds(g, c, m)
  {
    d := Exec(g.p.code[c.pc], g.env, c, m).core;
  }

  /** The last two instructions of an exit: status, then the end of the block. */
  lemma ExitStep(g: Claim, c: Core, m: Mem, status: usize)
    requires c.pc + 1 < |g.p.code| && g.p.status == Status && IsScratch(g.p.value)
    requires g.p.code[c.pc] == MovImm(Status, status) && g.p.code[c.pc + 1] == Jump(|g.p.code|)
    requires g.rest == Rest(FromStatus(status, Get(c.regs, g.p.value)), m)
    ensures Holds(g, c, m)
  {
    var d := ImmStep(g, c, m, Status, status);
    var e := Exec(g.p.code[d.pc], g.env, d, m).core;
    assert Holds(g, e, m);
  }

  lemma CommitExit(g: Claim, c: Core, m: Mem)
    requires Exits(g.p) && c.pc == g.p.post && g.rest == Rest(Ok(Get(c.regs, g.p.value)), m)
    ensures Holds(g, c, m)
  {
    hide Holds;
    ExitStep(g, c, m, 0);
  }

  lemma MissExit(g: Claim, c: Core, m: Mem)
    requires Exits(g.p) && MissAt(g.p, c.pc) && g.rest == Rest(Miss(Get(c.regs, g.p.value)), m)
    ensures Holds(g, c, m)
  {
    hide Holds;
    ExitStep(g, c, m, 1);
  }

  lemma AbortStep(g: Claim, c: Core, m: Mem)
    requires Exits(g.p) && c.pc == |g.p.code| - 2 && g.rest == Rest(Abort, m)
    ensures Holds(g, c, m)
  {
    var d := ImmStep(g, c, m, g.p.value, 0);
    var e := ImmStep(g, d, m, Status, 2);
    assert Holds(g, e, m);
  }

  /** The index check: the call is an abort, or its body starts with the operands in place. */
  lemma IndexChecked(g: Claim, call: Call, c: Core, m: Mem) returns (d: Core)
    requires Checked(g.p, call.key.kind) && Exits(g.p) && g.p.start + 2 < g.p.post
    requires c.pc == g.p.start && Loaded(call, g.env.area, c.regs)
    requires Index(g.env, call.key.kind) != call.key.id ==> g.rest == Rest(Abort, m)
    ensures d == Core(g.p.start + 3, c.regs[Got := Index(g.env, call.key.kind)], true)
    ensures Index(g.env, call.key.kind) != call.key.id ==> Holds(g, c, m)
    ensures Holds(g, d, m) ==> Holds(g, c, m)
  {
    hide Holds;
    var index := Index(g.env, call.key.kind);
    var c1 := IndexStep(g, c, m, call.key.kind);
    var c2 := CmpWStep(g, c1, m, index, call.key.id);
    var c3 := BranchStep(g, c2, m, index != call.key.id, |g.p.code| - 2);
    if index != call.key.id { AbortStep(g, c3, m); }
    d := c2.(pc := g.p.start + 3, eq := true);
  }
}
