/** The blocks work for every register assignment their operand constraints allow. */
module Registers {
  import opened Bits
  import opened Ops
  import opened Isa
  import opened Operands
  import opened Blocks

  type Alloc = map<Reg, Reg>

  function At(alloc: Alloc, r: Reg): Reg {
    if r in alloc then alloc[r] else r
  }

  /** The registers an instruction reads, and the one it writes. */
  function Sources(i: Instr): set<Reg> {
    match i
    case AddLo12(dst) => {dst}
    case StoreCs(src, base) => {src, base}
    case LoadIndex(_, base, _) => {base}
    case CmpW(left, right) => {left, right}
    case Cmp(left, right) => {left, right}
    case Load(_, addr) => {addr}
    case Store(src, addr) => {src, addr}
    case Xadd(addr, reg) => {addr, reg}
    case Add(_, left, right) => {left, right}
    case Mov(_, src) => {src}
    case _ => {}
  }

  function Target(i: Instr): Option<Reg> {
    match i
    case Lea(dst) => Some(dst)
    case Adrp(dst) => Some(dst)
    case AddLo12(dst) => Some(dst)
    case LoadIndex(dst, _, _) => Some(dst)
    case Load(dst, _) => Some(dst)
    case Xadd(_, reg) => Some(reg)
    case Add(dst, _, _) => Some(dst)
    case Mov(dst, _) => Some(dst)
    case MovImm(dst, _) => Some(dst)
    case _ => None
  }

  function Renamed(alloc: Alloc, i: Instr): Instr {
    match i
    case Lea(dst) => Lea(At(alloc, dst))
    case Adrp(dst) => Adrp(At(alloc, dst))
    case AddLo12(dst) => AddLo12(At(alloc, dst))
    case StoreCs(src, base) => StoreCs(At(alloc, src), At(alloc, base))
    case LoadIndex(dst, base, kind) => LoadIndex(At(alloc, dst), At(alloc, base), kind)
    case CmpW(left, right) => CmpW(At(alloc, left), At(alloc, right))
    case Cmp(left, right) => Cmp(At(alloc, left), At(alloc, right))
    case Load(dst, addr) => Load(At(alloc, dst), At(alloc, addr))
    case Store(src, addr) => Store(At(alloc, src), At(alloc, addr))
    case Xadd(addr, reg) => Xadd(At(alloc, addr), At(alloc, reg))
    case Add(dst, left, right) => Add(At(alloc, dst), At(alloc, left), At(alloc, right))
    case Mov(dst, src) => Mov(At(alloc, dst), At(alloc, src))
    case MovImm(dst, imm) => MovImm(At(alloc, dst), imm)
    case _ => i
  }

  /** The block as the compiler emits it. */
  function Emitted(p: Program, alloc: Alloc): Program {
    p.(code := seq(|p.code|, pc requires 0 <= pc < |p.code| => Renamed(alloc, p.code[pc])),
       status := At(alloc, p.status), value := At(alloc, p.value))
  }

  /** Two operands may share a register only if both are inputs, which then hold the same value, or if one
      is an input and the other the `lateout` status. */
  predicate MayShare(r: Reg, q: Reg) {
    (IsInput(r) || r == Status) && (IsInput(q) || q == Status)
  }

  predicate Covers(alloc: Alloc, i: Instr) {
    Sources(i) <= alloc.Keys && (Target(i).Some? ==> Target(i).value in alloc)
  }

  predicate Allocates(p: Program, alloc: Alloc) {
    && p.status in alloc && p.value in alloc
    && (forall pc | 0 <= pc < |p.code| :: Covers(alloc, p.code[pc]))
    && (forall r, q | r in alloc && q in alloc && r != q && alloc[r] == alloc[q] :: MayShare(r, q))
  }

  /** What can happen to a thread between two instructions: its next instruction, in whatever memory and
      with whatever indices there are by then, or a restart by the kernel. */
  datatype Event = Tick(env: Env, m: Mem) | Restart

  /** What the rest of the system gets to see of an event. */
  datatype Seen = Seen(cs: Option<usize>, store: Option<Cell>, load: Option<usize>)

  predicate CanHappen(p: Program, c: Core, ev: Event) {
    match ev
    case Tick(_, _) => c.pc < |p.code|
    case Restart => InRange(p, c.pc)
  }

  function Happens(p: Program, c: Core, ev: Event): Core
    requires CanHappen(p, c, ev)
  {
    match ev
    case Tick(env, m) => Exec(p.code[c.pc], env, c, m).core
    case Restart => c.(pc := p.abort)
  }

  function Shows(p: Program, c: Core, ev: Event): Seen
    requires CanHappen(p, c, ev)
  {
    match ev
    case Tick(env, m) => var e := Exec(p.code[c.pc], env, c, m); Seen(e.cs, e.store, e.load)
    case Restart => Seen(None, None, None)
  }

  predicate CanRun(p: Program, c: Core, evs: seq<Event>)
    decreases |evs|
  {
    evs != [] ==> CanHappen(p, c, evs[0]) && CanRun(p, Happens(p, c, evs[0]), evs[1..])
  }

  function End(p: Program, c: Core, evs: seq<Event>): Core
    requires CanRun(p, c, evs)
    decreases |evs|
  {
    if evs == [] then c else End(p, Happens(p, c, evs[0]), evs[1..])
  }

  function Trace(p: Program, c: Core, evs: seq<Event>): seq<Seen>
    requires CanRun(p, c, evs)
    decreases |evs|
  {
    if evs == [] then [] else [Shows(p, c, evs[0])] + Trace(p, Happens(p, c, evs[0]), evs[1..])
  }

  /** A trace is as long as its run, and shows of every instruction what it stores and loads where the run has got to. */
  lemma {:induction false} TraceShown(p: Program, c: Core, evs: seq<Event>, k: nat)
    requires CanRun(p, c, evs) && k < |evs|
    ensures CanRun(p, c, evs[..k]) && |Trace(p, c, evs)| == |evs|
    ensures
      var d := End(p, c, evs[..k]);
      match evs[k]
      case Restart => InRange(p, d.pc) && Trace(p, c, evs)[k] == Seen(None, None, None)
      case Tick(env, m) =>
        && d.pc < |p.code|
        && var e := Exec(p.code[d.pc], env, d, m); Trace(p, c, evs)[k] == Seen(e.cs, e.store, e.load)
    decreases |evs|
  {
    hide Exec;
    var d := Happens(p, c, evs[0]);
    if k > 0 {
      assert evs[..k][1..] == evs[1..][..k - 1];
      TraceShown(p, d, evs[1..], k - 1);
    } else if |evs| > 1 {
      TraceShown(p, d, evs[1..], 0);
    }
  }

  /** The operands a register file holds under an assignment. */
  function Operand(alloc: Alloc, regs: map<Reg, usize>): map<Reg, usize> {
    map r | r in alloc :: Get(regs, alloc[r])
  }

  /** The same point of the block, with the same operands; past the commit the inputs are dead. */
  predicate Alike(p: Program, alloc: Alloc, c: Core, d: Core) {
    && c.pc == d.pc && c.eq == d.eq && (c.pc == 0 || p.abort <= c.pc <= |p.code|)
    && forall r | r in alloc && (c.pc < p.post || !IsInput(r)) :: Get(d.regs, alloc[r]) == Get(c.regs, r)
  }

  /** Renaming an instruction renames what it reads and writes, and nothing else. */
  lemma RenamedExec(alloc: Alloc, i: Instr, env: Env, c: Core, d: Core, m: Mem, e: Result, f: Result)
    requires e == Exec(i, env, c, m) && f == Exec(Renamed(alloc, i), env, d, m)
    requires c.pc == d.pc && c.eq == d.eq
    requires forall r | r in Sources(i) :: r in alloc && Get(d.regs, alloc[r]) == Get(c.regs, r)
    ensures f.cs == e.cs && f.store == e.store && f.load == e.load
    ensures f.core.pc == e.core.pc && f.core.eq == e.core.eq
    ensures match Target(i)
            case None => e.core.regs == c.regs && f.core.regs == d.regs
            case Some(w) => var v := Get(e.core.regs, w);
                            e.core.regs == c.regs[w := v] && f.core.regs == d.regs[At(alloc, w) := v]
  {
    hide Low32, PageOffset, WrapAdd;
  }

  /** Before the commit only scratch registers are written; after it, no input is read or written. */
  lemma TargetOk(p: Program, opcode: Opcode, kind: Kind, pc: nat)
    requires WellFormed(p, opcode, kind) && (pc == 0 || p.abort <= pc < |p.code|)
    ensures pc < p.post && Target(p.code[pc]).Some? ==> IsScratch(Target(p.code[pc]).value)
    ensures p.post <= pc && Target(p.code[pc]).Some? ==> !IsInput(Target(p.code[pc]).value)
    ensures p.post <= pc ==> forall r | r in Sources(p.code[pc]) :: !IsInput(r)
  {
    hide Checked, ScratchOk;
    if p.start <= pc { assert InstrOk(p, pc); }
  }

  /** The instruction pointer stays in the block, and never comes back from behind the commit by itself. */
  lemma NextPc(p: Program, opcode: Opcode, kind: Kind, env: Env, c: Core, m: Mem, e: Result)
    requires WellFormed(p, opcode, kind) && (c.pc == 0 || p.abort <= c.pc < |p.code|)
    requires e == Exec(p.code[c.pc], env, c, m)
    ensures p.abort <= e.core.pc <= |p.code| && c.pc < e.core.pc
  {
    hide Checked, ScratchOk, Low32, PageOffset, WrapAdd;
    if p.start <= c.pc { assert InstrOk(p, c.pc); }
  }

  /** One event takes like cores to like cores and looks the same from outside. */
  lemma AlikeStep(p: Program, opcode: Opcode, kind: Kind, alloc: Alloc, c: Core, d: Core, ev: Event)
    requires WellFormed(p, opcode, kind) && Allocates(p, alloc) && Alike(p, alloc, c, d)
    requires CanHappen(p, c, ev) || CanHappen(Emitted(p, alloc), d, ev)
    ensures CanHappen(p, c, ev) && CanHappen(Emitted(p, alloc), d, ev)
    ensures Shows(Emitted(p, alloc), d, ev) == Shows(p, c, ev)
    ensures Alike(p, alloc, Happens(p, c, ev), Happens(Emitted(p, alloc), d, ev))
  {
    hide Exec, Renamed, Sources, Target, WellFormed, InstrOk;
    if ev.Tick? {
      var i := p.code[c.pc];
      var e, f := Exec(i, ev.env, c, ev.m), Exec(Renamed(alloc, i), ev.env, d, ev.m);
      TargetOk(p, opcode, kind, c.pc);
      RenamedExec(alloc, i, ev.env, c, d, ev.m, e, f);
      NextPc(p, opcode, kind, ev.env, c, ev.m, e);
    } else {
      AbortInside(p, opcode, kind);
    }
  }

  lemma AbortInside(p: Program, opcode: Opcode, kind: Kind)
    requires WellFormed(p, opcode, kind)
    ensures p.abort < p.start < p.post < |p.code|
  {
    hide Checked;
  }

  /** Whatever the interruptions, interference and migrations, the emitted block makes the same stores
      to `rseq_cs` and to memory, the same loads, and gives the same answer as the block on its operands. */
  lemma {:induction false} AnyAllocation(arch: Arch, call: Call, alloc: Alloc, c: Core, d: Core, evs: seq<Event>)
    requires Allocates(BlockOf(arch, call), alloc) && Alike(BlockOf(arch, call), alloc, c, d)
    requires CanRun(BlockOf(arch, call), c, evs) || CanRun(Emitted(BlockOf(arch, call), alloc), d, evs)
    ensures
      var p, q := BlockOf(arch, call), Emitted(BlockOf(arch, call), alloc);
      && CanRun(p, c, evs) && CanRun(q, d, evs)
      && Trace(q, d, evs) == Trace(p, c, evs) && Alike(p, alloc, End(p, c, evs), End(q, d, evs))
    decreases |evs|
  {
    hide Block, WellFormed, Exec, Alike, Allocates;
    var p, q := BlockOf(arch, call), Emitted(BlockOf(arch, call), alloc);
    if evs != [] {
      EveryBlockWellFormed(arch, OpcodeOf(call.op), call.key.kind);
      AlikeStep(p, OpcodeOf(call.op), call.key.kind, alloc, c, d, evs[0]);
      AnyAllocation(arch, call, alloc, Happens(p, c, evs[0]), Happens(q, d, evs[0]), evs[1..]);
    }
  }

  ghost predicate SameInputs(regs: map<Reg, usize>, others: map<Reg, usize>) {
    forall r: Reg | IsInput(r) :: Get(others, r) == Get(regs, r)
  }

  /** Until the commit every restart finds its inputs as they were at the call. */
  lemma {:induction false} InputsStay(p: Program, opcode: Opcode, kind: Kind, c: Core, evs: seq<Event>)
    requires WellFormed(p, opcode, kind) && (c.pc == 0 || p.abort <= c.pc <= |p.code|) && CanRun(p, c, evs)
    ensures var d := End(p, c, evs); (d.pc == 0 || p.abort <= d.pc <= |p.code|) && (d.pc < p.post ==> SameInputs(c.regs, d.regs))
    ensures p.post <= c.pc ==> p.post <= End(p, c, evs).pc
    decreases |evs|
  {
    hide Exec, WellFormed, Sources, Target;
    AbortInside(p, opcode, kind);
    if evs != [] {
      var d := Happens(p, c, evs[0]);
      if evs[0].Tick? {
        var env, m := evs[0].env, evs[0].m;
        var e := Exec(p.code[c.pc], env, c, m);
        NextPc(p, opcode, kind, env, c, m, e);
        TargetOk(p, opcode, kind, c.pc);
        WritesTarget(p.code[c.pc], env, c, m, e);
        assert c.pc < p.post ==> SameInputs(c.regs, d.regs);
      }
      InputsStay(p, opcode, kind, d, evs[1..]);
    }
  }

  lemma WritesTarget(i: Instr, env: Env, c: Core, m: Mem, e: Result)
    requires e == Exec(i, env, c, m)
    ensures forall r: Reg | Target(i) != Some(r) :: Get(e.core.regs, r) == Get(c.regs, r)
  {
    hide Low32, PageOffset, WrapAdd;
  }

  /** A register file with its operands named, at the entry of a block. */
  lemma EntryAlike(p: Program, alloc: Alloc, d: Core)
    requires d.pc == 0
    ensures Alike(p, alloc, Core(0, Operand(alloc, d.regs), d.eq), d)
  {
  }

  /** Every operand of `compare_exchange` in its own register, but the status in that of `expected`. */
  const LATE: Alloc :=
    map r: Reg | 0 <= r <= Status && (r <= Update || Got <= r <= Current || r == Status) :: if r == Status then Expected else r

  lemma LateCovers(p: Program, kind: Kind, pc: nat)
    requires CompareExchangeShape(p, kind) && pc < |p.code|
    ensures Covers(LATE, p.code[pc])
  {
    if pc < p.start {
    } else if pc < p.post {
      hide Armed, Exits, MissAt;
    } else {
      hide Armed, Checked;
    }
  }

  /** On aarch64 the status may be put in the register of an input: it is written only when that is dead. */
  lemma LateStatus(kind: Kind)
    ensures Allocates(Block(Arm, OpCompareExchange, kind), LATE)
  {
    ArmCompareExchange(kind);
    var p := Block(Arm, OpCompareExchange, kind);
    assert p.status == Status && p.value == Current;
    hide Block, CompareExchangeShape, Covers;
    forall pc | 0 <= pc < |p.code| ensures Covers(LATE, p.code[pc]) { LateCovers(p, kind, pc); }
  }
}
