/** What one thread keeps true of its own critical sections, whatever the others do. */
module Sections {
  import opened Bits
  import opened Ops
  import opened Isa
  import opened Operands
  import opened Blocks
  import opened Stepping
  import opened Semantics
  import opened Machine

  /** `m` still holds everything the pass has seen. */
  ghost predicate Agrees(m: Mem, seen: Mem) {
    forall a | a in seen :: a in m && m[a] == seen[a]
  }

  /** The address of the descriptor, as far as it has been built in `Tmp`. */
  predicate TmpOk(p: Program, site: usize, c: Core) {
    && (c.pc == p.start - 1 ==> Get(c.regs, Tmp) == site)
    && (c.pc == p.start - 2 == p.abort + 1 ==> Get(c.regs, Tmp) == site - PageOffset(site))
  }

  /** The instruction pointer, the descriptor address being built and the input operands are intact. */
  predicate ContextOk(cfg: Config, area: Area, ctx: Context) {
    ctx.Active? ==>
      var p := ProgramOf(cfg, ctx);
      var c := ctx.core;
      && ctx.site in cfg.sites && cfg.sites[ctx.site] == Site(OpcodeOf(ctx.call.op), ctx.call.key.kind)
      && (c.pc == 0 || p.abort <= c.pc <= |p.code|)
      && (c.pc < p.post ==> Loaded(ctx.call, area.addr, c.regs))
      && TmpOk(p, ctx.site, c)
  }

  /** Bound to answer what the call means on any memory that agrees with what this pass has seen so far. */
  ghost predicate SectionOk(cfg: Config, area: Area, ctx: Context)
    requires ctx.Active?
  {
    && (ctx.call.op.StoreIf? && ctx.call.op.side != ctx.call.op.word && ctx.call.op.side in ctx.seen ==>
          ctx.seen[ctx.call.op.side] == ctx.call.op.sideUpdate)
    && forall m: Mem | Agrees(m, ctx.seen) ::
         Faithful(ProgramOf(cfg, ctx), EnvOf(area, ctx.site), ctx.call, ctx.core, ctx.seen, m)
  }

  /** The armed invariant: only the running context can be inside a range, with its own descriptor armed. */
  predicate ThreadArmed(cfg: Config, th: Thread) {
    && th.stack != []
    && (forall i | 0 <= i < |th.stack| :: ContextOk(cfg, th.area, th.stack[i]))
    && (forall i | 0 <= i < |th.stack| - 1 :: !InSection(cfg, th.stack[i]))
    && (InSection(cfg, Top(th)) ==> th.area.cs == Top(th).site)
  }

  ghost predicate ThreadOk(cfg: Config, th: Thread) {
    ThreadArmed(cfg, th) && (InSection(cfg, Top(th)) ==> SectionOk(cfg, th.area, Top(th)))
  }

  /** The scratch store of a `store_if` must not change what the call compares: its side word is another
      word, or is given the value its word is compared with. */
  predicate Proper(call: Call) {
    call.op.StoreIf? ==> call.op.side != call.op.word || call.op.sideUpdate == call.op.expected
  }

  /** What an instruction touches is still what the pass saw there. */
  predicate Unspoiled(e: Result, seen: Mem, m: Mem) {
    e.load.Some? && e.load.value in seen ==> e.load.value in m && m[e.load.value] == seen[e.load.value]
  }

  lemma IndexAgrees(area: Area, site: usize, kind: Kind)
    ensures Index(EnvOf(area, site), kind) == IndexOf(area, kind)
  {
  }

  /** The fix-up takes a context that is inside its range, with its descriptor armed, to its abort point. */
  lemma FixedUp(cfg: Config, area: Area, ctx: Context)
    requires ContextOk(cfg, area, ctx) && (InSection(cfg, ctx) ==> area.cs == ctx.site)
    ensures !InSection(cfg, FixUp(cfg, area.cs, ctx))
    ensures forall a: Area | a.addr == area.addr :: ContextOk(cfg, a, FixUp(cfg, area.cs, ctx))
  {
    if ctx.Active? { EveryBlockWellFormed(cfg.arch, OpcodeOf(ctx.call.op), ctx.call.key.kind); }
    hide Loaded, Block, Checked, InstrOk, ScratchOk;
  }

  /** After the kernel has been through, the running context is outside every range. */
  lemma KickLeavesSection(cfg: Config, th: Thread)
    requires ThreadArmed(cfg, th)
    ensures ThreadArmed(cfg, Kick(cfg, th)) && !InSection(cfg, Top(Kick(cfg, th)))
    ensures Kick(cfg, th).area == th.area.(cs := 0) && |Kick(cfg, th).stack| == |th.stack|
  {
    hide Loaded, FixUp, InSection, TmpOk, ContextOk;
    FixedUp(cfg, th.area, Top(th));
    var k := Kick(cfg, th);
    forall i | 0 <= i < |k.stack| ensures ContextOk(cfg, k.area, k.stack[i]) {
      assert ContextOk(cfg, th.area, th.stack[i]);
      if i < |k.stack| - 1 { SameArea(cfg, th.area, k.area, th.stack[i]); }
    }
    forall i | 0 <= i < |k.stack| - 1 ensures !InSection(cfg, k.stack[i]) {
      assert !InSection(cfg, th.stack[i]);
    }
  }

  lemma SameArea(cfg: Config, a: Area, b: Area, ctx: Context)
    requires ContextOk(cfg, a, ctx) && a.addr == b.addr
    ensures ContextOk(cfg, b, ctx)
  {
    hide Block, Loaded;
  }

  ghost predicate InputsKept(before: map<Reg, usize>, after: map<Reg, usize>) {
    forall r: Reg | IsInput(r) :: Get(after, r) == Get(before, r)
  }

  lemma LoadedKept(call: Call, area: usize, before: map<Reg, usize>, after: map<Reg, usize>)
    requires Loaded(call, area, before) && InputsKept(before, after)
    ensures Loaded(call, area, after)
  {
    hide Low32;
  }

  /** The context after one instruction of it. */
  function Stepped(cfg: Config, ctx: Context, e: Result, m: Mem): Context
    requires ctx.Active?
  {
    ctx.(core := e.core, seen := if ctx.core.pc < ProgramOf(cfg, ctx).start then map[] else Note(ctx.seen, e, m))
  }

  lemma EntryExec(p: Program, env: Env, c: Core, m: Mem, e: Result)
    requires Armed(p) && (c.pc == 0 || p.abort <= c.pc < p.start)
    requires Get(c.regs, Rseq) == env.area && TmpOk(p, env.site, c)
    requires e == Exec(p.code[c.pc], env, c, m)
    ensures e.store.None? && e.load.None?
    ensures p.abort <= e.core.pc <= p.start && TmpOk(p, env.site, e.core)
    ensures InputsKept(c.regs, e.core.regs)
    ensures e.cs == if e.core.pc == p.start then Some(env.site) else None
  {
    hide PageOffset;
    if c.pc == 0 {
    } else if c.pc == p.start - 1 {
    } else if p.start == 4 {
      assert p.code[c.pc] == Lea(Tmp);
    } else if c.pc == 2 {
      assert p.code[c.pc] == Adrp(Tmp);
    } else {
      assert p.code[c.pc] == AddLo12(Tmp);
    }
  }

  /** Before the range: no memory access, and the range is entered only by arming its own descriptor. */
  lemma EntryStep(cfg: Config, area: Area, ctx: Context, m: Mem, e: Result)
    requires ctx.Active? && ContextOk(cfg, area, ctx) && ctx.core.pc < ProgramOf(cfg, ctx).start
    requires e == Exec(ProgramOf(cfg, ctx).code[ctx.core.pc], EnvOf(area, ctx.site), ctx.core, m)
    ensures e.store.None? && e.load.None?
    ensures ContextOk(cfg, area, Stepped(cfg, ctx, e, m))
    ensures e.core.pc <= ProgramOf(cfg, ctx).start
    ensures e.cs == if e.core.pc == ProgramOf(cfg, ctx).start then Some(ctx.site) else None
  {
    var p := ProgramOf(cfg, ctx);
    EveryBlockWellFormed(cfg.arch, OpcodeOf(ctx.call.op), ctx.call.key.kind);
    hide Exec, BlockOf, ScratchOk, InstrOk, Checked, Low32, PageOffset;
    assert Get(ctx.core.regs, Rseq) == area.addr;
    EntryExec(p, EnvOf(area, ctx.site), ctx.core, m, e);
    LoadedKept(ctx.call, area.addr, ctx.core.regs, e.core.regs);
  }

  /** One instruction inside the range, as far as it can be told from the program's shape alone. */
  lemma RangeExec(p: Program, opcode: Opcode, kind: Kind, env: Env, c: Core, m: Mem, e: Result)
    requires WellFormed(p, opcode, kind) && InRange(p, c.pc)
    requires e == Exec(p.code[c.pc], env, c, m)
    ensures e.cs.None? && InputsKept(c.regs, e.core.regs)
    ensures e.core.pc == c.pc + 1 || p.post <= e.core.pc <= |p.code|
    ensures e.core.pc < p.post && e.store.Some? ==>
              opcode == OpStoreIf && e.store.value == Cell(Get(c.regs, SidePtr), Get(c.regs, SideUpdate))
    ensures e.core.pc < p.post && e.load.Some? && opcode == OpStoreIf ==> e.load.value == Get(c.regs, WordPtr)
    ensures e.core.pc < p.post ==> e.load.None? || e.store.None?
    ensures e.store.Some? || c.pc == p.post - 1 ==> e.core.pc == c.pc + 1
  {
    hide Checked, Low32;
    assert InstrOk(p, c.pc) && ScratchOk(p, opcode, c.pc);
  }

  /** What the pass still agrees with after an instruction, it agreed with before. */
  lemma AgreesBefore(ctx: Context, e: Result, m: Mem, n: Mem)
    requires ctx.Active?
    requires Agrees(n, Note(ctx.seen, e, m)) && Unspoiled(e, ctx.seen, m)
    requires e.load.Some? ==> e.load.value in m
    requires e.load.None? || e.store.None?
    requires e.store.Some? && e.store.value.addr in ctx.seen ==> ctx.seen[e.store.value.addr] == e.store.value.value
    ensures Agrees(n, ctx.seen)
    ensures e.load.Some? ==> Read(n, e.load.value) == Read(m, e.load.value)
    ensures After(n, e.store) == n
  {
    var seen := Note(ctx.seen, e, m);
    if e.load.Some? { assert e.load.value in seen; }
    if e.store.Some? { assert e.store.value.addr in seen; }
    forall a | a in ctx.seen ensures a in n && n[a] == ctx.seen[a] {
      assert a in seen;
    }
  }

  /** The same instruction on two memories that hold the same at the address it loads. */
  lemma ExecAgrees(i: Instr, env: Env, c: Core, m: Mem, n: Mem)
    requires Exec(i, env, c, m).load.Some? ==>
               Read(n, Exec(i, env, c, m).load.value) == Read(m, Exec(i, env, c, m).load.value)
    ensures Exec(i, env, c, n) == Exec(i, env, c, m)
  {
    hide Low32, PageOffset;
  }

  /** The heart of restartability: a pass that goes on is still bound to its call's meaning. */
  lemma FaithfulStep(p: Program, env: Env, call: Call, c: Core, seen: Mem, m: Mem, e: Result, n: Mem)
    requires c.pc < |p.code| && e == Exec(p.code[c.pc], env, c, m) && e.core.pc > c.pc
    requires e.load.Some? ==> Read(n, e.load.value) == Read(m, e.load.value)
    requires After(n, e.store) == n
    requires Faithful(p, env, call, c, seen, n)
    ensures Faithful(p, env, call, e.core, Note(seen, e, m), n)
  {
    hide Exec, Meaning;
    ExecAgrees(p.code[c.pc], env, c, m, n);
  }

  /** A scratch store is followed by the commit, and by Ok. */
  lemma ScratchThenOk(p: Program, kind: Kind, env: Env, c: Core, m: Mem)
    requires StoreIfShape(p, kind) && c.pc == p.start + 6
    ensures Remaining(p, env, c, m).attempt.Ok?
  {
    hide Armed, Checked, MissAt, Low32;
    var c7, n7 := Exec(p.code[c.pc], env, c, m).core, After(m, Exec(p.code[c.pc], env, c, m).store);
    var c8, n8 := Exec(p.code[c7.pc], env, c7, n7).core, After(n7, Exec(p.code[c7.pc], env, c7, n7).store);
    var c9 := Exec(p.code[p.post], env, c8, n8).core;
    var c10 := Exec(p.code[p.post + 1], env, c9, n8).core;
    hide Exec;
    assert Remaining(p, env, c10, n8).attempt == FromStatus(0, Get(c10.regs, p.value));
    assert Remaining(p, env, c9, n8) == Remaining(p, env, c10, n8);
    assert Remaining(p, env, c8, n8) == Remaining(p, env, c9, n8);
    assert Remaining(p, env, c7, n7) == Remaining(p, env, c8, n8);
  }

  lemma StoreIfBlock(arch: Arch, kind: Kind)
    ensures StoreIfShape(Block(arch, OpStoreIf, kind), kind)
  {
    hide StoreIfShape;
    if arch == Arm { ArmStoreIf(kind); } else { IntelStoreIf(kind); }
  }

  /** Which instruction is a scratch store. */
  lemma ScratchPlace(p: Program, kind: Kind, env: Env, c: Core, m: Mem, e: Result)
    requires StoreIfShape(p, kind) && InRange(p, c.pc) && e == Exec(p.code[c.pc], env, c, m)
    requires e.store.Some? && e.core.pc < p.post
    ensures c.pc == p.start + 6
  {
    hide Armed, Exits, MissAt, Low32;
  }

  /** A pass that comes to its scratch store succeeds on every memory it could be in. */
  lemma ScratchSucceeds(cfg: Config, area: Area, ctx: Context, m: Mem, e: Result, n: Mem)
    requires ContextOk(cfg, area, ctx) && InSection(cfg, ctx) && SectionOk(cfg, area, ctx) && Agrees(n, ctx.seen)
    requires ctx.call.op.StoreIf? && e == Exec(ProgramOf(cfg, ctx).code[ctx.core.pc], EnvOf(area, ctx.site), ctx.core, m)
    requires e.store.Some? && e.core.pc < ProgramOf(cfg, ctx).post
    ensures Meaning(ctx.call, IndexOf(area, ctx.call.key.kind), n).attempt.Ok?
    ensures Read(n, ctx.call.op.word) == ctx.call.op.expected
  {
    var p, env, kind := ProgramOf(cfg, ctx), EnvOf(area, ctx.site), ctx.call.key.kind;
    assert Faithful(p, env, ctx.call, ctx.core, ctx.seen, n);
    hide Exec, Block, SectionOk, ContextOk, StoreIfShape, Remaining, Within;
    StoreIfBlock(cfg.arch, kind);
    ScratchPlace(p, kind, env, ctx.core, m, e);
    ScratchThenOk(p, kind, env, ctx.core, n);
    IndexAgrees(area, ctx.site, kind);
  }

  /** One instruction inside the range keeps the section sound, or leaves the range. */
  lemma SectionStep(cfg: Config, area: Area, ctx: Context, m: Mem, e: Result)
    requires ContextOk(cfg, area, ctx) && InSection(cfg, ctx) && SectionOk(cfg, area, ctx) && Proper(ctx.call)
    requires e == Exec(ProgramOf(cfg, ctx).code[ctx.core.pc], EnvOf(area, ctx.site), ctx.core, m)
    requires Unspoiled(e, ctx.seen, m) && Touches(e, m.Keys)
    ensures e.cs.None? && e.core.pc > ctx.core.pc
    ensures ContextOk(cfg, area, Stepped(cfg, ctx, e, m))
    ensures InSection(cfg, Stepped(cfg, ctx, e, m)) ==> SectionOk(cfg, area, Stepped(cfg, ctx, e, m))
    ensures InSection(cfg, Stepped(cfg, ctx, e, m)) && e.store.Some? ==>
              ctx.call.op.StoreIf? && e.store.value == Cell(ctx.call.op.side, ctx.call.op.sideUpdate)
  {
    var p := ProgramOf(cfg, ctx);
    var call := ctx.call;
    EveryBlockWellFormed(cfg.arch, OpcodeOf(call.op), call.key.kind);
    RangeExec(p, OpcodeOf(call.op), call.key.kind, EnvOf(area, ctx.site), ctx.core, m, e);
    hide Exec, BlockOf, WellFormed, Faithful, Low32, PageOffset;
    LoadedKept(call, area.addr, ctx.core.regs, e.core.regs);
    var next := Stepped(cfg, ctx, e, m);
    if InSection(cfg, next) {
      if e.store.Some? { ScratchSucceeds(cfg, area, ctx, m, e, ctx.seen); }
      forall n: Mem | Agrees(n, next.seen) ensures Faithful(p, EnvOf(area, next.site), call, next.core, next.seen, n) {
        AgreesBefore(ctx, e, m, n);
        FaithfulStep(p, EnvOf(area, ctx.site), call, ctx.core, ctx.seen, m, e, n);
      }
    }
  }

  /** After the range: register moves only, the same whatever the memory and the indices are. */
  lemma TailExec(p: Program, opcode: Opcode, kind: Kind, env: Env, c: Core, m: Mem, e: Result)
    requires WellFormed(p, opcode, kind) && p.post <= c.pc < |p.code|
    requires e == Exec(p.code[c.pc], env, c, m)
    ensures e.cs.None? && e.store.None? && e.load.None?
    ensures c.pc < e.core.pc <= |p.code|
    ensures forall env2, m2 :: Exec(p.code[c.pc], env2, c, m2) == e
  {
    hide Checked, Low32;
    assert InstrOk(p, c.pc) && ScratchOk(p, opcode, c.pc);
  }

  const NOWHERE: Env := Env(0, 0, 0, 0)

  /** The answer a context past its range will give. */
  function Settled(cfg: Config, ctx: Context): Attempt
    requires ctx.Active?
  {
    Remaining(ProgramOf(cfg, ctx), NOWHERE, ctx.core, map[]).attempt
  }

  lemma SettledCore(cfg: Config, a: Context, b: Context)
    requires a.Active? && b.Active? && a.call == b.call && a.core == b.core
    ensures Settled(cfg, a) == Settled(cfg, b)
  {
  }

  /** The commit falls through to Ok. */
  lemma SettledAtPost(cfg: Config, ctx: Context)
    requires ctx.Active? && Exits(ProgramOf(cfg, ctx)) && ctx.core.pc == ProgramOf(cfg, ctx).post
    ensures Settled(cfg, ctx).Ok?
  {
    hide Block;
    var p := ProgramOf(cfg, ctx);
    var c1 := Exec(p.code[p.post], NOWHERE, ctx.core, map[]).core;
    var c2 := Exec(p.code[p.post + 1], NOWHERE, c1, map[]).core;
    assert Remaining(p, NOWHERE, c2, map[]).attempt == FromStatus(0, Get(c2.regs, p.value));
    assert Remaining(p, NOWHERE, c1, map[]) == Remaining(p, NOWHERE, c2, map[]);
  }

  /** A failed compare ends in Miss, and an index mismatch in Abort. */
  lemma SettledAtExit(cfg: Config, ctx: Context)
    requires ctx.Active? && Exits(ProgramOf(cfg, ctx))
    ensures MissAt(ProgramOf(cfg, ctx), ctx.core.pc) ==> Settled(cfg, ctx).Miss?
    ensures ctx.core.pc == |ProgramOf(cfg, ctx).code| - 2 ==> Settled(cfg, ctx) == Abort
  {
    hide Block;
    var p := ProgramOf(cfg, ctx);
    if MissAt(p, ctx.core.pc) {
      var c1 := Exec(p.code[ctx.core.pc], NOWHERE, ctx.core, map[]).core;
      var c2 := Exec(p.code[ctx.core.pc + 1], NOWHERE, c1, map[]).core;
      assert Remaining(p, NOWHERE, c2, map[]).attempt == FromStatus(1, Get(c2.regs, p.value));
      assert Remaining(p, NOWHERE, c1, map[]) == Remaining(p, NOWHERE, c2, map[]);
    } else if ctx.core.pc == |p.code| - 2 {
      var c1 := Exec(p.code[ctx.core.pc], NOWHERE, ctx.core, map[]).core;
      var c2 := Exec(p.code[ctx.core.pc + 1], NOWHERE, c1, map[]).core;
      assert Remaining(p, NOWHERE, c2, map[]).attempt == FromStatus(2, Get(c2.regs, p.value));
      assert Remaining(p, NOWHERE, c1, map[]) == Remaining(p, NOWHERE, c2, map[]);
    }
  }

  /** Past the range, nothing outside the registers can change the answer any more. */
  lemma {:induction false} TailSettled(p: Program, opcode: Opcode, kind: Kind, env: Env, c: Core, m: Mem)
    requires WellFormed(p, opcode, kind) && p.post <= c.pc
    ensures Remaining(p, env, c, m) == Rest(Remaining(p, NOWHERE, c, map[]).attempt, m)
    decreases |p.code| - c.pc
  {
    hide WellFormed, Exec;
    if c.pc < |p.code| {
      var e := Exec(p.code[c.pc], env, c, m);
      TailExec(p, opcode, kind, env, c, m, e);
      assert Exec(p.code[c.pc], NOWHERE, c, map[]) == e;
      TailSettled(p, opcode, kind, env, e.core, m);
    }
  }

  /** Inside the range an instruction goes forward and keeps the operands, whatever memory holds. */
  lemma RangeStep(cfg: Config, area: Area, ctx: Context, m: Mem, e: Result)
    requires ContextOk(cfg, area, ctx) && InSection(cfg, ctx)
    requires e == Exec(ProgramOf(cfg, ctx).code[ctx.core.pc], EnvOf(area, ctx.site), ctx.core, m)
    ensures e.cs.None? && e.core.pc > ctx.core.pc
    ensures ContextOk(cfg, area, Stepped(cfg, ctx, e, m))
  {
    var p, call := ProgramOf(cfg, ctx), ctx.call;
    EveryBlockWellFormed(cfg.arch, OpcodeOf(call.op), call.key.kind);
    RangeExec(p, OpcodeOf(call.op), call.key.kind, EnvOf(area, ctx.site), ctx.core, m, e);
    hide Exec, BlockOf, WellFormed, Low32, PageOffset;
    LoadedKept(call, area.addr, ctx.core.regs, e.core.regs);
  }

  /** An instruction of any thread keeps the armed invariant, whatever memory holds. */
  lemma ArmedStep(cfg: Config, th: Thread, m: Mem)
    requires ThreadArmed(cfg, th) && Top(th).Active? && Top(th).core.pc < |ProgramOf(cfg, Top(th)).code|
    ensures ThreadArmed(cfg, StepThread(cfg, th, m))
  {
    var ctx := Top(th);
    var p := ProgramOf(cfg, ctx);
    var e := ExecTop(cfg, th, m);
    var opcode, kind := OpcodeOf(ctx.call.op), ctx.call.key.kind;
    var next := StepThread(cfg, th, m);
    assert ContextOk(cfg, th.area, ctx);
    EveryBlockWellFormed(cfg.arch, opcode, kind);
    hide Exec, BlockOf, Low32, PageOffset, Note, WellFormed, Loaded;
    var after := Stepped(cfg, ctx, e, m);
    assert ContextOk(cfg, th.area, after) && (InSection(cfg, after) ==> next.area.cs == ctx.site) by {
      if ctx.core.pc < p.start {
        EntryStep(cfg, th.area, ctx, m, e);
      } else if ctx.core.pc < p.post {
        RangeStep(cfg, th.area, ctx, m, e);
      } else {
        TailExec(p, opcode, kind, EnvOf(th.area, ctx.site), ctx.core, m, e);
      }
    }
    hide ContextOk, InSection;
    assert Top(next) == after;
    forall i | 0 <= i < |next.stack| ensures ContextOk(cfg, next.area, next.stack[i]) {
      assert ContextOk(cfg, th.area, th.stack[i]);
      SameArea(cfg, th.area, next.area, if i < |th.stack| - 1 then th.stack[i] else after);
    }
    forall i | 0 <= i < |next.stack| - 1 ensures !InSection(cfg, next.stack[i]) {
      assert !InSection(cfg, th.stack[i]);
    }
  }

  /** An instruction of any thread keeps that thread's critical sections sound. */
  lemma ThreadStep(cfg: Config, th: Thread, m: Mem)
    requires ThreadOk(cfg, th) && Top(th).Active? && Top(th).core.pc < |ProgramOf(cfg, Top(th)).code|
    requires Proper(Top(th).call)
    requires Unspoiled(ExecTop(cfg, th, m), Top(th).seen, m) && Touches(ExecTop(cfg, th, m), m.Keys)
    ensures ThreadOk(cfg, StepThread(cfg, th, m))
  {
    var ctx := Top(th);
    var p := ProgramOf(cfg, ctx);
    var e := ExecTop(cfg, th, m);
    var next := StepThread(cfg, th, m);
    ArmedStep(cfg, th, m);
    assert ContextOk(cfg, th.area, ctx);
    EveryBlockWellFormed(cfg.arch, OpcodeOf(ctx.call.op), ctx.call.key.kind);
    hide Exec, BlockOf, Faithful, Low32, PageOffset, Note, ThreadArmed;
    assert Top(next) == Stepped(cfg, ctx, e, m);
    if ctx.core.pc < p.start {
      EntryStep(cfg, th.area, ctx, m, e);
      if e.core.pc == p.start {
        forall n: Mem ensures Faithful(p, EnvOf(next.area, ctx.site), ctx.call, e.core, map[], n) {
          EveryBlockFaithful(cfg.arch, EnvOf(next.area, ctx.site), ctx.call, e.core, n);
        }
      }
    } else if ctx.core.pc < p.post {
      SectionStep(cfg, th.area, ctx, m, e);
    } else {
      TailExec(p, OpcodeOf(ctx.call.op), ctx.call.key.kind, EnvOf(th.area, ctx.site), ctx.core, m, e);
    }
  }
}
