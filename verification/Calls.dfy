/** Whole calls, from their beginning to their answer, over all the passes they take. */
module Calls {
  import opened Bits
  import opened Ops
  import opened Isa
  import opened Operands
  import opened Blocks
  import opened Stepping
  import opened Machine
  import opened Sections
  import opened Atomic
  import opened Refinement
  import opened Safety
  import opened Registers

  /** A call is a context of a thread: handlers may come and go above it. */
  predicate Underway(s: State, t: Tid, i: nat, call: Call) {
    t in s.threads && i < |s.threads[t].stack| && s.threads[t].stack[i].Active? && s.threads[t].stack[i].call == call
  }

  function ContextAt(s: State, t: Tid, i: nat, call: Call): Context
    requires Underway(s, t, i, call)
  {
    s.threads[t].stack[i]
  }

  /** The call is underway in every state of the run. */
  predicate Throughout(cfg: Config, s: State, ls: seq<Label>, t: Tid, i: nat, call: Call)
    requires ValidRun(cfg, s, ls)
    decreases |ls|
  {
    Underway(StateAfter(cfg, s, ls), t, i, call) && (ls != [] ==> Throughout(cfg, s, ls[..|ls| - 1], t, i, call))
  }

  /** An instruction of the call itself. */
  predicate Own(s: State, l: Label, t: Tid, i: nat) {
    l == Step(t) && t in s.threads && |s.threads[t].stack| == i + 1
  }

  /** What an instruction of the call stores and loads. */
  function StoreOf(cfg: Config, s: State, l: Label, t: Tid, i: nat): seq<Cell>
    requires Enabled(cfg, s, l)
  {
    if Own(s, l, t, i) then match ExecTop(cfg, s.threads[t], s.mem).store case None => [] case Some(cell) => [cell] else []
  }

  function LoadOf(cfg: Config, s: State, l: Label, t: Tid, i: nat): seq<usize>
    requires Enabled(cfg, s, l)
  {
    if Own(s, l, t, i) then match ExecTop(cfg, s.threads[t], s.mem).load case None => [] case Some(a) => [a] else []
  }

  /** What the call's own instructions have stored and loaded, pass after pass. */
  function Stored(cfg: Config, s: State, ls: seq<Label>, t: Tid, i: nat): seq<Cell>
    requires ValidRun(cfg, s, ls)
    decreases |ls|
  {
    if ls == [] then []
    else
      var front, l := ls[..|ls| - 1], ls[|ls| - 1];
      Stored(cfg, s, front, t, i) + StoreOf(cfg, StateAfter(cfg, s, front), l, t, i)
  }

  function Fetched(cfg: Config, s: State, ls: seq<Label>, t: Tid, i: nat): seq<usize>
    requires ValidRun(cfg, s, ls)
    decreases |ls|
  {
    if ls == [] then []
    else
      var front, l := ls[..|ls| - 1], ls[|ls| - 1];
      Fetched(cfg, s, front, t, i) + LoadOf(cfg, StateAfter(cfg, s, front), l, t, i)
  }

  /** A step that is not the call's own stores to an address. */
  predicate OtherStore(cfg: Config, s: State, l: Label, t: Tid, i: nat, a: usize)
    requires Enabled(cfg, s, l)
  {
    && !Own(s, l, t, i)
    && ((l.Plain? && l.addr == a)
        || (l.Step? && ExecTop(cfg, s.threads[l.t], s.mem).store.Some? && ExecTop(cfg, s.threads[l.t], s.mem).store.value.addr == a))
  }

  /** Nobody else stores to an address during the call. */
  predicate Guarded(cfg: Config, s: State, ls: seq<Label>, t: Tid, i: nat, a: usize)
    requires ValidRun(cfg, s, ls)
    decreases |ls|
  {
    ls != [] ==>
      && Guarded(cfg, s, ls[..|ls| - 1], t, i, a)
      && !OtherStore(cfg, StateAfter(cfg, s, ls[..|ls| - 1]), ls[|ls| - 1], t, i, a)
  }

  /** The kernel's fix-up is applied to a thread. */
  predicate Interrupts(s: State, l: Label, t: Tid) {
    match l
    case Resume(u, _, _) => u == t
    case Signal(u) => u == t
    case FenceCpu(u, cpu) => Hit(s, u, Some(cpu), t)
    case FenceAll(u) => Hit(s, u, None, t)
    case _ => false
  }

  /** The thread is never interrupted during the call. */
  predicate Calm(cfg: Config, s: State, ls: seq<Label>, t: Tid)
    requires ValidRun(cfg, s, ls)
    decreases |ls|
  {
    ls != [] ==>
      && Calm(cfg, s, ls[..|ls| - 1], t)
      && !Interrupts(StateAfter(cfg, s, ls[..|ls| - 1]), ls[|ls| - 1], t)
  }

  /** A step that is not the call's own leaves it where it is, or restarts its pass. */
  lemma OtherStep(cfg: Config, s: State, l: Label, t: Tid, i: nat, call: Call)
    requires Enabled(cfg, s, l) && Underway(s, t, i, call) && Underway(Next(cfg, s, l), t, i, call)
    requires ThreadArmed(cfg, s.threads[t]) && !Own(s, l, t, i)
    ensures
      var ctx, next := ContextAt(s, t, i, call), ContextAt(Next(cfg, s, l), t, i, call);
      next == ctx || (InSection(cfg, ctx) && next == ctx.(core := ctx.core.(pc := ProgramOf(cfg, ctx).abort)) && Interrupts(s, l, t))
  {
    hide Exec, Block, Loaded, PageOffset;
    var th, next := s.threads[t], Next(cfg, s, l).threads[t];
    if |th.stack| == i + 1 {
      assert ContextOk(cfg, th.area, Top(th));
      hide ContextOk;
      FixUpCases(cfg, th.area, Top(th));
      hide FixUp, StepThread;
    } else {
      hide FixUp, ContextOk;
    }
  }

  lemma FixUpCases(cfg: Config, area: Area, ctx: Context)
    requires ContextOk(cfg, area, ctx) && ctx.Active?
    ensures FixUp(cfg, area.cs, ctx) == ctx
            || (InSection(cfg, ctx) && FixUp(cfg, area.cs, ctx) == ctx.(core := ctx.core.(pc := ProgramOf(cfg, ctx).abort)))
  {
    hide Block;
  }

  /** The pass that answers Miss or Abort has not stored to `side`. */
  lemma LastPassStoreIf(cfg: Config, s: State, t: Tid)
    requires Inv(cfg, s) && Commits(cfg, s, t) && !CommitEffect(cfg, s, t).attempt.Ok?
    requires Top(s.threads[t]).call.op.StoreIf? && Top(s.threads[t]).call.op.side != Top(s.threads[t]).call.op.word
    ensures Top(s.threads[t]).call.op.side !in Top(s.threads[t]).seen
  {
    LastPassAccess(cfg, s, t);
    hide Inv, Commits;
  }

  /** The pass that answers Miss or Abort has not dereferenced anything. */
  lemma LastPassLoadIfNe(cfg: Config, s: State, t: Tid)
    requires Inv(cfg, s) && Commits(cfg, s, t) && !CommitEffect(cfg, s, t).attempt.Ok?
    requires Top(s.threads[t]).call.op.LoadIfNe?
    ensures Top(s.threads[t]).seen.Keys <= {Top(s.threads[t]).call.op.word}
  {
    LastPassAccess(cfg, s, t);
    hide Inv, Commits;
  }

  lemma LastPassAccess(cfg: Config, s: State, t: Tid)
    requires Inv(cfg, s) && Commits(cfg, s, t)
    ensures Top(s.threads[t]).seen.Keys <= CommitEffect(cfg, s, t).access && InSection(cfg, Top(s.threads[t]))
  {
    var th := s.threads[t];
    var ctx := Top(th);
    RunningContext(cfg, s, t);
    EveryBlockWellFormed(cfg.arch, OpcodeOf(ctx.call.op), ctx.call.key.kind);
    Ranged(ProgramOf(cfg, ctx), OpcodeOf(ctx.call.op), ctx.call.key.kind);
    hide Exec, Block, Meaning, ContextOk, Inv, Holds, WellFormed;
    if ctx.core.pc < ProgramOf(cfg, ctx).start {
      EntryStep(cfg, th.area, ctx, s.mem, ExecTop(cfg, th, s.mem));
    }
    IndexAgrees(th.area, ctx.site, ctx.call.key.kind);
    assert Faithful(ProgramOf(cfg, ctx), EnvOf(th.area, ctx.site), ctx.call, ctx.core, ctx.seen, s.mem);
  }

  /** One instruction of `store_if` inside its range. */
  lemma StoreIfExec(p: Program, kind: Kind, env: Env, c: Core, m: Mem, e: Result)
    requires StoreIfShape(p, kind) && InRange(p, c.pc) && e == Exec(p.code[c.pc], env, c, m)
    ensures e.store == if c.pc == p.start + 6 then Some(Cell(Get(c.regs, SidePtr), Get(c.regs, SideUpdate)))
                       else if c.pc == p.post - 1 then Some(Cell(Get(c.regs, WordPtr), Get(c.regs, Update))) else None
    ensures e.core.pc == c.pc + 1
            || (c.pc < p.post - 1 && e.store == None && (e.core.pc == |p.code| - 2 || MissAt(p, e.core.pc)))
  {
    hide Low32, Armed, Exits;
  }

  /** An instruction of a `store_if`, in one memory: what it stores, and what the call is then. */
  lemma StoreIfOwn(cfg: Config, s: State, t: Tid)
    requires Inv(cfg, s) && Enabled(cfg, s, Step(t)) && Top(s.threads[t]).call.op.StoreIf?
    requires Top(s.threads[t]).call.op.side != Top(s.threads[t]).call.op.word
    ensures
      var ctx, e, next := Top(s.threads[t]), ExecTop(cfg, s.threads[t], s.mem), Top(Next(cfg, s, Step(t)).threads[t]);
      var op, p := ctx.call.op, ProgramOf(cfg, ctx);
      && next.Active? && next.call == ctx.call && next.core.pc == e.core.pc > ctx.core.pc
      && Next(cfg, s, Step(t)).mem == After(s.mem, e.store)
      && if ctx.core.pc < p.start then
           e.store == None && e.core.pc <= p.start < p.post
         else if ctx.core.pc < p.post && e.core.pc < p.post then
           && ctx.seen.Keys <= next.seen.Keys
           && (e.store.Some? ==> e.store.value == Cell(op.side, op.sideUpdate) && op.side in next.seen
                                 && Read(s.mem, op.word) == op.expected)
         else if ctx.core.pc < p.post then
           if Settled(cfg, next).Ok? then e.store == Some(Cell(op.word, op.update))
           else e.store == None && op.side !in ctx.seen && (Settled(cfg, next).Miss? ==> Read(s.mem, op.word) != op.expected)
         else e.store == None && Settled(cfg, next) == Settled(cfg, ctx)
  {
    var th := s.threads[t];
    var ctx, e := Top(th), ExecTop(cfg, th, s.mem);
    var p, kind, opcode, env := ProgramOf(cfg, ctx), ctx.call.key.kind, OpcodeOf(ctx.call.op), EnvOf(th.area, ctx.site);
    var next := Stepped(cfg, ctx, e, s.mem);
    RunningContext(cfg, s, t);
    EveryBlockWellFormed(cfg.arch, opcode, kind);
    Ranged(p, opcode, kind);
    TopStepped(cfg, s, t);
    NextPc(p, opcode, kind, env, ctx.core, s.mem, e);
    hide Inv, Next, Exec, Block, Settled, Meaning, WellFormed, SectionOk, Note, ExecTop, StepThread, Loaded, TmpOk;
    if ctx.core.pc < p.start {
      EntryStep(cfg, th.area, ctx, s.mem, e);
    } else if ctx.core.pc < p.post {
      StoreIfInside(cfg, s, t, e);
    } else {
      TailExec(p, opcode, kind, env, ctx.core, s.mem, e);
      assert Exec(p.code[ctx.core.pc], NOWHERE, ctx.core, map[]) == e;
      SettledStep(cfg, ctx, s.mem, e);
    }
  }

  lemma TopStepped(cfg: Config, s: State, t: Tid)
    requires Enabled(cfg, s, Step(t))
    ensures
      var e := ExecTop(cfg, s.threads[t], s.mem);
      && Top(Next(cfg, s, Step(t)).threads[t]) == Stepped(cfg, Top(s.threads[t]), e, s.mem)
      && Next(cfg, s, Step(t)).mem == After(s.mem, e.store)
      && |Next(cfg, s, Step(t)).threads[t].stack| == |s.threads[t].stack|
  {
    hide Exec, Block, Note;
  }

  lemma StoreIfInside(cfg: Config, s: State, t: Tid, e: Result)
    requires Inv(cfg, s) && Enabled(cfg, s, Step(t)) && Top(s.threads[t]).call.op.StoreIf?
    requires Top(s.threads[t]).call.op.side != Top(s.threads[t]).call.op.word
    requires InSection(cfg, Top(s.threads[t])) && e == ExecTop(cfg, s.threads[t], s.mem)
    ensures
      var ctx := Top(s.threads[t]);
      var op, p, next := ctx.call.op, ProgramOf(cfg, ctx), Stepped(cfg, ctx, e, s.mem);
      if e.core.pc < p.post then
        && ctx.seen.Keys <= next.seen.Keys
        && (e.store.Some? ==> e.store.value == Cell(op.side, op.sideUpdate) && op.side in next.seen
                              && Read(s.mem, op.word) == op.expected)
      else if Settled(cfg, next).Ok? then e.store == Some(Cell(op.word, op.update))
      else e.store == None && op.side !in ctx.seen && (Settled(cfg, next).Miss? ==> Read(s.mem, op.word) != op.expected)
  {
    var ctx := Top(s.threads[t]);
    InsideFacts(cfg, s, t, e);
    if e.core.pc < ProgramOf(cfg, ctx).post {
      if e.store.Some? {
        hide Exec, Block, Inv, SectionOk;
        RunningContext(cfg, s, t);
        ScratchSucceeds(cfg, s.threads[t].area, ctx, s.mem, e, s.mem);
      }
      hide *;
      NoteKeeps(cfg, ctx, e, s.mem);
    } else {
      hide *;
      StoreIfLeaves(cfg, s, t, e);
    }
  }

  lemma NoteKeeps(cfg: Config, ctx: Context, e: Result, m: Mem)
    requires InSection(cfg, ctx)
    ensures ctx.seen.Keys <= Stepped(cfg, ctx, e, m).seen.Keys
    ensures e.store.Some? ==> e.store.value.addr in Stepped(cfg, ctx, e, m).seen
    ensures e.load.Some? ==> e.load.value in Stepped(cfg, ctx, e, m).seen
  {
    hide Block;
  }

  /** Where an instruction of a running `store_if` stores and goes. */
  lemma InsideFacts(cfg: Config, s: State, t: Tid, e: Result)
    requires Inv(cfg, s) && Enabled(cfg, s, Step(t)) && Top(s.threads[t]).call.op.StoreIf?
    requires InSection(cfg, Top(s.threads[t])) && e == ExecTop(cfg, s.threads[t], s.mem)
    ensures
      var ctx := Top(s.threads[t]);
      var op, p := ctx.call.op, ProgramOf(cfg, ctx);
      && Exits(p)
      && (e.core.pc < p.post && e.store.Some? ==> e.store.value == Cell(op.side, op.sideUpdate))
      && (e.core.pc >= p.post ==>
            (e.core.pc == p.post && e.store == Some(Cell(op.word, op.update)))
            || (e.store == None && (e.core.pc == |p.code| - 2 || MissAt(p, e.core.pc))))
  {
    var ctx := Top(s.threads[t]);
    var p, kind, env := ProgramOf(cfg, ctx), ctx.call.key.kind, EnvOf(s.threads[t].area, ctx.site);
    RunningExec(cfg, s, t, e);
    hide *;
    StoreIfBlock(cfg.arch, kind);
    StoreIfExec(p, kind, env, ctx.core, s.mem, e);
    StoreIfExits(p, kind);
  }

  lemma StoreIfExits(p: Program, kind: Kind)
    requires StoreIfShape(p, kind)
    ensures Exits(p) && p.start + 7 == p.post - 1 < |p.code| - 2
  {
    hide Exits, Checked, MissAt;
  }

  /** The instruction of a running call, its program and its operands. */
  lemma RunningExec(cfg: Config, s: State, t: Tid, e: Result)
    requires Inv(cfg, s) && Enabled(cfg, s, Step(t)) && InSection(cfg, Top(s.threads[t]))
    requires e == ExecTop(cfg, s.threads[t], s.mem)
    ensures
      var ctx := Top(s.threads[t]);
      var p := ProgramOf(cfg, ctx);
      && p == Block(cfg.arch, OpcodeOf(ctx.call.op), ctx.call.key.kind) && InRange(p, ctx.core.pc)
      && e == Exec(p.code[ctx.core.pc], EnvOf(s.threads[t].area, ctx.site), ctx.core, s.mem)
      && (ctx.call.op.StoreIf? ==> OpcodeOf(ctx.call.op) == OpStoreIf)
      && (ctx.call.op.LoadIfNe? ==> OpcodeOf(ctx.call.op) == OpLoadIfNe)
      && Get(ctx.core.regs, WordPtr) == ctx.call.op.word
      && (ctx.call.op.StoreIf? ==>
            && Get(ctx.core.regs, SidePtr) == ctx.call.op.side && Get(ctx.core.regs, SideUpdate) == ctx.call.op.sideUpdate
            && Get(ctx.core.regs, Update) == ctx.call.op.update)
  {
    RunningContext(cfg, s, t);
    hide Inv, Exec, Block, ContextOk, SectionOk;
    InputsOf(cfg, s.threads[t].area, Top(s.threads[t]));
  }

  lemma StoreIfLeaves(cfg: Config, s: State, t: Tid, e: Result)
    requires Inv(cfg, s) && Enabled(cfg, s, Step(t)) && Top(s.threads[t]).call.op.StoreIf?
    requires Top(s.threads[t]).call.op.side != Top(s.threads[t]).call.op.word
    requires InSection(cfg, Top(s.threads[t])) && e == ExecTop(cfg, s.threads[t], s.mem)
    requires e.core.pc >= ProgramOf(cfg, Top(s.threads[t])).post
    ensures
      var ctx := Top(s.threads[t]);
      var op, next := ctx.call.op, Stepped(cfg, ctx, e, s.mem);
      if Settled(cfg, next).Ok? then e.store == Some(Cell(op.word, op.update))
      else e.store == None && op.side !in ctx.seen && (Settled(cfg, next).Miss? ==> Read(s.mem, op.word) != op.expected)
  {
    InsideFacts(cfg, s, t, e);
    LeavingCommits(cfg, s, t, e);
    var ctx := Top(s.threads[t]);
    var next := Stepped(cfg, ctx, e, s.mem);
    SameProgram(cfg, ctx, e, s.mem);
    if e.core.pc == ProgramOf(cfg, ctx).post {
      hide *;
      SettledAtPost(cfg, next);
    } else {
      hide *;
      SettledAtExit(cfg, next);
    }
    if !Settled(cfg, next).Ok? {
      LastPassStoreIf(cfg, s, t);
      MissMeans(cfg, s, t);
    }
  }

  lemma SameProgram(cfg: Config, ctx: Context, e: Result, m: Mem)
    requires ctx.Active?
    ensures ProgramOf(cfg, Stepped(cfg, ctx, e, m)) == ProgramOf(cfg, ctx) && Stepped(cfg, ctx, e, m).core == e.core
    ensures Stepped(cfg, ctx, e, m).Active? && Stepped(cfg, ctx, e, m).call == ctx.call
  {
  }

  /** The instruction that leaves the range is where the call takes effect. */
  lemma LeavingCommits(cfg: Config, s: State, t: Tid, e: Result)
    requires Inv(cfg, s) && Enabled(cfg, s, Step(t)) && InSection(cfg, Top(s.threads[t]))
    requires e == ExecTop(cfg, s.threads[t], s.mem) && e.core.pc >= ProgramOf(cfg, Top(s.threads[t])).post
    ensures Commits(cfg, s, t) && CommitEffect(cfg, s, t).attempt == Settled(cfg, Stepped(cfg, Top(s.threads[t]), e, s.mem))
  {
    CommitIsAtomic(cfg, s, t);
    TopStepped(cfg, s, t);
    hide Exec, Block, Inv, Next, Settled, CommitEffect, ExecTop;
  }

  lemma MissMeans(cfg: Config, s: State, t: Tid)
    requires Commits(cfg, s, t)
    ensures
      var op := Top(s.threads[t]).call.op;
      && (op.StoreIf? && CommitEffect(cfg, s, t).attempt.Miss? ==> Read(s.mem, op.word) != op.expected)
      && (op.LoadIfNe? && CommitEffect(cfg, s, t).attempt.Miss? ==> Read(s.mem, op.word) == op.avoided)
  {
    hide Commits, WrapAdd;
  }

  /** The operands of a running call are where its block reads them. */
  lemma InputsOf(cfg: Config, area: Area, ctx: Context)
    requires ContextOk(cfg, area, ctx) && InSection(cfg, ctx)
    ensures Get(ctx.core.regs, WordPtr) == ctx.call.op.word
    ensures ctx.call.op.StoreIf? ==>
              && Get(ctx.core.regs, SidePtr) == ctx.call.op.side && Get(ctx.core.regs, SideUpdate) == ctx.call.op.sideUpdate
              && Get(ctx.core.regs, Update) == ctx.call.op.update
  {
    hide Block, Low32;
  }

  predicate Answered(cfg: Config, ctx: Context) {
    ctx.Active? && ProgramOf(cfg, ctx).post <= ctx.core.pc
  }

  /** Scratch stores only. */
  predicate AllSide(op: Op, stored: seq<Cell>)
    requires op.StoreIf?
  {
    forall k | 0 <= k < |stored| :: stored[k] == Cell(op.side, op.sideUpdate)
  }

  /** What a `store_if` has stored so far, by how far it is: `calm` if its thread has not been interrupted,
      `guarded` if nobody else has stored to its word. */
  predicate StoresSoFar(cfg: Config, ctx: Context, stored: seq<Cell>, m: Mem, calm: bool, guarded: bool)
    requires ctx.Active? && ctx.call.op.StoreIf?
  {
    var op, done := ctx.call.op, Answered(cfg, ctx);
    && (if done && Settled(cfg, ctx).Ok? then
          |stored| > 0 && stored[|stored| - 1] == Cell(op.word, op.update) && AllSide(op, stored[..|stored| - 1])
        else
          && AllSide(op, stored)
          && (calm && stored != [] ==> !done && ProgramOf(cfg, ctx).start <= ctx.core.pc && op.side in ctx.seen))
    && (guarded && stored != [] && !done ==> Read(m, op.word) == op.expected)
    && (guarded && done && Settled(cfg, ctx).Miss? ==> stored == [])
  }

  lemma AllSideSnoc(op: Op, stored: seq<Cell>, cell: Cell)
    requires op.StoreIf? && AllSide(op, stored)
    ensures cell == Cell(op.side, op.sideUpdate) ==> AllSide(op, stored + [cell])
    ensures (stored + [cell])[..|stored + [cell]| - 1] == stored
  {
  }

  /** One more instruction of the call. */
  lemma StoresOwn(cfg: Config, s: State, t: Tid, stored: seq<Cell>, calm: bool, guarded: bool)
    requires Inv(cfg, s) && Enabled(cfg, s, Step(t)) && Top(s.threads[t]).call.op.StoreIf?
    requires Top(s.threads[t]).call.op.side != Top(s.threads[t]).call.op.word
    requires StoresSoFar(cfg, Top(s.threads[t]), stored, s.mem, calm, guarded)
    ensures
      var n, e := Next(cfg, s, Step(t)), ExecTop(cfg, s.threads[t], s.mem);
      var next := Top(n.threads[t]);
      && next.Active? && next.call == Top(s.threads[t]).call
      && StoresSoFar(cfg, next, stored + (match e.store case None => [] case Some(cell) => [cell]), n.mem, calm, guarded)
  {
    StoreIfOwn(cfg, s, t);
    hide Inv, Enabled, Next, ExecTop, Block, Settled;
    var e := ExecTop(cfg, s.threads[t], s.mem);
    match e.store
    case None => assert stored + [] == stored;
    case Some(cell) =>
      if AllSide(Top(s.threads[t]).call.op, stored) { AllSideSnoc(Top(s.threads[t]).call.op, stored, cell); }
  }

  lemma NotStored(cfg: Config, s: State, l: Label, t: Tid, i: nat, a: usize)
    requires Enabled(cfg, s, l) && !Own(s, l, t, i) && !OtherStore(cfg, s, l, t, i, a)
    ensures Read(Next(cfg, s, l).mem, a) == Read(s.mem, a)
  {
    hide Exec, Block, Kick, Loaded, Touches, ExecTop;
  }

  /** Where the call is afterwards, and in which memory, for what it has stored so far. */
  lemma StoresMoved(cfg: Config, ctx: Context, next: Context, stored: seq<Cell>, m: Mem, n: Mem, calm: bool, guarded: bool, calm2: bool, guarded2: bool)
    requires ctx.Active? && ctx.call.op.StoreIf? && StoresSoFar(cfg, ctx, stored, m, calm, guarded)
    requires next == ctx || (InSection(cfg, ctx) && next == ctx.(core := ctx.core.(pc := ProgramOf(cfg, ctx).abort)) && !calm2)
    requires ProgramOf(cfg, ctx).abort < ProgramOf(cfg, ctx).post && (calm2 ==> calm)
    requires guarded2 ==> guarded && Read(n, ctx.call.op.word) == Read(m, ctx.call.op.word)
    ensures StoresSoFar(cfg, next, stored, n, calm2, guarded2)
  {
    hide Block, Settled, AllSide;
  }

  /** One more step of anybody else. */
  lemma StoresOther(cfg: Config, s: State, l: Label, t: Tid, i: nat, call: Call, stored: seq<Cell>, calm: bool, guarded: bool)
    requires Enabled(cfg, s, l) && Underway(s, t, i, call) && Underway(Next(cfg, s, l), t, i, call) && call.op.StoreIf?
    requires ThreadArmed(cfg, s.threads[t]) && !Own(s, l, t, i)
    requires StoresSoFar(cfg, ContextAt(s, t, i, call), stored, s.mem, calm, guarded)
    ensures StoresSoFar(cfg, ContextAt(Next(cfg, s, l), t, i, call), stored, Next(cfg, s, l).mem,
                        calm && !Interrupts(s, l, t), guarded && !OtherStore(cfg, s, l, t, i, call.op.word))
  {
    var ctx, next := ContextAt(s, t, i, call), ContextAt(Next(cfg, s, l), t, i, call);
    assert ctx.Active? && ctx.call == call;
    EveryBlockWellFormed(cfg.arch, OpcodeOf(call.op), call.key.kind);
    assert ProgramOf(cfg, ctx) == Block(cfg.arch, OpcodeOf(call.op), call.key.kind) by { hide Block; }
    hide *;
    AbortInside(Block(cfg.arch, OpcodeOf(call.op), call.key.kind), OpcodeOf(call.op), call.key.kind);
    OtherStep(cfg, s, l, t, i, call);
    if !OtherStore(cfg, s, l, t, i, call.op.word) { NotStored(cfg, s, l, t, i, call.op.word); }
    StoresMoved(cfg, ctx, next, stored, s.mem, Next(cfg, s, l).mem, calm, guarded,
                calm && !Interrupts(s, l, t), guarded && !OtherStore(cfg, s, l, t, i, call.op.word));
  }

  lemma WholeStep(cfg: Config, s: State, l: Label, t: Tid, i: nat, call: Call, stored: seq<Cell>, calm: bool, guarded: bool)
    requires Inv(cfg, s) && Enabled(cfg, s, l) && Underway(s, t, i, call) && Underway(Next(cfg, s, l), t, i, call)
    requires call.op.StoreIf? && call.op.side != call.op.word
    requires StoresSoFar(cfg, ContextAt(s, t, i, call), stored, s.mem, calm, guarded)
    ensures StoresSoFar(cfg, ContextAt(Next(cfg, s, l), t, i, call), stored + StoreOf(cfg, s, l, t, i), Next(cfg, s, l).mem,
                        calm && !Interrupts(s, l, t), guarded && !OtherStore(cfg, s, l, t, i, call.op.word))
  {
    InvLocal(cfg, s);
    assert ThreadArmed(cfg, s.threads[t]);
    if Own(s, l, t, i) {
      hide Inv, StoresSoFar, Exec, Block, Enabled, Next, ExecTop;
      OwnIsQuiet(cfg, s, l, t, i);
      StoresOwn(cfg, s, t, stored, calm, guarded);
      OwnContext(cfg, s, t, i);
    } else {
      hide Inv, StoresSoFar, Exec, Block, Enabled, Next, ExecTop;
      StoresOther(cfg, s, l, t, i, call, stored, calm, guarded);
      assert stored + [] == stored;
    }
  }

  lemma OwnIsQuiet(cfg: Config, s: State, l: Label, t: Tid, i: nat)
    requires Enabled(cfg, s, l) && Own(s, l, t, i)
    ensures !Interrupts(s, l, t) && forall a :: !OtherStore(cfg, s, l, t, i, a)
  {
  }

  lemma OwnContext(cfg: Config, s: State, t: Tid, i: nat)
    requires Enabled(cfg, s, Step(t)) && |s.threads[t].stack| == i + 1
    ensures |Next(cfg, s, Step(t)).threads[t].stack| == i + 1
    ensures Top(Next(cfg, s, Step(t)).threads[t]) == Next(cfg, s, Step(t)).threads[t].stack[i]
    ensures Top(s.threads[t]) == s.threads[t].stack[i]
  {
    TopStepped(cfg, s, t);
    hide Exec, Block, Next, Enabled;
  }

  /** The call has been begun and has not executed anything. */
  predicate Begun(s: State, t: Tid, i: nat, call: Call) {
    Underway(s, t, i, call) && ContextAt(s, t, i, call).core.pc == 0
  }

  lemma BegunStores(cfg: Config, s: State, t: Tid, i: nat, call: Call)
    requires Begun(s, t, i, call) && call.op.StoreIf?
    ensures StoresSoFar(cfg, ContextAt(s, t, i, call), [], s.mem, true, true)
  {
    EveryBlockWellFormed(cfg.arch, OpcodeOf(call.op), call.key.kind);
    AbortInside(Block(cfg.arch, OpcodeOf(call.op), call.key.kind), OpcodeOf(call.op), call.key.kind);
    hide Block, Settled, WellFormed;
  }

  /** Over any disciplined run, from the beginning of the call. */
  lemma {:induction false} WholeStoreIf(cfg: Config, s: State, ls: seq<Label>, t: Tid, i: nat, call: Call)
    requires Inv(cfg, s) && ValidRun(cfg, s, ls) && DisciplinedRun(cfg, s, ls) && Throughout(cfg, s, ls, t, i, call)
    requires call.op.StoreIf? && call.op.side != call.op.word && Begun(s, t, i, call)
    ensures Inv(cfg, StateAfter(cfg, s, ls)) && Underway(StateAfter(cfg, s, ls), t, i, call)
    ensures StoresSoFar(cfg, ContextAt(StateAfter(cfg, s, ls), t, i, call), Stored(cfg, s, ls, t, i), StateAfter(cfg, s, ls).mem,
                        Calm(cfg, s, ls, t), Guarded(cfg, s, ls, t, i, call.op.word))
    decreases |ls|
  {
    hide Enabled, Next, Inv, StoresSoFar, Disciplined, Abs, Observe, AEnabled, ANext, ExecTop, OtherStore, Interrupts, Underway;
    if ls == [] {
      assert Underway(s, t, i, call) && Begun(s, t, i, call);
      BegunStores(cfg, s, t, i, call);
    } else {
      var front, l := ls[..|ls| - 1], ls[|ls| - 1];
      WholeStoreIf(cfg, s, front, t, i, call);
      StepSafe(cfg, StateAfter(cfg, s, front), l);
      WholeStep(cfg, StateAfter(cfg, s, front), l, t, i, call, Stored(cfg, s, front, t, i), Calm(cfg, s, front, t),
                Guarded(cfg, s, front, t, i, call.op.word));
    }
  }

  /** One instruction of `load_if_ne` inside its range. */
  lemma LoadIfNeExec(p: Program, kind: Kind, env: Env, c: Core, m: Mem, e: Result)
    requires LoadIfNeShape(p, kind) && InRange(p, c.pc) && e == Exec(p.code[c.pc], env, c, m)
    ensures e.core.pc >= p.post ==> e.load == None
    ensures e.core.pc < p.post ==> e.store == None
    ensures e.core.pc >= p.post ==> e.core.pc == p.post || e.core.pc == |p.code| - 2 || MissAt(p, e.core.pc)
    ensures Exits(p)
  {
    hide Low32, Armed, Exits;
  }

  lemma LoadIfNeBlock(arch: Arch, kind: Kind)
    ensures LoadIfNeShape(Block(arch, OpLoadIfNe, kind), kind)
  {
    hide LoadIfNeShape;
    if arch == Arm { ArmLoadIfNe(kind); } else { IntelLoadIfNe(kind); }
  }

  predicate OnlyWord(op: Op, loaded: seq<usize>) {
    forall k | 0 <= k < |loaded| :: loaded[k] == op.word
  }

  /** An instruction of a `load_if_ne`, in one memory: what it loads, and what the call is then. */
  lemma LoadIfNeOwn(cfg: Config, s: State, t: Tid)
    requires Inv(cfg, s) && Enabled(cfg, s, Step(t)) && Top(s.threads[t]).call.op.LoadIfNe?
    ensures
      var ctx, e, next := Top(s.threads[t]), ExecTop(cfg, s.threads[t], s.mem), Top(Next(cfg, s, Step(t)).threads[t]);
      var op, p := ctx.call.op, ProgramOf(cfg, ctx);
      && next.Active? && next.call == ctx.call && next.core.pc == e.core.pc > ctx.core.pc
      && Next(cfg, s, Step(t)).mem == After(s.mem, e.store)
      && if ctx.core.pc < p.start then
           e.load == None && e.store == None && e.core.pc <= p.start < p.post
         else if ctx.core.pc < p.post && e.core.pc < p.post then
           && ctx.seen.Keys <= next.seen.Keys && e.store == None
           && (e.load.Some? ==> e.load.value in next.seen && (e.load.value == op.word || Read(s.mem, op.word) != op.avoided))
         else if ctx.core.pc < p.post then
           && e.load == None
           && (!Settled(cfg, next).Ok? ==> ctx.seen.Keys <= {op.word})
           && (Settled(cfg, next).Miss? ==> Read(s.mem, op.word) == op.avoided)
         else e.load == None && Settled(cfg, next) == Settled(cfg, ctx)
  {
    var th := s.threads[t];
    var ctx, e := Top(th), ExecTop(cfg, th, s.mem);
    var p, kind, opcode, env := ProgramOf(cfg, ctx), ctx.call.key.kind, OpcodeOf(ctx.call.op), EnvOf(th.area, ctx.site);
    RunningContext(cfg, s, t);
    EveryBlockWellFormed(cfg.arch, opcode, kind);
    Ranged(p, opcode, kind);
    TopStepped(cfg, s, t);
    NextPc(p, opcode, kind, env, ctx.core, s.mem, e);
    hide Inv, Next, Exec, Block, Settled, Meaning, WellFormed, SectionOk, Note, ExecTop, StepThread, Loaded, TmpOk;
    if ctx.core.pc < p.start {
      EntryStep(cfg, th.area, ctx, s.mem, e);
    } else if ctx.core.pc < p.post {
      LoadIfNeInside(cfg, s, t, e);
    } else {
      TailExec(p, opcode, kind, env, ctx.core, s.mem, e);
      assert Exec(p.code[ctx.core.pc], NOWHERE, ctx.core, map[]) == e;
      SettledStep(cfg, ctx, s.mem, e);
    }
  }

  lemma LoadIfNeInside(cfg: Config, s: State, t: Tid, e: Result)
    requires Inv(cfg, s) && Enabled(cfg, s, Step(t)) && Top(s.threads[t]).call.op.LoadIfNe?
    requires InSection(cfg, Top(s.threads[t])) && e == ExecTop(cfg, s.threads[t], s.mem)
    ensures
      var ctx := Top(s.threads[t]);
      var op, next := ctx.call.op, Stepped(cfg, ctx, e, s.mem);
      if e.core.pc < ProgramOf(cfg, ctx).post then
        && ctx.seen.Keys <= next.seen.Keys && e.store == None
        && (e.load.Some? ==> e.load.value in next.seen && (e.load.value == op.word || Read(s.mem, op.word) != op.avoided))
      else
        && e.load == None
        && (!Settled(cfg, next).Ok? ==> ctx.seen.Keys <= {op.word})
        && (Settled(cfg, next).Miss? ==> Read(s.mem, op.word) == op.avoided)
  {
    var ctx := Top(s.threads[t]);
    var kind, env := ctx.call.key.kind, EnvOf(s.threads[t].area, ctx.site);
    StepExecutes(cfg, s, t);
    RunningExec(cfg, s, t, e);
    hide *;
    LoadIfNeBlock(cfg.arch, kind);
    LoadIfNeExec(ProgramOf(cfg, ctx), kind, env, ctx.core, s.mem, e);
    NoteKeeps(cfg, ctx, e, s.mem);
    if e.core.pc < ProgramOf(cfg, ctx).post {
      if e.load.Some? { ChaseSafe(cfg, s, t, e.load.value); }
    } else {
      LeavingCommits(cfg, s, t, e);
      if !Settled(cfg, Stepped(cfg, ctx, e, s.mem)).Ok? { LastPassLoadIfNe(cfg, s, t); }
      MissMeans(cfg, s, t);
    }
  }

  lemma StepExecutes(cfg: Config, s: State, t: Tid)
    requires Enabled(cfg, s, Step(t))
    ensures Executing(cfg, s, t)
  {
  }

  /** What a `load_if_ne` has loaded so far, by how far it is. */
  predicate LoadsSoFar(cfg: Config, ctx: Context, loaded: seq<usize>, m: Mem, calm: bool, guarded: bool)
    requires ctx.Active? && ctx.call.op.LoadIfNe?
  {
    var op, done := ctx.call.op, Answered(cfg, ctx);
    && (calm && done && !Settled(cfg, ctx).Ok? ==> OnlyWord(op, loaded))
    && (calm && !done && loaded != [] ==>
          ProgramOf(cfg, ctx).start <= ctx.core.pc && forall k | 0 <= k < |loaded| :: loaded[k] in ctx.seen)
    && (guarded && !done && !OnlyWord(op, loaded) ==> Read(m, op.word) != op.avoided)
    && (guarded && done && Settled(cfg, ctx).Miss? ==> OnlyWord(op, loaded))
  }

  lemma LoadsOwn(cfg: Config, s: State, t: Tid, loaded: seq<usize>, calm: bool, guarded: bool)
    requires Inv(cfg, s) && Enabled(cfg, s, Step(t)) && Top(s.threads[t]).call.op.LoadIfNe?
    requires LoadsSoFar(cfg, Top(s.threads[t]), loaded, s.mem, calm, guarded)
    ensures
      var n, e := Next(cfg, s, Step(t)), ExecTop(cfg, s.threads[t], s.mem);
      var next := Top(n.threads[t]);
      && next.Active? && next.call == Top(s.threads[t]).call
      && LoadsSoFar(cfg, next, loaded + (match e.load case None => [] case Some(a) => [a]), n.mem, calm, guarded)
  {
    LoadIfNeOwn(cfg, s, t);
    hide Inv, Enabled, Next, ExecTop, Block, Settled;
    match ExecTop(cfg, s.threads[t], s.mem).load
    case None => assert loaded + [] == loaded;
    case Some(a) => OnlyWordSnoc(Top(s.threads[t]).call.op, loaded, a);
  }

  lemma OnlyWordSnoc(op: Op, loaded: seq<usize>, a: usize)
    ensures OnlyWord(op, loaded + [a]) <==> OnlyWord(op, loaded) && a == op.word
  {
    if OnlyWord(op, loaded + [a]) {
      assert (loaded + [a])[|loaded|] == a;
      assert forall k | 0 <= k < |loaded| :: (loaded + [a])[k] == loaded[k];
    }
  }

  /** Where the call is afterwards, and in which memory, for what it has loaded so far. */
  lemma LoadsMoved(cfg: Config, ctx: Context, next: Context, loaded: seq<usize>, m: Mem, n: Mem, calm: bool, guarded: bool, calm2: bool, guarded2: bool)
    requires ctx.Active? && ctx.call.op.LoadIfNe? && LoadsSoFar(cfg, ctx, loaded, m, calm, guarded)
    requires next == ctx || (InSection(cfg, ctx) && next == ctx.(core := ctx.core.(pc := ProgramOf(cfg, ctx).abort)) && !calm2)
    requires ProgramOf(cfg, ctx).abort < ProgramOf(cfg, ctx).post && (calm2 ==> calm)
    requires guarded2 ==> guarded && Read(n, ctx.call.op.word) == Read(m, ctx.call.op.word)
    ensures LoadsSoFar(cfg, next, loaded, n, calm2, guarded2)
  {
    hide Block, Settled, OnlyWord;
  }

  lemma LoadsOther(cfg: Config, s: State, l: Label, t: Tid, i: nat, call: Call, loaded: seq<usize>, calm: bool, guarded: bool)
    requires Enabled(cfg, s, l) && Underway(s, t, i, call) && Underway(Next(cfg, s, l), t, i, call) && call.op.LoadIfNe?
    requires ThreadArmed(cfg, s.threads[t]) && !Own(s, l, t, i)
    requires LoadsSoFar(cfg, ContextAt(s, t, i, call), loaded, s.mem, calm, guarded)
    ensures LoadsSoFar(cfg, ContextAt(Next(cfg, s, l), t, i, call), loaded, Next(cfg, s, l).mem,
                       calm && !Interrupts(s, l, t), guarded && !OtherStore(cfg, s, l, t, i, call.op.word))
  {
    var ctx, next := ContextAt(s, t, i, call), ContextAt(Next(cfg, s, l), t, i, call);
    assert ctx.Active? && ctx.call == call;
    EveryBlockWellFormed(cfg.arch, OpcodeOf(call.op), call.key.kind);
    assert ProgramOf(cfg, ctx) == Block(cfg.arch, OpcodeOf(call.op), call.key.kind) by { hide Block; }
    hide *;
    AbortInside(Block(cfg.arch, OpcodeOf(call.op), call.key.kind), OpcodeOf(call.op), call.key.kind);
    OtherStep(cfg, s, l, t, i, call);
    if !OtherStore(cfg, s, l, t, i, call.op.word) { NotStored(cfg, s, l, t, i, call.op.word); }
    LoadsMoved(cfg, ctx, next, loaded, s.mem, Next(cfg, s, l).mem, calm, guarded,
               calm && !Interrupts(s, l, t), guarded && !OtherStore(cfg, s, l, t, i, call.op.word));
  }

  lemma WholeLoadStep(cfg: Config, s: State, l: Label, t: Tid, i: nat, call: Call, loaded: seq<usize>, calm: bool, guarded: bool)
    requires Inv(cfg, s) && Enabled(cfg, s, l) && Underway(s, t, i, call) && Underway(Next(cfg, s, l), t, i, call)
    requires call.op.LoadIfNe? && LoadsSoFar(cfg, ContextAt(s, t, i, call), loaded, s.mem, calm, guarded)
    ensures LoadsSoFar(cfg, ContextAt(Next(cfg, s, l), t, i, call), loaded + LoadOf(cfg, s, l, t, i), Next(cfg, s, l).mem,
                       calm && !Interrupts(s, l, t), guarded && !OtherStore(cfg, s, l, t, i, call.op.word))
  {
    InvLocal(cfg, s);
    assert ThreadArmed(cfg, s.threads[t]);
    if Own(s, l, t, i) {
      hide Inv, LoadsSoFar, Exec, Block, Enabled, Next, ExecTop;
      OwnIsQuiet(cfg, s, l, t, i);
      LoadsOwn(cfg, s, t, loaded, calm, guarded);
      OwnContext(cfg, s, t, i);
    } else {
      hide Inv, LoadsSoFar, Exec, Block, Enabled, Next, ExecTop;
      LoadsOther(cfg, s, l, t, i, call, loaded, calm, guarded);
      assert loaded + [] == loaded;
    }
  }

  lemma BegunLoads(cfg: Config, s: State, t: Tid, i: nat, call: Call)
    requires Begun(s, t, i, call) && call.op.LoadIfNe?
    ensures LoadsSoFar(cfg, ContextAt(s, t, i, call), [], s.mem, true, true)
  {
    EveryBlockWellFormed(cfg.arch, OpcodeOf(call.op), call.key.kind);
    AbortInside(Block(cfg.arch, OpcodeOf(call.op), call.key.kind), OpcodeOf(call.op), call.key.kind);
    hide Block, Settled, WellFormed;
  }

  lemma {:induction false} WholeLoadIfNe(cfg: Config, s: State, ls: seq<Label>, t: Tid, i: nat, call: Call)
    requires Inv(cfg, s) && ValidRun(cfg, s, ls) && DisciplinedRun(cfg, s, ls) && Throughout(cfg, s, ls, t, i, call)
    requires call.op.LoadIfNe? && Begun(s, t, i, call)
    ensures Inv(cfg, StateAfter(cfg, s, ls)) && Underway(StateAfter(cfg, s, ls), t, i, call)
    ensures LoadsSoFar(cfg, ContextAt(StateAfter(cfg, s, ls), t, i, call), Fetched(cfg, s, ls, t, i), StateAfter(cfg, s, ls).mem,
                       Calm(cfg, s, ls, t), Guarded(cfg, s, ls, t, i, call.op.word))
    decreases |ls|
  {
    hide Enabled, Next, Inv, LoadsSoFar, Disciplined, Abs, Observe, AEnabled, ANext, ExecTop, OtherStore, Interrupts, Underway;
    if ls == [] {
      assert Underway(s, t, i, call) && Begun(s, t, i, call);
      BegunLoads(cfg, s, t, i, call);
    } else {
      var front, l := ls[..|ls| - 1], ls[|ls| - 1];
      WholeLoadIfNe(cfg, s, front, t, i, call);
      StepSafe(cfg, StateAfter(cfg, s, front), l);
      WholeLoadStep(cfg, StateAfter(cfg, s, front), l, t, i, call, Fetched(cfg, s, front, t, i), Calm(cfg, s, front, t),
                    Guarded(cfg, s, front, t, i, call.op.word));
    }
  }

  /** The last value stored to an address, or what was there. */
  function LastAt(stored: seq<Cell>, a: usize, was: usize): usize {
    if stored == [] then was
    else if stored[|stored| - 1].addr == a then stored[|stored| - 1].value
    else LastAt(stored[..|stored| - 1], a, was)
  }

  lemma GuardedStep(cfg: Config, s: State, l: Label, t: Tid, i: nat, a: usize, stored: seq<Cell>, was: usize)
    requires Enabled(cfg, s, l) && !OtherStore(cfg, s, l, t, i, a) && Read(s.mem, a) == LastAt(stored, a, was)
    ensures Read(Next(cfg, s, l).mem, a) == LastAt(stored + StoreOf(cfg, s, l, t, i), a, was)
  {
    if Own(s, l, t, i) {
      TopStepped(cfg, s, t);
      hide Exec, Block, Next, ExecTop, Enabled;
      match ExecTop(cfg, s.threads[t], s.mem).store
      case None => assert stored + [] == stored;
      case Some(cell) => assert (stored + [cell])[..|stored + [cell]| - 1] == stored;
    } else {
      NotStored(cfg, s, l, t, i, a);
      assert stored + [] == stored;
    }
  }

  /** Where nobody else stores, memory is what the call has made of it. */
  lemma {:induction false} GuardedMemory(cfg: Config, s: State, ls: seq<Label>, t: Tid, i: nat, a: usize)
    requires ValidRun(cfg, s, ls) && Guarded(cfg, s, ls, t, i, a)
    ensures Read(StateAfter(cfg, s, ls).mem, a) == LastAt(Stored(cfg, s, ls, t, i), a, Read(s.mem, a))
    decreases |ls|
  {
    hide Enabled, Next, OtherStore, StoreOf, LastAt;
    if ls == [] {
      NothingStored(a, Read(s.mem, a));
    } else {
      GuardedMemory(cfg, s, ls[..|ls| - 1], t, i, a);
      GuardedStep(cfg, StateAfter(cfg, s, ls[..|ls| - 1]), ls[|ls| - 1], t, i, a, Stored(cfg, s, ls[..|ls| - 1], t, i), Read(s.mem, a));
    }
  }

  lemma NothingStored(a: usize, was: usize)
    ensures LastAt([], a, was) == was
  {
  }

  lemma {:induction false} LastOfSides(op: Op, stored: seq<Cell>, a: usize, was: usize)
    requires op.StoreIf? && AllSide(op, stored)
    ensures LastAt(stored, a, was) == if a == op.side && stored != [] then op.sideUpdate else was
    decreases |stored|
  {
    if stored != [] { LastOfSides(op, stored[..|stored| - 1], a, was); }
  }

  /** A `store_if` that has answered, or not got so far, has stored to `side` only, unless it has answered Ok:
      its word is as it was, and `side` as it was or as it was to be, if nobody else stores there. */
  lemma FailedStoreIf(cfg: Config, s: State, ls: seq<Label>, t: Tid, i: nat, call: Call)
    requires Inv(cfg, s) && ValidRun(cfg, s, ls) && DisciplinedRun(cfg, s, ls) && Throughout(cfg, s, ls, t, i, call)
    requires call.op.StoreIf? && call.op.side != call.op.word && Begun(s, t, i, call)
    ensures Underway(StateAfter(cfg, s, ls), t, i, call)
    ensures
      var n := StateAfter(cfg, s, ls);
      var ctx := ContextAt(n, t, i, call);
      var op, stored := call.op, Stored(cfg, s, ls, t, i);
      if Answered(cfg, ctx) && Settled(cfg, ctx).Ok? then
        |stored| > 0 && stored[|stored| - 1] == Cell(op.word, op.update) && AllSide(op, stored[..|stored| - 1])
      else
        && AllSide(op, stored)
        && (Guarded(cfg, s, ls, t, i, op.word) ==> Read(n.mem, op.word) == Read(s.mem, op.word))
        && (Guarded(cfg, s, ls, t, i, op.side) ==>
              Read(n.mem, op.side) == if stored == [] then Read(s.mem, op.side) else op.sideUpdate)
  {
    WholeStoreIf(cfg, s, ls, t, i, call);
    var stored := Stored(cfg, s, ls, t, i);
    hide Inv, DisciplinedRun, Throughout, Settled, Block, ValidRun, StateAfter, Stored, Guarded, LastAt, Calm;
    if AllSide(call.op, stored) {
      LastOfSides(call.op, stored, call.op.word, Read(s.mem, call.op.word));
      LastOfSides(call.op, stored, call.op.side, Read(s.mem, call.op.side));
    }
    if Guarded(cfg, s, ls, t, i, call.op.word) { GuardedMemory(cfg, s, ls, t, i, call.op.word); }
    if Guarded(cfg, s, ls, t, i, call.op.side) { GuardedMemory(cfg, s, ls, t, i, call.op.side); }
  }

  /** What has been stored, or loaded, stays so. */
  lemma {:induction false} RecordsGrow(cfg: Config, s: State, ls: seq<Label>, j: nat, t: Tid, i: nat)
    requires ValidRun(cfg, s, ls) && j <= |ls|
    ensures ValidRun(cfg, s, ls[..j])
    ensures Stored(cfg, s, ls[..j], t, i) <= Stored(cfg, s, ls, t, i)
    ensures Fetched(cfg, s, ls[..j], t, i) <= Fetched(cfg, s, ls, t, i)
    decreases |ls|
  {
    hide Enabled, Next, StoreOf, LoadOf;
    if j == |ls| {
      assert ls[..j] == ls;
    } else {
      var front := ls[..|ls| - 1];
      assert front[..j] == ls[..j];
      RecordsGrow(cfg, s, front, j, t, i);
    }
  }

  predicate Succeeded(cfg: Config, ctx: Context) {
    Answered(cfg, ctx) && Settled(cfg, ctx).Ok?
  }

  /** An instruction of a call that has answered does not change its answer. */
  lemma AnswerStays(cfg: Config, s: State, t: Tid)
    requires Inv(cfg, s) && Enabled(cfg, s, Step(t)) && Answered(cfg, Top(s.threads[t]))
    ensures
      var next := Top(Next(cfg, s, Step(t)).threads[t]);
      Answered(cfg, next) && Settled(cfg, next) == Settled(cfg, Top(s.threads[t]))
  {
    var th := s.threads[t];
    var ctx, e := Top(th), ExecTop(cfg, th, s.mem);
    var p, opcode, kind, env := ProgramOf(cfg, ctx), OpcodeOf(ctx.call.op), ctx.call.key.kind, EnvOf(th.area, ctx.site);
    EveryBlockWellFormed(cfg.arch, opcode, kind);
    TopStepped(cfg, s, t);
    hide Inv, Next, Exec, Block, Settled, WellFormed, Note, StepThread;
    TailExec(p, opcode, kind, env, ctx.core, s.mem, e);
    assert Exec(p.code[ctx.core.pc], NOWHERE, ctx.core, map[]) == e;
    SettledStep(cfg, ctx, s.mem, e);
  }

  lemma WordStep(cfg: Config, s: State, l: Label, t: Tid, i: nat, call: Call)
    requires Inv(cfg, s) && Enabled(cfg, s, l) && Underway(s, t, i, call) && Underway(Next(cfg, s, l), t, i, call)
    requires call.op.StoreIf? && !OtherStore(cfg, s, l, t, i, call.op.word)
    ensures
      var ctx, next := ContextAt(s, t, i, call), ContextAt(Next(cfg, s, l), t, i, call);
      if Succeeded(cfg, ctx) then Succeeded(cfg, next)
      else Succeeded(cfg, next) || Read(Next(cfg, s, l).mem, call.op.word) == Read(s.mem, call.op.word)
  {
    InvLocal(cfg, s);
    assert ThreadArmed(cfg, s.threads[t]);
    hide Exec, Block, Inv, ThreadArmed, Settled;
    if Own(s, l, t, i) {
      OwnContext(cfg, s, t, i);
      hide Enabled, Next;
      if Answered(cfg, Top(s.threads[t])) { AnswerStays(cfg, s, t); }
      StoreIfStep(cfg, s, t);
      if Commits(cfg, s, t) { CommitIsAtomic(cfg, s, t); }
      hide Commits, CommitEffect;
    } else {
      hide Enabled, Next, OtherStore;
      OtherStep(cfg, s, l, t, i, call);
      NotStored(cfg, s, l, t, i, call.op.word);
      EveryBlockWellFormed(cfg.arch, OpcodeOf(call.op), call.key.kind);
      hide WellFormed;
    }
  }

  /** Until it succeeds, a `store_if` leaves its word as it was, aliased by `side` or not. */
  lemma {:induction false} WordKept(cfg: Config, s: State, ls: seq<Label>, t: Tid, i: nat, call: Call)
    requires Inv(cfg, s) && ValidRun(cfg, s, ls) && DisciplinedRun(cfg, s, ls) && Throughout(cfg, s, ls, t, i, call)
    requires call.op.StoreIf? && Guarded(cfg, s, ls, t, i, call.op.word)
    ensures Inv(cfg, StateAfter(cfg, s, ls)) && Underway(StateAfter(cfg, s, ls), t, i, call)
    ensures Succeeded(cfg, ContextAt(StateAfter(cfg, s, ls), t, i, call))
            || Read(StateAfter(cfg, s, ls).mem, call.op.word) == Read(s.mem, call.op.word)
    decreases |ls|
  {
    hide Enabled, Next, Inv, Disciplined, Abs, Observe, AEnabled, ANext, OtherStore, Underway, Succeeded;
    if ls != [] {
      var front, l := ls[..|ls| - 1], ls[|ls| - 1];
      WordKept(cfg, s, front, t, i, call);
      StepSafe(cfg, StateAfter(cfg, s, front), l);
      WordStep(cfg, StateAfter(cfg, s, front), l, t, i, call);
    }
  }
}
