/** Draining a per-CPU counter from another CPU: set stop, fence, take, fence again, clear stop. */
module Drain {
  import opened Bits
  import opened Ops
  import opened Isa
  import opened Operands
  import opened Blocks
  import opened Stepping
  import opened Semantics
  import opened Machine
  import opened Sections
  import opened Atomic
  import opened Refinement
  import opened Fences
  import opened Counts
  import opened Safety

  /** The counter of `cpu` and the stop word its updaters look at. */
  datatype Target = Target(cpu: u32, word: usize, stop: usize)

  /** Add one to the counter, provided the stop word is clear. */
  predicate IsBump(d: Target, call: Call) {
    && call.key == Key(CpuIndex, d.cpu)
    && call.op.CompareExchangeIf? && call.op.word == d.word && call.op.other == d.stop
    && call.op.otherExpected == 0 && call.op.update == WrapAdd(call.op.expected, 1)
  }

  /** A call that stores neither to the counter nor to the stop word. */
  predicate IsElsewhere(d: Target, call: Call) {
    && !call.op.FetchAddAt? && call.op.word != d.word && call.op.word != d.stop
    && (call.op.StoreIf? ==> call.op.side != d.word && call.op.side != d.stop)
  }

  /** How far a drain has got: `Held` once fenced, `Taken` until fenced again, and then `Swept`. */
  datatype Phase = Open | Stopped | Held | Taken | Swept

  /** Fenced with the stop word set: no increment commits. */
  predicate Shut(phase: Phase) {
    phase.Held? || phase.Taken? || phase.Swept?
  }

  /** What a drainer does: store to the stop word, store to the counter and keep what was there, or fence. */
  datatype Action = Stop(value: usize) | Take(value: usize) | Fence

  /** The drainer's action a step is, if it is one, whichever thread takes it. */
  function ActionOf(d: Target, l: Label): Option<Action> {
    match l
    case Plain(_, addr, value) => if addr == d.stop then Some(Stop(value)) else if addr == d.word then Some(Take(value)) else None
    case FenceCpu(_, cpu) => if cpu == d.cpu then Some(Fence) else None
    case FenceAll(_) => Some(Fence)
    case _ => None
  }

  /** The protocol: the counter is only taken, to zero, while shut, and the stop word is not cleared between taking
      and the next fence. */
  predicate Keeps(phase: Phase, a: Action) {
    match a
    case Stop(value) => value == 0 ==> !phase.Taken?
    case Take(value) => value == 0 && Shut(phase)
    case Fence => true
  }

  function PhaseNext(phase: Phase, a: Action): Phase {
    match a
    case Stop(value) => if value == 0 then Open else if phase.Open? then Stopped else phase
    case Take(_) => if phase.Swept? then Swept else Taken
    case Fence =>
      match phase
      case Open => Open
      case Stopped => Held
      case Held => Held
      case Taken => Swept
      case Swept => Swept
  }

  function PhaseAfter(d: Target, phase: Phase, l: Label): Phase {
    match ActionOf(d, l) case None => phase case Some(a) => PhaseNext(phase, a)
  }

  /** The drainer's progress, what it has taken so far, and how often updaters have committed. */
  datatype Books = Books(phase: Phase, stolen: usize, committed: usize)

  /** Calls that are increments of the counter, or leave it and the stop word alone. */
  predicate KnownLabel(d: Target, l: Label) {
    l.Begin? ==> IsBump(d, l.call) || IsElsewhere(d, l.call)
  }

  /** What the drain protocol allows. Anything else in memory is free. */
  predicate DrainLabel(d: Target, phase: Phase, l: Label) {
    KnownLabel(d, l) && (ActionOf(d, l).Some? ==> Keeps(phase, ActionOf(d, l).value))
  }

  /** This instruction is where an increment of the counter takes effect. */
  predicate BumpCommits(d: Target, cfg: Config, s: State, l: Label)
    requires Enabled(cfg, s, l)
  {
    && l.Step? && Observe(cfg, s, l) == Commit(l.t) && IsBump(d, Top(s.threads[l.t]).call)
    && Settled(cfg, Top(Next(cfg, s, l).threads[l.t])).Ok?
  }

  function BooksNext(d: Target, b: Books, cfg: Config, s: State, l: Label): Books
    requires Enabled(cfg, s, l)
  {
    Books(
      PhaseAfter(d, b.phase, l),
      if l.Plain? && l.addr == d.word then WrapAdd(b.stolen, Read(s.mem, d.word)) else b.stolen,
      if BumpCommits(d, cfg, s, l) then WrapAdd(b.committed, 1) else b.committed)
  }

  /** What a pass of an increment has read, by how far it is. */
  predicate SeenShape(d: Target, p: Program, ctx: Context)
    requires ctx.Active?
  {
    && (ctx.core.pc <= p.start + 3 ==> ctx.seen == map[])
    && (ctx.core.pc <= p.start + 6 ==> d.stop !in ctx.seen)
  }

  predicate Known(d: Target, ctx: Context) {
    ctx.Active? ==> IsBump(d, ctx.call) || IsElsewhere(d, ctx.call)
  }

  predicate InBump(d: Target, cfg: Config, ctx: Context) {
    InSection(cfg, ctx) && IsBump(d, ctx.call)
  }

  ghost predicate DrainThread(d: Target, cfg: Config, th: Thread) {
    && ThreadArmed(cfg, th)
    && (forall i | 0 <= i < |th.stack| :: Known(d, th.stack[i]))
    && (InBump(d, cfg, Top(th)) ==>
          SectionOk(cfg, th.area, Top(th)) && SeenShape(d, ProgramOf(cfg, Top(th)), Top(th)))
  }

  predicate LiveBump(d: Target, cfg: Config, s: State, t: Tid) {
    Runs(s, t) && InBump(d, cfg, Top(s.threads[t]))
  }

  /** What a running pass has read is out of date only where the protocol makes it harmless. */
  predicate Harmless(d: Target, phase: Phase, m: Mem, seen: Mem) {
    && (!phase.Taken? && d.word in seen ==> Read(m, d.word) == seen[d.word])
    && (Shut(phase) && d.stop in seen ==> seen[d.stop] != 0)
  }

  ghost predicate DrainInv(d: Target, b: Books, cfg: Config, s: State) {
    && d.word != d.stop && Placed(s)
    && (forall t | t in s.threads :: DrainThread(d, cfg, s.threads[t]))
    && (forall t | LiveBump(d, cfg, s, t) :: Harmless(d, b.phase, s.mem, Top(s.threads[t]).seen))
    && Tracked(d, b.phase, s.mem)
  }

  lemma BumpBlock(cfg: Config, kind: Kind)
    ensures CompareExchangeIfShape(Block(cfg.arch, OpCompareExchangeIf, kind), kind)
  {
    hide CompareExchangeIfShape;
    if cfg.arch == Arm { ArmCompareExchangeIf(kind); } else { IntelCompareExchangeIf(kind); }
  }

  /** One instruction of `compare_exchange_if` inside its range. */
  lemma BumpExec(p: Program, kind: Kind, env: Env, c: Core, m: Mem, e: Result)
    requires CompareExchangeIfShape(p, kind) && InRange(p, c.pc) && e == Exec(p.code[c.pc], env, c, m)
    ensures e.core.pc == c.pc + 1 || e.core.pc >= p.post
    ensures e.store.Some? ==> e.core.pc >= p.post
    ensures e.load == if c.pc == p.start + 3 then Some(Get(c.regs, WordPtr))
                      else if c.pc == p.start + 6 then Some(Get(c.regs, OtherPtr)) else None
    ensures e.store == if c.pc == p.start + 9 then Some(Cell(Get(c.regs, WordPtr), Get(c.regs, Update))) else None
  {
    hide Low32, Armed, Exits, MissAt, WrapAdd;
  }

  /** Where the other operations store. */
  lemma StoreTarget(p: Program, opcode: Opcode, kind: Kind, env: Env, c: Core, m: Mem, e: Result)
    requires WellFormed(p, opcode, kind) && p.start <= c.pc < |p.code| && opcode != OpFetchAddAt
    requires e == Exec(p.code[c.pc], env, c, m) && e.store.Some?
    ensures e.store.value.addr == Get(c.regs, WordPtr) || (opcode == OpStoreIf && e.store.value.addr == Get(c.regs, SidePtr))
    ensures c.pc < p.post
  {
    hide Checked, Low32;
    assert InstrOk(p, c.pc) && ScratchOk(p, opcode, c.pc);
  }

  /** What an instruction of an increment adds to what its pass has read. */
  lemma BumpSeen(d: Target, cfg: Config, area: Area, ctx: Context, m: Mem, e: Result)
    requires d.word != d.stop && ContextOk(cfg, area, ctx) && InBump(d, cfg, ctx) && SeenShape(d, ProgramOf(cfg, ctx), ctx)
    requires e == Exec(ProgramOf(cfg, ctx).code[ctx.core.pc], EnvOf(area, ctx.site), ctx.core, m)
    ensures
      var next := Stepped(cfg, ctx, e, m);
      && (InBump(d, cfg, next) ==> SeenShape(d, ProgramOf(cfg, next), next))
      && (InBump(d, cfg, next) ==> next.seen == ctx.seen || next.seen == ctx.seen[d.word := Read(m, d.word)]
                                   || next.seen == ctx.seen[d.stop := Read(m, d.stop)])
    ensures Unspoiled(e, ctx.seen, m)
  {
    var p := ProgramOf(cfg, ctx);
    BumpPointers(d, cfg, area, ctx);
    BumpNext(d, cfg, ctx, m, e);
    hide Exec, CompareExchangeIfShape, ContextOk, Loaded, Note, Unspoiled, Read, InBump, IsBump, InSection, ProgramOf, BlockOf, Stepped, Block, EnvOf;
    BumpBlock(cfg, ctx.call.key.kind);
    BumpExec(p, ctx.call.key.kind, EnvOf(area, ctx.site), ctx.core, m, e);
    NoteShape(d, p.start, ctx.core.pc, ctx.seen, e, m);
  }

  lemma BumpNext(d: Target, cfg: Config, ctx: Context, m: Mem, e: Result)
    requires InBump(d, cfg, ctx)
    ensures
      var next, p := Stepped(cfg, ctx, e, m), ProgramOf(cfg, ctx);
      && InRange(p, ctx.core.pc) && ProgramOf(cfg, next) == p && next.Active?
      && next.core == e.core && next.seen == Note(ctx.seen, e, m) && (InBump(d, cfg, next) ==> e.core.pc < p.post)
  {
    hide Block, Note;
  }

  lemma NoteShape(d: Target, start: nat, pc: nat, seen: Mem, e: Result, m: Mem)
    requires d.word != d.stop && (pc <= start + 3 ==> seen == map[]) && (pc <= start + 6 ==> d.stop !in seen)
    requires e.load == if pc == start + 3 then Some(d.word) else if pc == start + 6 then Some(d.stop) else None
    ensures Unspoiled(e, seen, m)
    ensures e.store.None? ==>
              var more := Note(seen, e, m);
              && (pc < start + 3 ==> more == map[]) && (pc < start + 6 ==> d.stop !in more)
              && (more == seen || more == seen[d.word := Read(m, d.word)] || more == seen[d.stop := Read(m, d.stop)])
  {
  }

  lemma BumpPointers(d: Target, cfg: Config, area: Area, ctx: Context)
    requires ContextOk(cfg, area, ctx) && InBump(d, cfg, ctx)
    ensures Get(ctx.core.regs, WordPtr) == d.word && Get(ctx.core.regs, OtherPtr) == d.stop
    ensures ProgramOf(cfg, ctx) == Block(cfg.arch, OpCompareExchangeIf, ctx.call.key.kind)
  {
    hide Block, WellFormed, TmpOk, Low32, WrapAdd;
  }

  /** An instruction of an increment, committing or not, keeps its pass bound to what it has read. */
  lemma BumpStep(d: Target, cfg: Config, area: Area, ctx: Context, m: Mem, e: Result)
    requires d.word != d.stop && ContextOk(cfg, area, ctx) && InBump(d, cfg, ctx)
    requires SectionOk(cfg, area, ctx) && SeenShape(d, ProgramOf(cfg, ctx), ctx)
    requires e == Exec(ProgramOf(cfg, ctx).code[ctx.core.pc], EnvOf(area, ctx.site), ctx.core, m) && Touches(e, m.Keys)
    ensures
      var next := Stepped(cfg, ctx, e, m);
      && (InBump(d, cfg, next) ==> SectionOk(cfg, area, next) && SeenShape(d, ProgramOf(cfg, next), next) && e.store.None?)
      && (InBump(d, cfg, next) ==> next.seen == ctx.seen || next.seen == ctx.seen[d.word := Read(m, d.word)]
                                   || next.seen == ctx.seen[d.stop := Read(m, d.stop)])
  {
    BumpSeen(d, cfg, area, ctx, m, e);
    hide Exec, Block, SectionOk, Loaded, ContextOk, Stepped, SeenShape, Touches, Unspoiled;
    SectionStep(cfg, area, ctx, m, e);
  }

  /** Memory as a pass believes it to be. */
  function Believed(m: Mem, seen: Mem): Mem {
    m + seen
  }

  /** An increment that has stored answers Ok. */
  lemma StoredIsOk(cfg: Config, kind: Kind, env: Env, ctx: Context, m: Mem, e: Result)
    requires ctx.Active? && CompareExchangeIfShape(ProgramOf(cfg, ctx), kind) && InSection(cfg, ctx)
    requires e == Exec(ProgramOf(cfg, ctx).code[ctx.core.pc], env, ctx.core, m) && e.store.Some?
    ensures Settled(cfg, Stepped(cfg, ctx, e, m)).Ok?
  {
    BumpExec(ProgramOf(cfg, ctx), kind, env, ctx.core, m, e);
    hide Exec, Block, Settled, Armed, Checked;
    SettledAtPost(cfg, Stepped(cfg, ctx, e, m));
  }

  lemma BumpMeaning(d: Target, call: Call, index: u32, m: Mem)
    requires IsBump(d, call)
    ensures
      var e := Meaning(call, index, m);
      if e.attempt.Ok? then
        && index == d.cpu && Read(m, d.stop) == 0 && call.op.update == WrapAdd(Read(m, d.word), 1)
        && e.mem == m[d.word := call.op.update] != m
      else e.mem == m
  {
    if Meaning(call, index, m).attempt.Ok? {
      assert Read(m[d.word := call.op.update], d.word) != Read(m, d.word);
    }
  }

  /** What leaving the range means: an increment of the counter as the pass believes it to be, or nothing. */
  lemma BumpCommit(d: Target, cfg: Config, area: Area, ctx: Context, m: Mem, e: Result)
    requires d.word != d.stop && ContextOk(cfg, area, ctx) && InBump(d, cfg, ctx) && SectionOk(cfg, area, ctx)
    requires e == Exec(ProgramOf(cfg, ctx).code[ctx.core.pc], EnvOf(area, ctx.site), ctx.core, m)
    requires ProgramOf(cfg, ctx).post <= e.core.pc
    ensures
      var n := Believed(m, ctx.seen);
      if Settled(cfg, Stepped(cfg, ctx, e, m)).Ok? then
        && area.cpuId == d.cpu && Read(n, d.stop) == 0
        && e.store == Some(Cell(d.word, WrapAdd(Read(n, d.word), 1)))
      else e.store == None
  {
    var n, p, env := Believed(m, ctx.seen), ProgramOf(cfg, ctx), EnvOf(area, ctx.site);
    BumpFacts(d, cfg, area, ctx);
    hide *;
    BumpBlock(cfg, CpuIndex);
    BumpExec(p, CpuIndex, env, ctx.core, m, e);
    if e.store.Some? { StoredIsOk(cfg, CpuIndex, env, ctx, m, e); }
    BelievedAgrees(m, ctx.seen);
    BumpLeaves(p, CpuIndex, env, ctx.core, m, n, e);
    CommitMeans(cfg, area, ctx, n, e);
    SameSettled(cfg, ctx, m, n, e);
    BumpMeaning(d, ctx.call, area.cpuId, n);
    AfterStore(n, e.store);
  }

  lemma BumpFacts(d: Target, cfg: Config, area: Area, ctx: Context)
    requires ContextOk(cfg, area, ctx) && InBump(d, cfg, ctx)
    ensures ctx.Active? && IsBump(d, ctx.call) && InSection(cfg, ctx) && ctx.call.key.kind == CpuIndex
    ensures ProgramOf(cfg, ctx) == Block(cfg.arch, OpCompareExchangeIf, CpuIndex)
    ensures InRange(ProgramOf(cfg, ctx), ctx.core.pc) && IndexOf(area, CpuIndex) == area.cpuId
    ensures Get(ctx.core.regs, WordPtr) == d.word && Get(ctx.core.regs, Update) == ctx.call.op.update
  {
    hide Block, Low32, TmpOk;
  }

  lemma BelievedAgrees(m: Mem, seen: Mem)
    ensures Agrees(Believed(m, seen), seen)
  {
  }

  /** The instruction an increment leaves its range by reads no memory. */
  lemma BumpLeaves(p: Program, kind: Kind, env: Env, c: Core, m: Mem, n: Mem, e: Result)
    requires CompareExchangeIfShape(p, kind) && InRange(p, c.pc) && e == Exec(p.code[c.pc], env, c, m) && p.post <= e.core.pc
    ensures e == Exec(p.code[c.pc], env, c, n) && e.load == None
    ensures e.store == None || e.store == Some(Cell(Get(c.regs, WordPtr), Get(c.regs, Update)))
  {
    BumpExec(p, kind, env, c, m, e);
    ReadsNothing(p, kind, env, c, m, e);
    hide Exec, CompareExchangeIfShape;
    ExecAgrees(p.code[c.pc], env, c, m, n);
  }

  lemma ReadsNothing(p: Program, kind: Kind, env: Env, c: Core, m: Mem, e: Result)
    requires CompareExchangeIfShape(p, kind) && InRange(p, c.pc) && e == Exec(p.code[c.pc], env, c, m) && p.post <= e.core.pc
    ensures e.load == None
  {
    BumpExec(p, kind, env, c, m, e);
    if c.pc == p.start + 3 || c.pc == p.start + 6 { hide Armed, Checked, Exits, MissAt, Low32, WrapAdd; }
  }

  lemma SameSettled(cfg: Config, ctx: Context, m: Mem, n: Mem, e: Result)
    requires ctx.Active?
    ensures Settled(cfg, Stepped(cfg, ctx, e, m)) == Settled(cfg, Stepped(cfg, ctx, e, n))
  {
    hide Settled, Block;
    SettledCore(cfg, Stepped(cfg, ctx, e, m), Stepped(cfg, ctx, e, n));
  }

  lemma AfterStore(m: Mem, store: Option<Cell>)
    ensures After(m, store) == if store.Some? then m[store.value.addr := store.value.value] else m
  {
  }

  lemma KnownNext(d: Target, cfg: Config, s: State, l: Label, t: Tid)
    requires Enabled(cfg, s, l) && t in s.threads && (l.Begin? ==> IsBump(d, l.call) || IsElsewhere(d, l.call))
    requires forall i | 0 <= i < |s.threads[t].stack| :: Known(d, s.threads[t].stack[i])
    ensures forall i | 0 <= i < |Next(cfg, s, l).threads[t].stack| :: Known(d, Next(cfg, s, l).threads[t].stack[i])
  {
    hide Exec, InRange, IsBump, IsElsewhere, Loaded, Touches;
  }

  /** Every step keeps what is known of every thread. */
  lemma DrainThreadNext(d: Target, cfg: Config, s: State, l: Label, t: Tid)
    requires Enabled(cfg, s, l) && t in s.threads && d.word != d.stop && DrainThread(d, cfg, s.threads[t])
    requires l.Begin? ==> IsBump(d, l.call) || IsElsewhere(d, l.call)
    ensures DrainThread(d, cfg, Next(cfg, s, l).threads[t])
  {
    var th := s.threads[t];
    assert ThreadArmed(cfg, th);
    KnownNext(d, cfg, s, l, t);
    hide Exec, Block, Loaded, Kick, IsBump, IsElsewhere, SectionOk, SeenShape, ThreadArmed, Known;
    if l == Step(t) {
      OwnStep(d, cfg, th, s.mem);
    } else {
      Unmoved(cfg, s, l, t);
    }
  }

  /** The same for the thread whose instruction it is. */
  lemma OwnStep(d: Target, cfg: Config, th: Thread, m: Mem)
    requires d.word != d.stop && DrainThread(d, cfg, th) && Top(th).Active?
    requires Top(th).core.pc < |ProgramOf(cfg, Top(th)).code| && Touches(ExecTop(cfg, th, m), m.Keys)
    ensures
      var next := StepThread(cfg, th, m);
      && ThreadArmed(cfg, next)
      && (InBump(d, cfg, Top(next)) ==>
            && SectionOk(cfg, next.area, Top(next)) && SeenShape(d, ProgramOf(cfg, Top(next)), Top(next))
            && ExecTop(cfg, th, m).store.None?
            && (Top(next).seen == map[] || Top(next).seen == Top(th).seen
                || Top(next).seen == Top(th).seen[d.word := Read(m, d.word)]
                || Top(next).seen == Top(th).seen[d.stop := Read(m, d.stop)])
            && (Top(next).seen != map[] ==> InBump(d, cfg, Top(th))))
  {
    var ctx, e, next := Top(th), ExecTop(cfg, th, m), StepThread(cfg, th, m);
    var p := ProgramOf(cfg, ctx);
    ArmedStep(cfg, th, m);
    assert ContextOk(cfg, th.area, ctx);
    EveryBlockWellFormed(cfg.arch, OpcodeOf(ctx.call.op), ctx.call.key.kind);
    hide Exec, Block, Faithful, Low32, PageOffset, Note, ThreadArmed, ContextOk, IsBump, Known;
    assert Top(next) == Stepped(cfg, ctx, e, m);
    if InBump(d, cfg, Top(next)) {
      if ctx.core.pc < p.start {
        EntryStep(cfg, th.area, ctx, m, e);
        forall n: Mem | e.core.pc == p.start
          ensures Faithful(p, EnvOf(next.area, ctx.site), ctx.call, e.core, map[], n)
        {
          EntryLoaded(cfg, next.area, Top(next));
          EveryBlockFaithful(cfg.arch, EnvOf(next.area, ctx.site), ctx.call, e.core, n);
        }
      } else if ctx.core.pc < p.post {
        BumpStep(d, cfg, th.area, ctx, m, e);
        hide SectionOk, SeenShape;
        RangeStep(cfg, th.area, ctx, m, e);
      } else {
        TailExec(p, OpcodeOf(ctx.call.op), ctx.call.key.kind, EnvOf(th.area, ctx.site), ctx.core, m, e);
      }
    }
  }

  lemma EntryLoaded(cfg: Config, area: Area, ctx: Context)
    requires ContextOk(cfg, area, ctx) && InSection(cfg, ctx)
    ensures Loaded(ctx.call, area.addr, ctx.core.regs)
  {
    hide Block, Loaded;
  }

  /** An instruction of any other call, or of an increment outside its range, leaves the two words alone. */
  lemma ElsewhereStep(d: Target, cfg: Config, area: Area, ctx: Context, m: Mem, e: Result)
    requires ContextOk(cfg, area, ctx) && Known(d, ctx) && !InBump(d, cfg, ctx)
    requires ctx.Active? && ctx.core.pc < |ProgramOf(cfg, ctx).code|
    requires e == Exec(ProgramOf(cfg, ctx).code[ctx.core.pc], EnvOf(area, ctx.site), ctx.core, m)
    ensures e.store.Some? ==> e.store.value.addr != d.word && e.store.value.addr != d.stop
    ensures IsBump(d, ctx.call) ==> !(ctx.core.pc < ProgramOf(cfg, ctx).post <= e.core.pc)
  {
    var p, opcode, kind, env := ProgramOf(cfg, ctx), OpcodeOf(ctx.call.op), ctx.call.key.kind, EnvOf(area, ctx.site);
    EveryBlockWellFormed(cfg.arch, opcode, kind);
    hide Exec, Block, WellFormed, Low32, PageOffset, TmpOk;
    if ctx.core.pc < p.start {
      EntryStep(cfg, area, ctx, m, e);
      Ranged(p, opcode, kind);
    } else if p.post <= ctx.core.pc {
      TailExec(p, opcode, kind, env, ctx.core, m, e);
    } else if e.store.Some? {
      StoreTarget(p, opcode, kind, env, ctx.core, m, e);
    }
  }

  lemma Overlaid(m: Mem, seen: Mem, a: usize)
    ensures Read(Believed(m, seen), a) == if a in seen then seen[a] else Read(m, a)
  {
  }

  /** An instruction changes the counter only by a commit, only while no drain is holding it,
      and then by one from its present value. */
  lemma StepStores(d: Target, b: Books, cfg: Config, s: State, t: Tid)
    requires Enabled(cfg, s, Step(t)) && DrainInv(d, b, cfg, s)
    ensures
      var store := ExecTop(cfg, s.threads[t], s.mem).store;
      if BumpCommits(d, cfg, s, Step(t)) then
        && s.threads[t].area.cpuId == d.cpu && (b.phase.Open? || b.phase.Stopped?)
        && store == Some(Cell(d.word, WrapAdd(Read(s.mem, d.word), 1)))
      else store.Some? ==> store.value.addr != d.word && store.value.addr != d.stop
  {
    var th := s.threads[t];
    var ctx, e := Top(th), ExecTop(cfg, th, s.mem);
    assert DrainThread(d, cfg, th) && ThreadArmed(cfg, th) && ContextOk(cfg, th.area, ctx) && Known(d, ctx);
    assert Top(Next(cfg, s, Step(t)).threads[t]) == Stepped(cfg, ctx, e, s.mem) by {
      hide Exec, Block, Note, DrainInv;
    }
    hide Exec, Block, ContextOk, SectionOk, IsBump, IsElsewhere, SeenShape, Settled, WrapAdd, Note, Next, Placed;
    if InBump(d, cfg, ctx) {
      assert LiveBump(d, cfg, s, t);
      if ProgramOf(cfg, ctx).post <= e.core.pc {
        BumpCommit(d, cfg, th.area, ctx, s.mem, e);
        Overlaid(s.mem, ctx.seen, d.word);
        Overlaid(s.mem, ctx.seen, d.stop);
      } else {
        RangeStep(cfg, th.area, ctx, s.mem, e);
        BumpStep(d, cfg, th.area, ctx, s.mem, e);
      }
    } else {
      ElsewhereStep(d, cfg, th.area, ctx, s.mem, e);
    }
  }

  /** Memory at the two words after a step. */
  lemma WordsNext(d: Target, b: Books, cfg: Config, s: State, l: Label)
    requires Enabled(cfg, s, l) && DrainInv(d, b, cfg, s) && DrainLabel(d, b.phase, l)
    ensures
      var n := Next(cfg, s, l).mem;
      && Read(n, d.word) == (if l.Plain? && l.addr == d.word then 0
                             else if BumpCommits(d, cfg, s, l) then WrapAdd(Read(s.mem, d.word), 1)
                             else Read(s.mem, d.word))
      && Read(n, d.stop) == (if l.Plain? && l.addr == d.stop then l.value else Read(s.mem, d.stop))
    ensures BumpCommits(d, cfg, s, l) ==> b.phase.Open? || b.phase.Stopped?
  {
    hide Exec, Block, Settled, WrapAdd, Loaded, Kick, IsBump, IsElsewhere, InSection, Touches;
    if l.Step? {
      StepStores(d, b, cfg, s, l.t);
      hide DrainInv, BumpCommits, StepThread, ExecTop;
    }
  }

  /** What an increment reads itself is up to date, and a stop word it reads while held is set. */
  lemma OwnHarmless(d: Target, b: Books, cfg: Config, s: State, t: Tid)
    requires Enabled(cfg, s, Step(t)) && DrainInv(d, b, cfg, s)
    requires LiveBump(d, cfg, Next(cfg, s, Step(t)), t)
    ensures Harmless(d, b.phase, Next(cfg, s, Step(t)).mem, Top(Next(cfg, s, Step(t)).threads[t]).seen)
  {
    var th := s.threads[t];
    assert DrainThread(d, cfg, th);
    OwnStep(d, cfg, th, s.mem);
    hide Exec, Block, InBump, StepThread, ExecTop, Touches, DrainThread;
    assert Top(Next(cfg, s, Step(t)).threads[t]).seen != map[] ==> LiveBump(d, cfg, s, t);
  }

  /** What the words hold now, against what a pass on the drained CPU has read, when no fence hits it. */
  lemma HarmlessKept(d: Target, phase: Phase, l: Label, m: Mem, n: Mem, seen: Mem)
    requires Harmless(d, phase, m, seen) && Tracked(d, phase, m) && d.word != d.stop
    requires ActionOf(d, l).Some? ==> Keeps(phase, ActionOf(d, l).value) && !ActionOf(d, l).value.Fence?
    requires Read(n, d.word) == if l.Plain? && l.addr == d.word then 0 else Read(m, d.word)
    ensures Harmless(d, PhaseAfter(d, phase, l), n, seen)
  {
  }

  /** No step makes what a running increment has read harmful. */
  lemma HarmlessNext(d: Target, b: Books, cfg: Config, s: State, l: Label, t: Tid)
    requires Enabled(cfg, s, l) && DrainInv(d, b, cfg, s) && DrainLabel(d, b.phase, l)
    requires LiveBump(d, cfg, Next(cfg, s, l), t)
    ensures Harmless(d, PhaseAfter(d, b.phase, l), Next(cfg, s, l).mem, Top(Next(cfg, s, l).threads[t]).seen)
  {
    WordsNext(d, b, cfg, s, l);
    LiveBefore(d, cfg, s, l, t);
    var th := s.threads[t];
    assert DrainThread(d, cfg, th) && d.word != d.stop && Tracked(d, b.phase, s.mem);
    hide Exec, Block, WrapAdd, Loaded, Kick, IsBump, IsElsewhere, InSection, Touches, BumpCommits, Enabled, Tracked;
    hide ThreadArmed, SectionOk, SeenShape, Known, Placed, StepThread, Fenced, Next;
    if l == Step(t) {
      hide LiveBump;
      OwnHarmless(d, b, cfg, s, t);
    } else if th.area.cpuId != d.cpu {
      assert Top(th).seen == map[] by { BumpElsewhere(d, cfg, th); }
    } else {
      NotFenced(d, cfg, s, l, t);
      if BumpCommits(d, cfg, s, l) { NoOtherCommit(d, b, cfg, s, l, t); }
      var n := Next(cfg, s, l);
      assert Harmless(d, b.phase, s.mem, Top(th).seen);
      hide LiveBump, DrainInv, DrainThread, Harmless, PhaseAfter;
      HarmlessKept(d, b.phase, l, s.mem, n.mem, Top(th).seen);
    }
  }

  /** While one increment runs on the drained CPU no other one commits. */
  lemma NoOtherCommit(d: Target, b: Books, cfg: Config, s: State, l: Label, t: Tid)
    requires Enabled(cfg, s, l) && DrainInv(d, b, cfg, s) && Runs(s, t) && s.threads[t].area.cpuId == d.cpu && l != Step(t)
    ensures !BumpCommits(d, cfg, s, l)
  {
    if BumpCommits(d, cfg, s, l) {
      CommitsStep(d, cfg, s, l);
      StepStores(d, b, cfg, s, l.t);
      hide BumpCommits, DrainThread;
      SameCpu(s, l.t, t);
    }
  }

  lemma SameCpu(s: State, t: Tid, u: Tid)
    requires Placed(s) && Runs(s, t) && Runs(s, u) && s.threads[t].area.cpuId == s.threads[u].area.cpuId
    ensures t == u
  {
  }

  lemma BumpElsewhere(d: Target, cfg: Config, th: Thread)
    requires DrainThread(d, cfg, th) && InBump(d, cfg, Top(th)) && th.area.cpuId != d.cpu
    ensures Top(th).seen == map[]
  {
    hide Block, SectionOk, SeenShape, ContextOk;
    MismatchSeesNothing(cfg, th.area, Top(th));
  }

  lemma LiveBefore(d: Target, cfg: Config, s: State, l: Label, t: Tid)
    requires Enabled(cfg, s, l) && LiveBump(d, cfg, Next(cfg, s, l), t)
    requires forall u | u in s.threads :: ThreadArmed(cfg, s.threads[u])
    ensures t in s.threads
    ensures l != Step(t) ==> LiveBump(d, cfg, s, t) && Top(Next(cfg, s, l).threads[t]) == Top(s.threads[t])
  {
    hide Exec, Block, ThreadArmed, Loaded, Kick, IsBump, StepThread, Touches;
    if t in s.threads && l != Step(t) {
      Unmoved(cfg, s, l, t);
    }
  }

  /** A running increment on the drained CPU has not been fenced. */
  lemma NotFenced(d: Target, cfg: Config, s: State, l: Label, t: Tid)
    requires Enabled(cfg, s, l) && LiveBump(d, cfg, s, t) && LiveBump(d, cfg, Next(cfg, s, l), t) && l != Step(t)
    requires ThreadArmed(cfg, s.threads[t]) && Placed(s) && s.threads[t].area.cpuId == d.cpu
    ensures l != FenceCpu(l.t, d.cpu) && !l.FenceAll?
  {
    hide Exec, Block, ContextOk, Loaded, IsBump;
    KickLeavesSection(cfg, s.threads[t]);
    hide Kick;
  }

  /** The phase says what the two words hold. */
  predicate Tracked(d: Target, phase: Phase, m: Mem) {
    && (phase.Open? <==> Read(m, d.stop) == 0)
    && (phase.Taken? || phase.Swept? ==> Read(m, d.word) == 0)
  }

  lemma TrackedNext(d: Target, b: Books, cfg: Config, s: State, l: Label)
    requires Enabled(cfg, s, l) && DrainInv(d, b, cfg, s) && DrainLabel(d, b.phase, l)
    ensures Tracked(d, PhaseAfter(d, b.phase, l), Next(cfg, s, l).mem)
  {
    WordsNext(d, b, cfg, s, l);
    assert d.word != d.stop && Tracked(d, b.phase, s.mem);
    hide DrainInv, BumpCommits, Next, Enabled, IsBump, IsElsewhere, WrapAdd, Read;
  }

  lemma DrainThreadsNext(d: Target, b: Books, cfg: Config, s: State, l: Label)
    requires Enabled(cfg, s, l) && DrainInv(d, b, cfg, s) && KnownLabel(d, l)
    ensures forall t | t in Next(cfg, s, l).threads :: DrainThread(d, cfg, Next(cfg, s, l).threads[t])
  {
    var n := Next(cfg, s, l);
    forall t | t in n.threads ensures DrainThread(d, cfg, n.threads[t]) {
      SameThreads(cfg, s, l);
      hide Enabled, Next, DrainThread, Placed, LiveBump, IsBump, IsElsewhere;
      DrainThreadNext(d, cfg, s, l, t);
    }
  }

  lemma SameThreads(cfg: Config, s: State, l: Label)
    requires Enabled(cfg, s, l)
    ensures Next(cfg, s, l).threads.Keys == s.threads.Keys
  {
    hide Exec, Block, Kick, Loaded, StepThread, Touches;
  }

  /** Every step that keeps the protocol keeps the invariant. */
  lemma DrainNext(d: Target, b: Books, cfg: Config, s: State, l: Label)
    requires Enabled(cfg, s, l) && DrainInv(d, b, cfg, s) && DrainLabel(d, b.phase, l)
    ensures DrainInv(d, BooksNext(d, b, cfg, s, l), cfg, Next(cfg, s, l))
  {
    var n := Next(cfg, s, l);
    hide Next, Enabled, DrainThread, Harmless, LiveBump, Placed, BumpCommits, PhaseAfter, IsBump, IsElsewhere, ActionOf, Keeps;
    TrackedNext(d, b, cfg, s, l);
    assert Placed(n) by { PlacedNext(cfg, s, l); }
    DrainThreadsNext(d, b, cfg, s, l);
    forall t | LiveBump(d, cfg, n, t) ensures Harmless(d, PhaseAfter(d, b.phase, l), n.mem, Top(n.threads[t]).seen) {
      HarmlessNext(d, b, cfg, s, l, t);
    }
  }

  /** One step moves what it takes from the counter to the drainer, and adds what it commits. */
  lemma BooksBalance(d: Target, b: Books, cfg: Config, s: State, l: Label)
    requires Enabled(cfg, s, l) && DrainInv(d, b, cfg, s) && DrainLabel(d, b.phase, l)
    ensures
      var n, c := Next(cfg, s, l), BooksNext(d, b, cfg, s, l);
      WrapAdd(Read(n.mem, d.word), c.stolen)
      == WrapAdd(WrapAdd(Read(s.mem, d.word), b.stolen), if BumpCommits(d, cfg, s, l) then 1 else 0)
  {
    WordsNext(d, b, cfg, s, l);
    hide Exec, Block, Kick, Loaded, Next, DrainInv, BumpCommits, Touches;
    if BumpCommits(d, cfg, s, l) { CommitsStep(d, cfg, s, l); }
    hide Enabled, DrainLabel, PhaseAfter;
  }

  lemma CommitsStep(d: Target, cfg: Config, s: State, l: Label)
    requires Enabled(cfg, s, l) && BumpCommits(d, cfg, s, l)
    ensures l.Step?
  {
    hide Exec, Block, Kick;
  }

  /** The protocol is kept by every step of a run; and the books at its end. */
  predicate DrainRun(d: Target, b: Books, cfg: Config, s: State, ls: seq<Label>)
    requires ValidRun(cfg, s, ls)
    decreases |ls|, 0
  {
    ls != [] ==>
      && DrainRun(d, b, cfg, s, ls[..|ls| - 1])
      && DrainLabel(d, BooksAfter(d, b, cfg, s, ls[..|ls| - 1]).phase, ls[|ls| - 1])
  }

  function BooksAfter(d: Target, b: Books, cfg: Config, s: State, ls: seq<Label>): Books
    requires ValidRun(cfg, s, ls)
    decreases |ls|
  {
    if ls == [] then b
    else BooksNext(d, BooksAfter(d, b, cfg, s, ls[..|ls| - 1]), cfg, StateAfter(cfg, s, ls[..|ls| - 1]), ls[|ls| - 1])
  }

  /** The books count every increment that commits, once, modulo 2^64; what is stolen is what is found in the
      counter when it is stored to. */
  lemma {:induction false} BooksCounted(d: Target, b: Books, cfg: Config, s: State, ls: seq<Label>)
    requires ValidRun(cfg, s, ls) && b.committed == 0
    ensures forall k: nat | k < |ls| :: Enabled(cfg, Before(cfg, s, ls, k), ls[k])
    ensures BooksAfter(d, b, cfg, s, ls).committed
         == |set k: nat | k < |ls| && BumpCommits(d, cfg, Before(cfg, s, ls, k), ls[k])| % 0x1_0000_0000_0000_0000
    ensures (forall k: nat | k < |ls| && ls[k].Plain? :: ls[k].addr != d.word) ==> BooksAfter(d, b, cfg, s, ls).stolen == b.stolen
    ensures ls != [] && ls[|ls| - 1].Plain? && ls[|ls| - 1].addr == d.word ==>
              BooksAfter(d, b, cfg, s, ls).stolen
              == WrapAdd(BooksAfter(d, b, cfg, s, ls[..|ls| - 1]).stolen, Read(StateAfter(cfg, s, ls[..|ls| - 1]).mem, d.word))
    decreases |ls|
  {
    hide Enabled, Next, BumpCommits, Before, PhaseAfter, WrapAdd;
    if ls != [] {
      var n, front := |ls| - 1, ls[..|ls| - 1];
      BooksCounted(d, b, cfg, s, front);
      BeforeFront(cfg, s, ls);
      assert forall k: nat | k < n :: front[k] == ls[k];
      var few := set k: nat | k < n && BumpCommits(d, cfg, Before(cfg, s, front, k), front[k]);
      OneMorePosition(few, (set k: nat | k < |ls| && BumpCommits(d, cfg, Before(cfg, s, ls, k), ls[k])), n,
                      BumpCommits(d, cfg, StateAfter(cfg, s, front), ls[n]));
      OneMore(|few|);
    }
  }

  lemma OneMore(n: nat)
    ensures WrapAdd(n % WORD, 1) == (n + 1) % WORD
  {
  }

  /** Exactness: whatever updaters, other calls and the kernel do, remaining + stolen = initial + committed. */
  lemma {:induction false} Drained(d: Target, b: Books, cfg: Config, s: State, ls: seq<Label>)
    requires DrainInv(d, b, cfg, s) && ValidRun(cfg, s, ls) && DrainRun(d, b, cfg, s, ls)
    requires b.stolen == 0 && b.committed == 0
    ensures DrainInv(d, BooksAfter(d, b, cfg, s, ls), cfg, StateAfter(cfg, s, ls))
    ensures
      var n, c := StateAfter(cfg, s, ls), BooksAfter(d, b, cfg, s, ls);
      WrapAdd(Read(n.mem, d.word), c.stolen) == WrapAdd(Read(s.mem, d.word), c.committed)
    decreases |ls|
  {
    hide Enabled, Next, DrainInv, DrainLabel, BumpCommits;
    if ls != [] {
      var front, l := ls[..|ls| - 1], ls[|ls| - 1];
      Drained(d, b, cfg, s, front);
      DrainNext(d, BooksAfter(d, b, cfg, s, front), cfg, StateAfter(cfg, s, front), l);
      BooksBalance(d, BooksAfter(d, b, cfg, s, front), cfg, StateAfter(cfg, s, front), l);
    }
  }

  /** Between the fence and the clearing of the stop word no increment commits. */
  lemma HeldCommitsNothing(d: Target, b: Books, cfg: Config, s: State, l: Label)
    requires Enabled(cfg, s, l) && DrainInv(d, b, cfg, s) && Shut(b.phase)
    ensures !BumpCommits(d, cfg, s, l)
    ensures l.Step? ==> Read(Next(cfg, s, l).mem, d.word) == Read(s.mem, d.word)
  {
    hide Exec, Block, Loaded, Kick, InBump, IsElsewhere, DrainThread, Harmless, StepThread, ExecTop, Touches;
    if l.Step? { WordsNext(d, b, cfg, s, l); }
  }

  /** Any state at rest with the stop word clear is a start. */
  lemma DrainStart(d: Target, cfg: Config, s: State)
    requires d.word != d.stop && AtRest(s) && Read(s.mem, d.stop) == 0
    ensures DrainInv(d, Books(Open, 0, 0), cfg, s)
  {
    hide Block;
  }
}