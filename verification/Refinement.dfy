/** Every step of the instruction machine is a step of the atomic machine, or none. */
module Refinement {
  import opened Bits
  import opened Ops
  import opened Isa
  import opened Operands
  import opened Blocks
  import opened Stepping
  import opened Semantics
  import opened Machine
  import opened Sections
  import opened Atomic

  function AbsContext(cfg: Config, ctx: Context): View {
    match ctx
    case Idle => Quiet
    case Active(call, _, core, _) =>
      if core.pc < ProgramOf(cfg, ctx).post then Pending(call) else Done(call, Settled(cfg, ctx))
  }

  function AbsThread(cfg: Config, th: Thread): AThread {
    AThread(th.place, th.area.cpuId, th.area.mmCid, seq(|th.stack|, i requires 0 <= i < |th.stack| => AbsContext(cfg, th.stack[i])))
  }

  /** Forget instruction pointers, registers and `rseq_cs`. */
  function Abs(cfg: Config, s: State): AState {
    AState(s.mem, map t | t in s.threads :: AbsThread(cfg, s.threads[t]))
  }

  /** What a step of the instruction machine looks like from above:
      a call takes effect at the instruction that leaves its range. */
  function Observe(cfg: Config, s: State, l: Label): ALabel
    requires Enabled(cfg, s, l)
  {
    match l
    case Begin(t, call, _, _, _) => Invoke(t, call)
    case Step(t) =>
      var ctx := Top(s.threads[t]);
      var p := ProgramOf(cfg, ctx);
      var e := ExecTop(cfg, s.threads[t], s.mem);
      if ctx.core.pc < p.post <= e.core.pc then Commit(t)
      else if e.store.Some? then Scratch(t)
      else Silent
    case Return(t) => Respond(t)
    case Plain(t, addr, value) => Write(t, addr, value)
    case Unload(_) => Silent
    case Preempt(t) => Depart(t)
    case Resume(t, cpu, cid) => Arrive(t, cpu, cid)
    case Signal(t) => Push(t)
    case SigReturn(t, _) => Pop(t)
    case FenceCpu(_, _) => Silent
    case FenceAll(_) => Silent
  }

  /** Running threads have distinct CPUs and distinct concurrency ids, and their areas say so. */
  predicate Placed(s: State) {
    && (forall t | t in s.threads && s.threads[t].place.On? :: s.threads[t].area.cpuId == s.threads[t].place.cpu)
    && (forall t, u | t in s.threads && u in s.threads && t != u && s.threads[t].place.On? && s.threads[u].place.On? ::
          s.threads[t].place.cpu != s.threads[u].place.cpu && s.threads[t].area.mmCid != s.threads[u].area.mmCid)
  }

  predicate InLiveSection(cfg: Config, s: State, t: Tid) {
    Runs(s, t) && InSection(cfg, Top(s.threads[t]))
  }

  /** What a running pass has seen is still there. */
  ghost predicate SeenCurrent(cfg: Config, s: State) {
    forall t | InLiveSection(cfg, s, t) :: Agrees(s.mem, Top(s.threads[t]).seen)
  }

  ghost predicate AllProper(s: State) {
    forall t, i | t in s.threads && 0 <= i < |s.threads[t].stack| && s.threads[t].stack[i].Active? ::
      Proper(s.threads[t].stack[i].call)
  }

  /** The part of the invariant that holds under any interference. */
  ghost predicate Local(cfg: Config, s: State) {
    && (forall t | t in s.threads :: ThreadOk(cfg, s.threads[t]))
    && Placed(s) && AllProper(s)
  }

  ghost predicate Inv(cfg: Config, s: State) {
    Local(cfg, s) && SeenCurrent(cfg, s)
  }

  ghost predicate StepUnspoiled(cfg: Config, s: State, l: Label)
    requires Enabled(cfg, s, l)
  {
    l.Step? ==> Unspoiled(ExecTop(cfg, s.threads[l.t], s.mem), Top(s.threads[l.t]).seen, s.mem)
  }

  lemma PlacedNext(cfg: Config, s: State, l: Label)
    requires Enabled(cfg, s, l) && Placed(s)
    ensures Placed(Next(cfg, s, l))
  {
    hide Exec, FixUp, BlockOf, InRange;
  }

  lemma ProperNext(cfg: Config, s: State, l: Label)
    requires Enabled(cfg, s, l) && AllProper(s) && (l.Begin? ==> Proper(l.call))
    ensures AllProper(Next(cfg, s, l))
  {
    hide Exec, InRange, Proper;
  }

  /** Only contexts outside their range survive a change of area or of stack. */
  lemma OutsideOk(cfg: Config, th: Thread, next: Thread)
    requires ThreadArmed(cfg, th) && next.stack != [] && next.area.addr == th.area.addr
    requires forall i | 0 <= i < |next.stack| :: next.stack[i].Idle? || next.stack[i] in th.stack
    requires forall i | 0 <= i < |next.stack| :: !InSection(cfg, next.stack[i])
    ensures ThreadArmed(cfg, next)
  {
    hide InSection, ProgramOf, TmpOk, Loaded;
    forall i | 0 <= i < |next.stack| ensures ContextOk(cfg, next.area, next.stack[i]) {
      if next.stack[i] in th.stack {
        var j :| 0 <= j < |th.stack| && th.stack[j] == next.stack[i];
        assert ContextOk(cfg, th.area, th.stack[j]);
      }
    }
  }

  lemma OutsideAll(cfg: Config, th: Thread)
    requires ThreadArmed(cfg, th) && !InSection(cfg, Top(th))
    ensures forall i | 0 <= i < |th.stack| :: !InSection(cfg, th.stack[i])
  {
  }

  lemma BeginOk(cfg: Config, th: Thread, call: Call, site: usize, regs: map<Reg, usize>, eq: bool)
    requires ThreadArmed(cfg, th) && Top(th).Idle? && Loaded(call, th.area.addr, regs)
    requires site in cfg.sites && cfg.sites[site] == Site(OpcodeOf(call.op), call.key.kind)
    ensures ThreadArmed(cfg, SetTop(th, Active(call, site, Core(0, regs, eq), map[])))
  {
    hide Loaded;
    EveryBlockWellFormed(cfg.arch, OpcodeOf(call.op), call.key.kind);
    var next := SetTop(th, Active(call, site, Core(0, regs, eq), map[]));
    hide BlockOf;
    assert ContextOk(cfg, th.area, Top(next));
    forall i | 0 <= i < |next.stack| - 1 ensures ContextOk(cfg, next.area, next.stack[i]) && !InSection(cfg, next.stack[i]) {
      assert next.stack[i] == th.stack[i];
    }
  }

  /** Kernel and API steps keep the armed invariant of every thread. */
  lemma OtherArmedStep(cfg: Config, s: State, l: Label, t: Tid)
    requires Enabled(cfg, s, l) && t in s.threads && ThreadArmed(cfg, s.threads[t]) && !l.Step?
    ensures ThreadArmed(cfg, Next(cfg, s, l).threads[t])
  {
    hide Exec, FixUp, Loaded, Block, ContextOk, Kick, PageOffset;
    var th, next := s.threads[t], Next(cfg, s, l).threads[t];
    KickLeavesSection(cfg, th);
    if next != th && next != Kick(cfg, th) {
      match l
      case Begin(_, call, site, regs, eq) => BeginOk(cfg, th, call, site, regs, eq);
      case Preempt(_) => assert next.stack == th.stack && next.area == th.area && Top(next) == Top(th);
      case Resume(_, _, _) => FromKick(cfg, th, next);
      case Signal(_) => FromKick(cfg, th, next);
      case Return(_) =>
        EveryBlockWellFormed(cfg.arch, OpcodeOf(Top(th).call.op), Top(th).call.key.kind);
        FromRest(cfg, th, next);
      case Unload(_) => FromRest(cfg, th, next);
      case SigReturn(_, _) => FromRest(cfg, th, next);
      case _ =>
    }
  }

  lemma FromKick(cfg: Config, th: Thread, next: Thread)
    requires ThreadArmed(cfg, th) && next.area.addr == th.area.addr
    requires next.stack == Kick(cfg, th).stack || next.stack == Kick(cfg, th).stack + [Idle]
    ensures ThreadArmed(cfg, next)
  {
    hide FixUp, BlockOf, ContextOk;
    KickLeavesSection(cfg, th);
    OutsideAll(cfg, Kick(cfg, th));
    OutsideOk(cfg, Kick(cfg, th), next);
  }

  lemma FromRest(cfg: Config, th: Thread, next: Thread)
    requires ThreadArmed(cfg, th) && !InSection(cfg, Top(th)) && next.area.addr == th.area.addr && next.stack != []
    requires next.stack == th.stack || next.stack == th.stack[..|th.stack| - 1]
             || next.stack == th.stack[..|th.stack| - 1] + [Idle]
    ensures ThreadArmed(cfg, next)
  {
    hide BlockOf, ContextOk;
    OutsideAll(cfg, th);
    OutsideOk(cfg, th, next);
  }

  ghost predicate AllArmed(cfg: Config, s: State) {
    forall t | t in s.threads :: ThreadArmed(cfg, s.threads[t])
  }

  /** The armed invariant holds under every interference, with handlers nested to any depth. */
  lemma ArmedNext(cfg: Config, s: State, l: Label)
    requires Enabled(cfg, s, l) && AllArmed(cfg, s)
    ensures AllArmed(cfg, Next(cfg, s, l))
  {
    hide Exec, Block, ThreadArmed, FixUp, Loaded, Touches;
    var n := Next(cfg, s, l);
    forall t | t in n.threads ensures ThreadArmed(cfg, n.threads[t]) {
      if !l.Step? {
        OtherArmedStep(cfg, s, l, t);
      } else if l.t == t {
        ArmedStep(cfg, s.threads[t], s.mem);
      }
    }
  }

  lemma {:induction false} ArmedRun(cfg: Config, s: State, ls: seq<Label>)
    requires AllArmed(cfg, s) && ValidRun(cfg, s, ls)
    ensures AllArmed(cfg, StateAfter(cfg, s, ls))
    decreases |ls|
  {
    hide Enabled, Next, AllArmed;
    if ls != [] {
      ArmedRun(cfg, s, ls[..|ls| - 1]);
      ArmedNext(cfg, StateAfter(cfg, s, ls[..|ls| - 1]), ls[|ls| - 1]);
    }
  }

  /** A thread whose stack has changed without an instruction of its own is outside every range. */
  lemma NotInside(cfg: Config, s: State, l: Label, t: Tid)
    requires Enabled(cfg, s, l) && t in s.threads && ThreadArmed(cfg, s.threads[t]) && !l.Step?
    requires Next(cfg, s, l).threads[t].stack != s.threads[t].stack || Next(cfg, s, l).threads[t] == Kick(cfg, s.threads[t])
    ensures Next(cfg, s, l).threads[t].stack != [] && !InSection(cfg, Top(Next(cfg, s, l).threads[t]))
  {
    hide Exec, Loaded, Block, ContextOk, Kick, PageOffset;
    KickLeavesSection(cfg, s.threads[t]);
    if l.Begin? && l.t == t {
      EveryBlockWellFormed(cfg.arch, OpcodeOf(l.call.op), l.call.key.kind);
    }
  }

  /** A thread found in a section after a step that is not its own instruction was there before it. */
  lemma Unmoved(cfg: Config, s: State, l: Label, t: Tid)
    requires Enabled(cfg, s, l) && t in s.threads && ThreadArmed(cfg, s.threads[t]) && l != Step(t)
    ensures
      var th, next := s.threads[t], Next(cfg, s, l).threads[t];
      && ThreadArmed(cfg, next)
      && (InSection(cfg, Top(next)) ==> Top(next) == Top(th) && next.area == th.area
                                        && (next.place == th.place || next.place.Off?))
  {
    hide Exec, Block, ContextOk, Loaded, Kick, PageOffset;
    var th, next := s.threads[t], Next(cfg, s, l).threads[t];
    if l.Step? {
      assert next == th;
    } else {
      OtherArmedStep(cfg, s, l, t);
      KickLeavesSection(cfg, th);
      if next.stack != th.stack || next == Kick(cfg, th) { NotInside(cfg, s, l, t); }
      assert l.Resume? && l.t == t ==> Top(next) == Top(Kick(cfg, th));
    }
  }

  /** Kernel and API steps keep every thread sound: they restart a pass or leave it alone. */
  lemma OtherThreadStep(cfg: Config, s: State, l: Label, t: Tid)
    requires Enabled(cfg, s, l) && t in s.threads && ThreadOk(cfg, s.threads[t]) && !l.Step?
    ensures ThreadOk(cfg, Next(cfg, s, l).threads[t])
  {
    Unmoved(cfg, s, l, t);
    hide Enabled, Next, InSection, SectionOk, ThreadArmed;
  }

  /** Every thread stays sound; nothing is asked of the others but not to spoil a load. */
  lemma LocalNext(cfg: Config, s: State, l: Label)
    requires Enabled(cfg, s, l) && Local(cfg, s) && StepUnspoiled(cfg, s, l)
    requires l.Begin? ==> Proper(l.call)
    ensures Local(cfg, Next(cfg, s, l))
  {
    hide Exec, Block, ThreadOk, FixUp, Proper, Unspoiled, Placed, Loaded, Touches;
    PlacedNext(cfg, s, l);
    ProperNext(cfg, s, l);
    var n := Next(cfg, s, l);
    forall t | t in n.threads ensures ThreadOk(cfg, n.threads[t]) {
      if !l.Step? {
        OtherThreadStep(cfg, s, l, t);
      } else if l.t == t {
        ThreadStep(cfg, s.threads[t], s.mem);
      }
    }
  }

  /** The instruction that leaves the range carries out the whole meaning of the call, in memory as it is now. */
  lemma CommitMeans(cfg: Config, area: Area, ctx: Context, m: Mem, e: Result)
    requires ContextOk(cfg, area, ctx) && InSection(cfg, ctx) && SectionOk(cfg, area, ctx) && Agrees(m, ctx.seen)
    requires e == Exec(ProgramOf(cfg, ctx).code[ctx.core.pc], EnvOf(area, ctx.site), ctx.core, m)
    requires ProgramOf(cfg, ctx).post <= e.core.pc
    ensures
      var effect := Meaning(ctx.call, IndexOf(area, ctx.call.key.kind), m);
      effect.attempt == Settled(cfg, Stepped(cfg, ctx, e, m)) && effect.mem == After(m, e.store)
  {
    var p, env, call := ProgramOf(cfg, ctx), EnvOf(area, ctx.site), ctx.call;
    EveryBlockWellFormed(cfg.arch, OpcodeOf(call.op), call.key.kind);
    IndexAgrees(area, ctx.site, call.key.kind);
    assert Faithful(p, env, call, ctx.core, ctx.seen, m);
    TailSettled(p, OpcodeOf(call.op), call.key.kind, env, e.core, After(m, e.store));
    hide Exec, Block, WellFormed, Meaning, Low32, PageOffset;
    assert Remaining(p, env, ctx.core, m) == Remaining(p, env, e.core, After(m, e.store));
  }

  /** A store before the commit is the side store of a `store_if` that would succeed now. */
  lemma ScratchMeans(cfg: Config, area: Area, ctx: Context, m: Mem, e: Result)
    requires ContextOk(cfg, area, ctx) && InSection(cfg, ctx) && SectionOk(cfg, area, ctx) && Agrees(m, ctx.seen)
    requires Proper(ctx.call) && Touches(e, m.Keys)
    requires e == Exec(ProgramOf(cfg, ctx).code[ctx.core.pc], EnvOf(area, ctx.site), ctx.core, m)
    requires e.core.pc < ProgramOf(cfg, ctx).post && e.store.Some?
    ensures
      var effect := Meaning(ctx.call, IndexOf(area, ctx.call.key.kind), m);
      && ctx.call.op.StoreIf? && e.store.value == Cell(ctx.call.op.side, ctx.call.op.sideUpdate)
      && ctx.call.op.side in effect.writes && effect.attempt.Ok?
  {
    SectionStep(cfg, area, ctx, m, e);
    ScratchSucceeds(cfg, area, ctx, m, e, m);
    hide Exec, Block, SectionOk, Low32, PageOffset;
  }

  lemma AbsSetTop(cfg: Config, th: Thread, ctx: Context)
    requires th.stack != []
    ensures AbsThread(cfg, SetTop(th, ctx)) == ASetTop(AbsThread(cfg, th), AbsContext(cfg, ctx))
    ensures ATop(AbsThread(cfg, th)) == AbsContext(cfg, Top(th))
  {
    hide AbsContext;
  }

  lemma AbsUpdate(cfg: Config, s: State, t: Tid, th: Thread)
    ensures Abs(cfg, PutThread(s, t, th)) == AUpdate(Abs(cfg, s), t, AbsThread(cfg, th))
  {
    hide AbsThread;
  }

  /** The kernel's fix-up is invisible from above: the call is still pending. */
  lemma AbsKick(cfg: Config, th: Thread)
    requires ThreadArmed(cfg, th)
    ensures AbsThread(cfg, Kick(cfg, th)) == AbsThread(cfg, th)
  {
    hide Block, Loaded, Settled;
    var ctx := Top(th);
    var fixed := FixUp(cfg, th.area.cs, ctx);
    assert AbsContext(cfg, fixed) == AbsContext(cfg, ctx) by {
      if fixed != ctx {
        EveryBlockWellFormed(cfg.arch, OpcodeOf(ctx.call.op), ctx.call.key.kind);
        assert ContextOk(cfg, th.area, ctx);
      }
    }
    AbsSetTop(cfg, th, fixed);
    var a := AbsThread(cfg, th);
    assert ASetTop(a, ATop(a)).stack == a.stack;
  }

  /** How one user instruction changes the view of its context. */
  lemma ContextAbs(cfg: Config, area: Area, ctx: Context, m: Mem, e: Result)
    requires ctx.Active? && ContextOk(cfg, area, ctx) && ctx.core.pc < |ProgramOf(cfg, ctx).code|
    requires InSection(cfg, ctx) ==> SectionOk(cfg, area, ctx) && Agrees(m, ctx.seen)
    requires Proper(ctx.call) && Touches(e, m.Keys)
    requires e == Exec(ProgramOf(cfg, ctx).code[ctx.core.pc], EnvOf(area, ctx.site), ctx.core, m)
    ensures
      var p, next := ProgramOf(cfg, ctx), Stepped(cfg, ctx, e, m);
      var effect := Meaning(ctx.call, IndexOf(area, ctx.call.key.kind), m);
      if ctx.core.pc < p.post <= e.core.pc then
        && AbsContext(cfg, ctx) == Pending(ctx.call)
        && AbsContext(cfg, next) == Done(ctx.call, effect.attempt)
        && After(m, e.store) == effect.mem
      else
        && AbsContext(cfg, next) == AbsContext(cfg, ctx)
        && (e.store.Some? ==>
              && AbsContext(cfg, ctx) == Pending(ctx.call) && ctx.call.op.StoreIf?
              && e.store.value == Cell(ctx.call.op.side, ctx.call.op.sideUpdate)
              && ctx.call.op.side in effect.writes && effect.attempt.Ok?)
  {
    var p, next := ProgramOf(cfg, ctx), Stepped(cfg, ctx, e, m);
    EveryBlockWellFormed(cfg.arch, OpcodeOf(ctx.call.op), ctx.call.key.kind);
    hide Exec, Block, ContextOk, WellFormed, Low32, PageOffset, Meaning, Loaded, TmpOk, SectionOk, Agrees, Note, Settled;
    if ctx.core.pc < p.start {
      EntryStep(cfg, area, ctx, m, e);
      assert p.start < p.post by { Ranged(p, OpcodeOf(ctx.call.op), ctx.call.key.kind); }
    } else if ctx.core.pc < p.post {
      if p.post <= e.core.pc {
        CommitMeans(cfg, area, ctx, m, e);
      } else if e.store.Some? {
        ScratchMeans(cfg, area, ctx, m, e);
      }
    } else {
      TailExec(p, OpcodeOf(ctx.call.op), ctx.call.key.kind, EnvOf(area, ctx.site), ctx.core, m, e);
      SettledStep(cfg, ctx, m, e);
    }
  }

  lemma Ranged(p: Program, opcode: Opcode, kind: Kind)
    requires WellFormed(p, opcode, kind)
    ensures p.start < p.post < |p.code|
  {
  }

  /** Register moves after the range do not change the answer. */
  lemma SettledStep(cfg: Config, ctx: Context, m: Mem, e: Result)
    requires ctx.Active? && ProgramOf(cfg, ctx).post <= ctx.core.pc < |ProgramOf(cfg, ctx).code|
    requires e == Exec(ProgramOf(cfg, ctx).code[ctx.core.pc], NOWHERE, ctx.core, map[])
    requires e.store.None? && e.core.pc > ctx.core.pc
    ensures Settled(cfg, Stepped(cfg, ctx, e, m)) == Settled(cfg, ctx)
  {
    hide Exec, Block;
  }

  lemma AbsStepThread(cfg: Config, th: Thread, m: Mem)
    requires th.stack != [] && Top(th).Active? && Top(th).core.pc < |ProgramOf(cfg, Top(th)).code|
    ensures
      var next := Stepped(cfg, Top(th), ExecTop(cfg, th, m), m);
      && AbsThread(cfg, StepThread(cfg, th, m)) == ASetTop(AbsThread(cfg, th), AbsContext(cfg, next))
      && ATop(AbsThread(cfg, th)) == AbsContext(cfg, Top(th))
      && (AbsContext(cfg, next) == AbsContext(cfg, Top(th)) ==> AbsThread(cfg, StepThread(cfg, th, m)) == AbsThread(cfg, th))
  {
    hide Exec, Block, AbsContext, Note;
    var next := Stepped(cfg, Top(th), ExecTop(cfg, th, m), m);
    AbsSetTop(cfg, th, next);
    var a := AbsThread(cfg, th);
    assert ASetTop(a, ATop(a)).stack == a.stack;
  }

  /** The running context of a stepping thread, as the invariant describes it. */
  lemma RunningContext(cfg: Config, s: State, t: Tid)
    requires Executing(cfg, s, t) && Inv(cfg, s)
    ensures
      var th := s.threads[t];
      && ContextOk(cfg, th.area, Top(th)) && Proper(Top(th).call)
      && (InSection(cfg, Top(th)) ==> SectionOk(cfg, th.area, Top(th)) && Agrees(s.mem, Top(th).seen))
  {
    hide Block, ContextOk, SectionOk, Agrees, Proper;
    var th := s.threads[t];
    assert ThreadOk(cfg, th);
    assert InSection(cfg, Top(th)) ==> InLiveSection(cfg, s, t);
  }

  /** How one user instruction looks from above. */
  lemma AbsStep(cfg: Config, s: State, t: Tid)
    requires Enabled(cfg, s, Step(t)) && Inv(cfg, s)
    ensures AEnabled(Abs(cfg, s), Observe(cfg, s, Step(t)))
    ensures Abs(cfg, Next(cfg, s, Step(t))) == ANext(Abs(cfg, s), Observe(cfg, s, Step(t)))
  {
    hide Exec, Block, InRange, Meaning, Inv, Local, ThreadOk, ContextOk, AbsContext, Touches;
    hide StepThread, SetTop, ASetTop, Proper, Stepped, Loaded, SectionOk, InSection, Agrees;
    var th := s.threads[t];
    RunningContext(cfg, s, t);
    ContextAbs(cfg, th.area, Top(th), s.mem, ExecTop(cfg, th, s.mem));
    AbsStepThread(cfg, th, s.mem);
    AbsUpdate(cfg, s, t, StepThread(cfg, th, s.mem));
  }

  /** A finished call answers what it was settled to answer. */
  lemma AnswerSettled(cfg: Config, ctx: Context)
    requires ctx.Active? && ctx.core.pc == |ProgramOf(cfg, ctx).code|
    ensures Answer(cfg, ctx) == Settled(cfg, ctx)
  {
    hide Block, Exec;
  }

  /** A call invoked, seen from above. */
  lemma AbsBegin(cfg: Config, s: State, l: Label)
    requires Enabled(cfg, s, l) && l.Begin?
    ensures AEnabled(Abs(cfg, s), Observe(cfg, s, l))
    ensures Abs(cfg, Next(cfg, s, l)) == ANext(Abs(cfg, s), Observe(cfg, s, l))
  {
    hide Block, Loaded, Settled, SetTop, ASetTop;
    var ctx := Active(l.call, l.site, Core(0, l.regs, l.eq), map[]);
    EveryBlockWellFormed(cfg.arch, OpcodeOf(l.call.op), l.call.key.kind);
    AbsSetTop(cfg, s.threads[l.t], ctx);
    AbsUpdate(cfg, s, l.t, SetTop(s.threads[l.t], ctx));
    hide AbsThread;
  }

  lemma FinishedIsDone(cfg: Config, ctx: Context)
    requires ctx.Active? && ctx.core.pc == |ProgramOf(cfg, ctx).code|
    ensures AbsContext(cfg, ctx) == Done(ctx.call, Settled(cfg, ctx)) && AbsContext(cfg, Idle) == Quiet
  {
    hide Block, Settled;
    EveryBlockWellFormed(cfg.arch, OpcodeOf(ctx.call.op), ctx.call.key.kind);
    Ranged(ProgramOf(cfg, ctx), OpcodeOf(ctx.call.op), ctx.call.key.kind);
    hide WellFormed;
  }

  /** A call answered. */
  lemma AbsReturn(cfg: Config, s: State, l: Label)
    requires Enabled(cfg, s, l) && l.Return?
    ensures AEnabled(Abs(cfg, s), Observe(cfg, s, l))
    ensures Abs(cfg, Next(cfg, s, l)) == ANext(Abs(cfg, s), Observe(cfg, s, l))
  {
    hide Block, Loaded, Settled, SetTop, ASetTop, AbsContext, Touches, Kick;
    FinishedIsDone(cfg, Top(s.threads[l.t]));
    AbsSetTop(cfg, s.threads[l.t], Idle);
    AbsUpdate(cfg, s, l.t, SetTop(s.threads[l.t], Idle));
  }

  /** A plain store, or a cleared `rseq_cs`. */
  lemma AbsRest(cfg: Config, s: State, l: Label)
    requires Enabled(cfg, s, l) && (l.Plain? || l.Unload?)
    ensures AEnabled(Abs(cfg, s), Observe(cfg, s, l))
    ensures Abs(cfg, Next(cfg, s, l)) == ANext(Abs(cfg, s), Observe(cfg, s, l))
  {
    hide Block, Loaded, Settled, SetTop, ASetTop;
    if l.Plain? {
      AbsSetTop(cfg, s.threads[l.t], Idle);
    } else {
      var th := s.threads[l.t].(area := s.threads[l.t].area.(cs := 0));
      assert AbsThread(cfg, th) == AbsThread(cfg, s.threads[l.t]);
      AbsUpdate(cfg, s, l.t, th);
    }
  }

  /** Preemption and migration, seen from above: the thread moves, its call stays pending. */
  lemma AbsMove(cfg: Config, s: State, l: Label)
    requires Enabled(cfg, s, l) && Local(cfg, s) && (l.Preempt? || l.Resume?)
    ensures AEnabled(Abs(cfg, s), Observe(cfg, s, l))
    ensures Abs(cfg, Next(cfg, s, l)) == ANext(Abs(cfg, s), Observe(cfg, s, l))
  {
    hide Block, Kick, ThreadArmed, SectionOk, AbsContext, Placed, AllProper;
    KickLeavesSection(cfg, s.threads[l.t]);
    AbsKick(cfg, s.threads[l.t]);
    AbsUpdate(cfg, s, l.t, Next(cfg, s, l).threads[l.t]);
    assert forall u | u in s.threads :: Abs(cfg, s).threads[u] == AbsThread(cfg, s.threads[u]);
  }

  /** Signal delivery and return, seen from above: a quiet context comes and goes. */
  lemma AbsSignal(cfg: Config, s: State, l: Label)
    requires Enabled(cfg, s, l) && Local(cfg, s) && (l.Signal? || l.SigReturn?)
    ensures AEnabled(Abs(cfg, s), Observe(cfg, s, l))
    ensures Abs(cfg, Next(cfg, s, l)) == ANext(Abs(cfg, s), Observe(cfg, s, l))
  {
    hide Block, Kick, ThreadArmed, SectionOk, Placed, AllProper, Settled;
    var th := s.threads[l.t];
    KickLeavesSection(cfg, th);
    AbsKick(cfg, th);
    AbsUpdate(cfg, s, l.t, Next(cfg, s, l).threads[l.t]);
    hide AbsContext;
    AbsSetTop(cfg, th, Top(th));
    IdleIsQuiet(cfg);
    var st := AbsThread(cfg, th).stack;
    if l.Signal? {
      assert AbsThread(cfg, Next(cfg, s, l).threads[l.t]).stack == st + [Quiet];
    } else {
      assert AbsThread(cfg, Next(cfg, s, l).threads[l.t]).stack == st[..|st| - 1];
    }
  }

  lemma IdleIsQuiet(cfg: Config)
    ensures AbsContext(cfg, Idle) == Quiet
  {
  }

  /** A membarrier changes no memory and takes no call's answer: it only restarts passes. */
  lemma AbsFence(cfg: Config, s: State, caller: Tid, cpu: Option<u32>)
    requires Local(cfg, s)
    ensures Abs(cfg, Fenced(cfg, s, caller, cpu)) == Abs(cfg, s)
  {
    hide Kick, AbsThread, ThreadArmed, SectionOk;
    var n := Fenced(cfg, s, caller, cpu);
    forall u | u in s.threads ensures AbsThread(cfg, n.threads[u]) == AbsThread(cfg, s.threads[u]) {
      AbsKick(cfg, s.threads[u]);
    }
  }

  /** Every step of the instruction machine is, from above, the step it is observed as. */
  lemma StepRefines(cfg: Config, s: State, l: Label)
    requires Enabled(cfg, s, l) && Inv(cfg, s)
    ensures AEnabled(Abs(cfg, s), Observe(cfg, s, l))
    ensures Abs(cfg, Next(cfg, s, l)) == ANext(Abs(cfg, s), Observe(cfg, s, l))
  {
    hide Block, Fenced, Abs, Inv, Local, ThreadOk, Kick, ExecTop, Touches, Loaded;
    assert Local(cfg, s) by { InvLocal(cfg, s); }
    match l
    case Step(t) => AbsStep(cfg, s, t);
    case Begin(_, _, _, _, _) => AbsBegin(cfg, s, l);
    case Return(_) => AbsReturn(cfg, s, l);
    case Plain(_, _, _) => AbsRest(cfg, s, l);
    case Unload(_) => AbsRest(cfg, s, l);
    case Preempt(_) => AbsMove(cfg, s, l);
    case Resume(_, _, _) => AbsMove(cfg, s, l);
    case Signal(_) => AbsSignal(cfg, s, l);
    case SigReturn(_, _) => AbsSignal(cfg, s, l);
    case FenceCpu(t, cpu) => AbsFence(cfg, s, t, Some(cpu));
    case FenceAll(t) => AbsFence(cfg, s, t, None);
  }

  lemma InvLocal(cfg: Config, s: State)
    requires Inv(cfg, s)
    ensures Local(cfg, s) && SeenCurrent(cfg, s)
  {
  }

  /** A step leaves alone every address outside its stores. */
  lemma StoresOnly(a: AState, l: ALabel, x: usize)
    requires AEnabled(a, l) && x !in Stores(a, l)
    ensures x in ANext(a, l).mem <==> x in a.mem
    ensures x in a.mem ==> ANext(a, l).mem[x] == a.mem[x]
  {
    hide WrapAdd;
  }

  /** A pass whose index check does not match has read nothing. */
  lemma MismatchSeesNothing(cfg: Config, area: Area, ctx: Context)
    requires ctx.Active? && SectionOk(cfg, area, ctx) && IndexOf(area, ctx.call.key.kind) != ctx.call.key.id
    ensures ctx.seen == map[]
  {
    hide Block, Holds;
    IndexAgrees(area, ctx.site, ctx.call.key.kind);
    assert Faithful(ProgramOf(cfg, ctx), EnvOf(area, ctx.site), ctx.call, ctx.core, ctx.seen, ctx.seen);
  }

  /** A running pass has seen only what its call depends on. */
  lemma SeenInAccess(cfg: Config, s: State, t: Tid)
    requires Inv(cfg, s) && InLiveSection(cfg, s, t)
    ensures IsPending(Abs(cfg, s), t)
    ensures CallOf(Abs(cfg, s), t) == Top(s.threads[t]).call
    ensures Top(s.threads[t]).seen.Keys <= EffectOf(Abs(cfg, s), t).access
  {
    hide Block, Loaded, Settled, Meaning, Holds, SetTop, ASetTop;
    var th := s.threads[t];
    var ctx := Top(th);
    assert ThreadOk(cfg, th) && SectionOk(cfg, th.area, ctx) && Agrees(s.mem, ctx.seen);
    assert Faithful(ProgramOf(cfg, ctx), EnvOf(th.area, ctx.site), ctx.call, ctx.core, ctx.seen, s.mem);
    IndexAgrees(th.area, ctx.site, ctx.call.key.kind);
    AbsSetTop(cfg, th, ctx);
  }

  /** A thread in its section after a step was there before it, unless the step was its own instruction. */
  lemma StillInSection(cfg: Config, s: State, l: Label, u: Tid)
    requires Enabled(cfg, s, l) && Local(cfg, s) && InLiveSection(cfg, Next(cfg, s, l), u)
    ensures u in s.threads
    ensures l != Step(u) ==> InLiveSection(cfg, s, u) && Next(cfg, s, l).threads[u] == s.threads[u] && !(l.Plain? && l.t == u)
  {
    hide Block, Exec, Loaded, ContextOk, SectionOk, Kick, Placed, AllProper;
    if u in s.threads && l != Step(u) {
      var th, next := s.threads[u], Next(cfg, s, l).threads[u];
      assert ThreadOk(cfg, th);
      KickLeavesSection(cfg, th);
      if next != th {
        assert next != Kick(cfg, th);
        match l
        case Begin(t, call, _, _, _) => EveryBlockWellFormed(cfg.arch, OpcodeOf(call.op), call.key.kind);
        case _ =>
      }
    }
  }

  /** Its own instruction leaves what a pass has seen in memory. */
  lemma OwnSeen(cfg: Config, s: State, t: Tid)
    requires Enabled(cfg, s, Step(t)) && Inv(cfg, s) && InLiveSection(cfg, Next(cfg, s, Step(t)), t)
    ensures Agrees(Next(cfg, s, Step(t)).mem, Top(Next(cfg, s, Step(t)).threads[t]).seen)
  {
    hide Exec, Block, ContextOk, Meaning, Loaded, SectionOk, ThreadOk, Proper;
    var th := s.threads[t];
    var ctx, e, p := Top(th), ExecTop(cfg, th, s.mem), ProgramOf(cfg, Top(th));
    RunningContext(cfg, s, t);
    EveryBlockWellFormed(cfg.arch, OpcodeOf(ctx.call.op), ctx.call.key.kind);
    if p.start <= ctx.core.pc < p.post {
      RangeExec(p, OpcodeOf(ctx.call.op), ctx.call.key.kind, EnvOf(th.area, ctx.site), ctx.core, s.mem, e);
    } else if p.post <= ctx.core.pc {
      TailExec(p, OpcodeOf(ctx.call.op), ctx.call.key.kind, EnvOf(th.area, ctx.site), ctx.core, s.mem, e);
    }
  }

  /** Only an instruction or a plain store of a thread itself stores on its behalf. */
  lemma StoresActor(cfg: Config, s: State, l: Label, u: Tid)
    requires Enabled(cfg, s, l) && AEnabled(Abs(cfg, s), Observe(cfg, s, l))
    requires l != Step(u) && !(l.Plain? && l.t == u)
    ensures Stores(Abs(cfg, s), Observe(cfg, s, l)) != {} ==> Actor(Observe(cfg, s, l)) != u
  {
    hide Exec, Block, Abs, EffectOf, AEnabled, Enabled, ExecTop;
  }

  /** What running passes have seen stays current, as long as steps are race free. */
  lemma SeenNext(cfg: Config, s: State, l: Label)
    requires Enabled(cfg, s, l) && Inv(cfg, s)
    requires AEnabled(Abs(cfg, s), Observe(cfg, s, l)) && RaceFree(Abs(cfg, s), Observe(cfg, s, l))
    requires Abs(cfg, Next(cfg, s, l)) == ANext(Abs(cfg, s), Observe(cfg, s, l))
    ensures SeenCurrent(cfg, Next(cfg, s, l))
  {
    hide Exec, Block, AbsThread, Inv, Meaning, InRange, StepThread, Kick, Next, ANext, Stores, EffectOf, AEnabled;
    InvLocal(cfg, s);
    var n, a, o := Next(cfg, s, l), Abs(cfg, s), Observe(cfg, s, l);
    forall u | InLiveSection(cfg, n, u) ensures Agrees(n.mem, Top(n.threads[u]).seen) {
      StillInSection(cfg, s, l, u);
      if l == Step(u) {
        OwnSeen(cfg, s, u);
      } else {
        SeenInAccess(cfg, s, u);
        forall x | x in Top(s.threads[u]).seen ensures x in n.mem && n.mem[x] == s.mem[x] {
          StoresActor(cfg, s, l, u);
          StoresOnly(a, o, x);
        }
      }
    }
  }

  lemma CurrentIsUnspoiled(cfg: Config, s: State, l: Label)
    requires Enabled(cfg, s, l) && Inv(cfg, s)
    ensures StepUnspoiled(cfg, s, l)
  {
    hide Exec, Block, ContextOk, Loaded, SectionOk, ThreadOk, Proper;
    if l.Step? {
      var th := s.threads[l.t];
      var ctx, e, p := Top(th), ExecTop(cfg, th, s.mem), ProgramOf(cfg, Top(th));
      RunningContext(cfg, s, l.t);
      EveryBlockWellFormed(cfg.arch, OpcodeOf(ctx.call.op), ctx.call.key.kind);
      if ctx.core.pc < p.start {
        EntryStep(cfg, th.area, ctx, s.mem, e);
      } else if p.post <= ctx.core.pc {
        TailExec(p, OpcodeOf(ctx.call.op), ctx.call.key.kind, EnvOf(th.area, ctx.site), ctx.core, s.mem, e);
      }
    }
  }

  /** The discipline a step must keep: calls are proper, and stores do not race. */
  ghost predicate Disciplined(cfg: Config, s: State, l: Label)
    requires Enabled(cfg, s, l)
  {
    && (l.Begin? ==> Proper(l.call))
    && (AEnabled(Abs(cfg, s), Observe(cfg, s, l)) ==> RaceFree(Abs(cfg, s), Observe(cfg, s, l)))
  }

  /** One step of any disciplined run keeps the invariant and is an atomic step. */
  lemma StepSafe(cfg: Config, s: State, l: Label)
    requires Enabled(cfg, s, l) && Inv(cfg, s) && Disciplined(cfg, s, l)
    ensures Inv(cfg, Next(cfg, s, l))
    ensures AEnabled(Abs(cfg, s), Observe(cfg, s, l)) && RaceFree(Abs(cfg, s), Observe(cfg, s, l))
    ensures Abs(cfg, Next(cfg, s, l)) == ANext(Abs(cfg, s), Observe(cfg, s, l))
  {
    hide Enabled, Next, ANext, AEnabled, Abs, Observe, Local, SeenCurrent, StepUnspoiled, RaceFree;
    StepRefines(cfg, s, l);
    CurrentIsUnspoiled(cfg, s, l);
    LocalNext(cfg, s, l);
    SeenNext(cfg, s, l);
  }

  ghost predicate DisciplinedRun(cfg: Config, s: State, ls: seq<Label>)
    requires ValidRun(cfg, s, ls)
    decreases |ls|
  {
    ls != [] ==>
      && DisciplinedRun(cfg, s, ls[..|ls| - 1])
      && Disciplined(cfg, StateAfter(cfg, s, ls[..|ls| - 1]), ls[|ls| - 1])
  }

  function ObserveRun(cfg: Config, s: State, ls: seq<Label>): seq<ALabel>
    requires ValidRun(cfg, s, ls)
    decreases |ls|
  {
    if ls == [] then []
    else ObserveRun(cfg, s, ls[..|ls| - 1]) + [Observe(cfg, StateAfter(cfg, s, ls[..|ls| - 1]), ls[|ls| - 1])]
  }

  /** Every disciplined run, of any number of threads under any kernel interruptions,
      is from above a run in which each call takes effect in one step. */
  lemma {:induction false} RunRefines(cfg: Config, s: State, ls: seq<Label>)
    requires Inv(cfg, s) && ValidRun(cfg, s, ls) && DisciplinedRun(cfg, s, ls)
    ensures Inv(cfg, StateAfter(cfg, s, ls))
    ensures AValidRun(Abs(cfg, s), ObserveRun(cfg, s, ls))
    ensures Abs(cfg, StateAfter(cfg, s, ls)) == AStateAfter(Abs(cfg, s), ObserveRun(cfg, s, ls))
    decreases |ls|
  {
    hide Enabled, Next, ANext, AEnabled, Abs, Observe, Inv, Disciplined;
    if ls != [] {
      var front, l := ls[..|ls| - 1], ls[|ls| - 1];
      RunRefines(cfg, s, front);
      StepSafe(cfg, StateAfter(cfg, s, front), l);
      ASnoc(Abs(cfg, s), ObserveRun(cfg, s, front), Observe(cfg, StateAfter(cfg, s, front), l));
    }
  }
}
