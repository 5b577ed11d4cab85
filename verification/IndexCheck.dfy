/** The index check: what a pass that is past it can rely on, in every run whatsoever. */
module IndexCheck {
  import opened Bits
  import opened Ops
  import opened Isa
  import opened Operands
  import opened Blocks
  import opened Machine
  import opened Sections
  import opened Refinement

  /** Past the check: three instructions into the range. */
  predicate PastCheck(cfg: Config, ctx: Context) {
    InSection(cfg, ctx) && ProgramOf(cfg, ctx).start + 3 <= ctx.core.pc
  }

  /** The index on its way through the check; past it, the thread's index is the key of the word. */
  predicate CheckOk(cfg: Config, area: Area, ctx: Context) {
    InSection(cfg, ctx) ==>
      var c, start, index := ctx.core, ProgramOf(cfg, ctx).start, IndexOf(area, ctx.call.key.kind);
      && (c.pc == start + 1 ==> Get(c.regs, Got) == index)
      && (c.pc == start + 2 ==> (c.eq <==> index == ctx.call.key.id))
      && (start + 3 <= c.pc ==> index == ctx.call.key.id)
  }

  predicate AllChecked(cfg: Config, s: State) {
    forall t | t in s.threads && s.threads[t].stack != [] :: CheckOk(cfg, s.threads[t].area, Top(s.threads[t]))
  }

  /** The three instructions of the check. */
  lemma CheckExec(p: Program, call: Call, env: Env, c: Core, m: Mem, e: Result)
    requires Armed(p) && Checked(p, call.key.kind) && p.start <= c.pc < p.start + 3 && p.post <= |p.code| - 2
    requires Loaded(call, env.area, c.regs) && e == Exec(p.code[c.pc], env, c, m)
    ensures e.store.None? && e.load.None?
    ensures c.pc == p.start ==> Get(e.core.regs, Got) == Index(env, call.key.kind)
    ensures c.pc == p.start + 1 ==> (e.core.eq <==> Low32(Get(c.regs, Got)) == call.key.id)
    ensures e.core.pc == if c.pc == p.start + 2 && !c.eq then |p.code| - 2 else c.pc + 1
  {
    hide Low32;
  }

  lemma SmallLow(a: u32)
    ensures Low32(a) == a
  {
  }

  lemma Shaped(p: Program, opcode: Opcode, kind: Kind)
    requires WellFormed(p, opcode, kind)
    ensures Armed(p) && Checked(p, kind) && p.start + 3 < p.post <= |p.code| - 2
  {
  }

  /** An instruction takes a context through its check. */
  lemma CheckStep(cfg: Config, area: Area, ctx: Context, m: Mem, e: Result)
    requires ctx.Active? && ContextOk(cfg, area, ctx) && CheckOk(cfg, area, ctx)
    requires ctx.core.pc < |ProgramOf(cfg, ctx).code|
    requires e == Exec(ProgramOf(cfg, ctx).code[ctx.core.pc], EnvOf(area, ctx.site), ctx.core, m)
    ensures CheckOk(cfg, area, Stepped(cfg, ctx, e, m))
    ensures InSection(cfg, ctx) && !PastCheck(cfg, ctx) ==> e.store.None? && e.load.None?
  {
    var p, opcode, kind, env := ProgramOf(cfg, ctx), OpcodeOf(ctx.call.op), ctx.call.key.kind, EnvOf(area, ctx.site);
    EveryBlockWellFormed(cfg.arch, opcode, kind);
    Shaped(p, opcode, kind);
    IndexAgrees(area, ctx.site, kind);
    SmallLow(IndexOf(area, kind));
    hide Exec, Block, WellFormed, Armed, Checked, TmpOk, Low32, Note;
    if ctx.core.pc < p.start {
      EntryStep(cfg, area, ctx, m, e);
    } else if ctx.core.pc < p.start + 3 {
      hide Loaded;
      CheckExec(p, ctx.call, env, ctx.core, m, e);
    } else if ctx.core.pc < p.post {
      RangeStep(cfg, area, ctx, m, e);
    } else {
      TailExec(p, opcode, kind, env, ctx.core, m, e);
    }
  }

  /** Every step of any run keeps it: an index changes only under a thread that is sent to its abort point. */
  lemma CheckedNext(cfg: Config, s: State, l: Label)
    requires Enabled(cfg, s, l) && AllArmed(cfg, s) && AllChecked(cfg, s)
    ensures AllChecked(cfg, Next(cfg, s, l))
  {
    var n := Next(cfg, s, l);
    forall t | t in n.threads && n.threads[t].stack != [] ensures CheckOk(cfg, n.threads[t].area, Top(n.threads[t])) {
      assert ThreadArmed(cfg, s.threads[t]);
      assert CheckOk(cfg, s.threads[t].area, Top(s.threads[t]));
      if l == Step(t) {
        OwnCheck(cfg, s, t);
      } else {
        Unmoved(cfg, s, l, t);
        hide Enabled, Next, InSection, ThreadArmed;
      }
    }
  }

  lemma OwnCheck(cfg: Config, s: State, t: Tid)
    requires Enabled(cfg, s, Step(t)) && ThreadArmed(cfg, s.threads[t]) && CheckOk(cfg, s.threads[t].area, Top(s.threads[t]))
    ensures CheckOk(cfg, Next(cfg, s, Step(t)).threads[t].area, Top(Next(cfg, s, Step(t)).threads[t]))
  {
    var th := s.threads[t];
    var ctx, e := Top(th), ExecTop(cfg, th, s.mem);
    assert ContextOk(cfg, th.area, ctx);
    hide Exec, Block, ContextOk, CheckOk, ThreadArmed, Note;
    CheckStep(cfg, th.area, ctx, s.mem, e);
    assert Top(Next(cfg, s, Step(t)).threads[t]) == Stepped(cfg, ctx, e, s.mem);
    CheckArea(cfg, th.area, Next(cfg, s, Step(t)).threads[t].area, Stepped(cfg, ctx, e, s.mem));
  }

  lemma CheckArea(cfg: Config, a: Area, b: Area, ctx: Context)
    requires CheckOk(cfg, a, ctx) && b.cpuId == a.cpuId && b.mmCid == a.mmCid
    ensures CheckOk(cfg, b, ctx)
  {
    hide Block;
  }

  lemma {:induction false} CheckedRun(cfg: Config, s: State, ls: seq<Label>)
    requires AllArmed(cfg, s) && AllChecked(cfg, s) && Placed(s) && ValidRun(cfg, s, ls)
    ensures AllArmed(cfg, StateAfter(cfg, s, ls)) && AllChecked(cfg, StateAfter(cfg, s, ls)) && Placed(StateAfter(cfg, s, ls))
    decreases |ls|
  {
    hide Enabled, Next, AllArmed, AllChecked, Placed;
    if ls != [] {
      var front, l := ls[..|ls| - 1], ls[|ls| - 1];
      CheckedRun(cfg, s, front);
      ArmedNext(cfg, StateAfter(cfg, s, front), l);
      CheckedNext(cfg, StateAfter(cfg, s, front), l);
      PlacedNext(cfg, StateAfter(cfg, s, front), l);
    }
  }

  /** Exclusion, in every state of every run: of all running threads, at most one is past its check with a given key. */
  lemma OnePastTheCheck(cfg: Config, s: State, ls: seq<Label>, t: Tid, u: Tid)
    requires AllArmed(cfg, s) && AllChecked(cfg, s) && Placed(s) && ValidRun(cfg, s, ls)
    requires
      var n := StateAfter(cfg, s, ls);
      && Runs(n, t) && Runs(n, u) && PastCheck(cfg, Top(n.threads[t])) && PastCheck(cfg, Top(n.threads[u]))
      && Top(n.threads[t]).call.key == Top(n.threads[u]).call.key
    ensures t == u
  {
    CheckedRun(cfg, s, ls);
    hide Block, ThreadArmed, ValidRun, StateAfter;
    var n := StateAfter(cfg, s, ls);
    assert CheckOk(cfg, n.threads[t].area, Top(n.threads[t])) && CheckOk(cfg, n.threads[u].area, Top(n.threads[u]));
  }

  /** A pass that is not at home touches nothing: it has not got past its check. */
  lemma AwayTouchesNothing(cfg: Config, s: State, t: Tid)
    requires AllArmed(cfg, s) && AllChecked(cfg, s) && Enabled(cfg, s, Step(t)) && InSection(cfg, Top(s.threads[t]))
    requires IndexOf(s.threads[t].area, Top(s.threads[t]).call.key.kind) != Top(s.threads[t]).call.key.id
    ensures ExecTop(cfg, s.threads[t], s.mem).store == None && ExecTop(cfg, s.threads[t], s.mem).load == None
  {
    var th := s.threads[t];
    assert ThreadArmed(cfg, th) && ContextOk(cfg, th.area, Top(th));
    hide Exec, Block, ContextOk, ThreadArmed;
    CheckStep(cfg, th.area, Top(th), s.mem, ExecTop(cfg, th, s.mem));
  }
}
