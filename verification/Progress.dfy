/** How many instructions a call takes, however it is interrupted. */
module Progress {
  import opened Bits
  import opened Ops
  import opened Isa
  import opened Operands
  import opened Blocks
  import opened Machine
  import opened Sections
  import opened Refinement
  import opened Registers
  import opened Backends
  import opened Calls
  import opened Counts

  /** The call's own instructions in a run. */
  function OwnSteps(cfg: Config, s: State, ls: seq<Label>, t: Tid, i: nat): nat
    requires ValidRun(cfg, s, ls)
    decreases |ls|
  {
    if ls == [] then 0
    else
      var front := ls[..|ls| - 1];
      OwnSteps(cfg, s, front, t, i) + if Own(StateAfter(cfg, s, front), ls[|ls| - 1], t, i) then 1 else 0
  }

  /** How often the fix-up has been applied to the thread. */
  function Hits(cfg: Config, s: State, ls: seq<Label>, t: Tid): nat
    requires ValidRun(cfg, s, ls)
    decreases |ls|
  {
    if ls == [] then 0
    else
      var front := ls[..|ls| - 1];
      Hits(cfg, s, front, t) + if Interrupts(StateAfter(cfg, s, front), ls[|ls| - 1], t) then 1 else 0
  }

  /** They are the labels by which the call's own program at its depth takes a step, each counted once. */
  lemma {:induction false} OwnStepsCounted(cfg: Config, s: State, ls: seq<Label>, t: Tid, i: nat)
    requires ValidRun(cfg, s, ls)
    ensures OwnSteps(cfg, s, ls, t, i) == |set k: nat | k < |ls| && Own(Before(cfg, s, ls, k), ls[k], t, i)|
    decreases |ls|
  {
    hide Enabled, Next, Own, Before;
    if ls != [] {
      var n, front := |ls| - 1, ls[..|ls| - 1];
      OwnStepsCounted(cfg, s, front, t, i);
      BeforeFront(cfg, s, ls);
      OneMorePosition((set k: nat | k < |front| && Own(Before(cfg, s, front, k), front[k], t, i)),
                      (set k: nat | k < |ls| && Own(Before(cfg, s, ls, k), ls[k], t, i)), n, Own(StateAfter(cfg, s, front), ls[n], t, i));
    }
  }

  lemma {:induction false} HitsCounted(cfg: Config, s: State, ls: seq<Label>, t: Tid)
    requires ValidRun(cfg, s, ls)
    ensures Hits(cfg, s, ls, t) == |set k: nat | k < |ls| && Interrupts(Before(cfg, s, ls, k), ls[k], t)|
    decreases |ls|
  {
    hide Enabled, Next, Interrupts, Before;
    if ls != [] {
      var n, front := |ls| - 1, ls[..|ls| - 1];
      HitsCounted(cfg, s, front, t);
      BeforeFront(cfg, s, ls);
      OneMorePosition((set k: nat | k < |front| && Interrupts(Before(cfg, s, front, k), front[k], t)),
                      (set k: nat | k < |ls| && Interrupts(Before(cfg, s, ls, k), ls[k], t)), n, Interrupts(StateAfter(cfg, s, front), ls[n], t));
    }
  }

  /** What is left of the current pass is within what the interruptions so far allow. */
  predicate InTime(cfg: Config, ctx: Context, steps: nat, hits: nat)
    requires ctx.Active?
  {
    var size := |ProgramOf(cfg, ctx).code|;
    ctx.core.pc <= size && steps + size - ctx.core.pc <= (hits + 1) * size
  }

  /** One instruction of the call goes forward. */
  lemma OwnForward(cfg: Config, s: State, t: Tid)
    requires Enabled(cfg, s, Step(t)) && ThreadArmed(cfg, s.threads[t])
    ensures
      var ctx, next := Top(s.threads[t]), Top(Next(cfg, s, Step(t)).threads[t]);
      next.Active? && ProgramOf(cfg, next) == ProgramOf(cfg, ctx) && ctx.core.pc < next.core.pc <= |ProgramOf(cfg, ctx).code|
  {
    var th := s.threads[t];
    var ctx, e := Top(th), ExecTop(cfg, th, s.mem);
    var p, opcode, kind := ProgramOf(cfg, ctx), OpcodeOf(ctx.call.op), ctx.call.key.kind;
    assert ContextOk(cfg, th.area, ctx);
    EveryBlockWellFormed(cfg.arch, opcode, kind);
    AbortIsTwo(p, opcode, kind);
    TopStepped(cfg, s, t);
    SameProgram(cfg, ctx, e, s.mem);
    hide Exec, Block, WellFormed, Loaded, TmpOk, Note, Next;
    NextPc(p, opcode, kind, EnvOf(th.area, ctx.site), ctx.core, s.mem, e);
  }

  lemma OneMoreHit(steps: nat, size: nat, pc: nat, abort: nat, hits: nat)
    requires pc <= size && steps + size - pc <= (hits + 1) * size
    ensures steps + size - abort <= (hits + 1 + 1) * size
  {
    assert (hits + 1 + 1) * size == (hits + 1) * size + size;
  }

  lemma InTimeNext(cfg: Config, s: State, l: Label, t: Tid, i: nat, call: Call, steps: nat, hits: nat)
    requires Enabled(cfg, s, l) && AllArmed(cfg, s) && Underway(s, t, i, call) && Underway(Next(cfg, s, l), t, i, call)
    requires InTime(cfg, ContextAt(s, t, i, call), steps, hits)
    ensures InTime(cfg, ContextAt(Next(cfg, s, l), t, i, call), steps + (if Own(s, l, t, i) then 1 else 0),
                   hits + if Interrupts(s, l, t) then 1 else 0)
  {
    var ctx, next := ContextAt(s, t, i, call), ContextAt(Next(cfg, s, l), t, i, call);
    assert ThreadArmed(cfg, s.threads[t]);
    if Own(s, l, t, i) {
      OwnForward(cfg, s, t);
      OwnContext(cfg, s, t, i);
      OwnIsQuiet(cfg, s, l, t, i);
      hide Enabled, Next, Block, Interrupts, ThreadArmed, AllArmed;
    } else {
      EveryBlockWellFormed(cfg.arch, OpcodeOf(call.op), call.key.kind);
      AbortInside(ProgramOf(cfg, ctx), OpcodeOf(call.op), call.key.kind);
      OtherStep(cfg, s, l, t, i, call);
      hide Enabled, Next, Block, Interrupts, ThreadArmed, AllArmed, WellFormed, InSection, Own;
      OneMoreHit(steps, |ProgramOf(cfg, ctx).code|, ctx.core.pc, ProgramOf(cfg, ctx).abort, hits);
      if Interrupts(s, l, t) && next == ctx { OneMoreHit(steps, |ProgramOf(cfg, ctx).code|, ctx.core.pc, ctx.core.pc, hits); }
    }
  }

  /** In any run, disciplined or not: a call whose thread is hit k times executes at most k + 1 times its block. */
  lemma {:induction false} OwnStepsBounded(cfg: Config, s: State, ls: seq<Label>, t: Tid, i: nat, call: Call)
    requires AllArmed(cfg, s) && ValidRun(cfg, s, ls) && Throughout(cfg, s, ls, t, i, call) && Begun(s, t, i, call)
    ensures AllArmed(cfg, StateAfter(cfg, s, ls)) && Underway(StateAfter(cfg, s, ls), t, i, call)
    ensures InTime(cfg, ContextAt(StateAfter(cfg, s, ls), t, i, call), OwnSteps(cfg, s, ls, t, i), Hits(cfg, s, ls, t))
    ensures OwnSteps(cfg, s, ls, t, i) <= (Hits(cfg, s, ls, t) + 1) * |BlockOf(cfg.arch, call).code|
    decreases |ls|
  {
    hide Enabled, Next, AllArmed, Block, Own, Interrupts;
    if ls != [] {
      var front, l := ls[..|ls| - 1], ls[|ls| - 1];
      OwnStepsBounded(cfg, s, front, t, i, call);
      ArmedNext(cfg, StateAfter(cfg, s, front), l);
      InTimeNext(cfg, StateAfter(cfg, s, front), l, t, i, call, OwnSteps(cfg, s, front, t, i), Hits(cfg, s, front, t));
    }
  }
}
