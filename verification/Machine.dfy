/** Threads running the blocks instruction by instruction, under the kernel's rseq rules. */
module Machine {
  import opened Bits
  import opened Ops
  import opened Isa
  import opened Operands
  import opened Blocks

  type Tid = nat

  /** Which block a descriptor in the `__rseq_cs` section belongs to. */
  datatype Site = Site(opcode: Opcode, kind: Kind)

  datatype Config = Config(arch: Arch, sites: map<usize, Site>)

  /** The part of `struct rseq` the crate uses; `cs` is the `rseq_cs` pointer, 0 when cleared. */
  datatype Area = Area(addr: usize, cpuId: u32, mmCid: u32, cs: usize)

  datatype Place = Off | On(cpu: u32)

  /** A program or signal handler between calls, or inside one.
      `seen` is a history variable: what the current pass has loaded or scratch-stored. */
  datatype Context = Idle | Active(call: Call, site: usize, core: Core, seen: Mem)

  /** The last context runs; the others are interrupted by the handlers above them. */
  datatype Thread = Thread(place: Place, area: Area, stack: seq<Context>)

  datatype State = State(mem: Mem, threads: map<Tid, Thread>)

  datatype Label =
    | Begin(t: Tid, call: Call, site: usize, regs: map<Reg, usize>, eq: bool)
    | Step(t: Tid)
    | Return(t: Tid)
    | Plain(t: Tid, addr: usize, value: usize)
    | Unload(t: Tid)
    | Preempt(t: Tid)
    | Resume(t: Tid, cpu: u32, cid: u32)
    | Signal(t: Tid)
    | SigReturn(t: Tid, cleared: bool)
    | FenceCpu(t: Tid, cpu: u32)
    | FenceAll(t: Tid)

  function Top(th: Thread): Context
    requires th.stack != []
  {
    th.stack[|th.stack| - 1]
  }

  function SetTop(th: Thread, ctx: Context): Thread
    requires th.stack != []
  {
    th.(stack := th.stack[..|th.stack| - 1] + [ctx])
  }

  function ProgramOf(cfg: Config, ctx: Context): Program
    requires ctx.Active?
  {
    BlockOf(cfg.arch, ctx.call)
  }

  predicate InSection(cfg: Config, ctx: Context) {
    ctx.Active? && InRange(ProgramOf(cfg, ctx), ctx.core.pc)
  }

  function EnvOf(area: Area, site: usize): Env {
    Env(site, area.addr, area.cpuId, area.mmCid)
  }

  function IndexOf(area: Area, kind: Kind): u32 {
    match kind case CpuIndex => area.cpuId case CidIndex => area.mmCid
  }

  /** The kernel reads the descriptor at `rseq_cs`; an instruction pointer in its range goes to its abort. */
  function FixUp(cfg: Config, cs: usize, ctx: Context): Context {
    if cs in cfg.sites && ctx.Active? && ctx.site == cs then
      var p := Block(cfg.arch, cfg.sites[cs].opcode, cfg.sites[cs].kind);
      if InRange(p, ctx.core.pc) then ctx.(core := ctx.core.(pc := p.abort)) else ctx
    else ctx
  }

  /** A return to user space through the rseq path: fix up, then clear `rseq_cs` either way. */
  function Kick(cfg: Config, th: Thread): Thread
    requires th.stack != []
  {
    SetTop(th, FixUp(cfg, th.area.cs, Top(th))).(area := th.area.(cs := 0))
  }

  function Note(seen: Mem, e: Result, m: Mem): Mem {
    After(match e.load case None => seen case Some(a) => seen[a := Read(m, a)], e.store)
  }

  function ExecTop(cfg: Config, th: Thread, m: Mem): Result
    requires th.stack != [] && Top(th).Active? && Top(th).core.pc < |ProgramOf(cfg, Top(th)).code|
  {
    var ctx := Top(th);
    Exec(ProgramOf(cfg, ctx).code[ctx.core.pc], EnvOf(th.area, ctx.site), ctx.core, m)
  }

  /** One user instruction. Arming starts a new pass, which has seen nothing. */
  function StepThread(cfg: Config, th: Thread, m: Mem): Thread
    requires th.stack != [] && Top(th).Active? && Top(th).core.pc < |ProgramOf(cfg, Top(th)).code|
  {
    var ctx := Top(th);
    var e := ExecTop(cfg, th, m);
    var seen := if ctx.core.pc < ProgramOf(cfg, ctx).start then map[] else Note(ctx.seen, e, m);
    SetTop(th, ctx.(core := e.core, seen := seen))
      .(area := if e.cs.Some? then th.area.(cs := e.cs.value) else th.area)
  }

  predicate Runs(s: State, t: Tid) {
    t in s.threads && s.threads[t].place.On? && s.threads[t].stack != []
  }

  predicate Resting(s: State, t: Tid) {
    Runs(s, t) && Top(s.threads[t]).Idle?
  }

  predicate Executing(cfg: Config, s: State, t: Tid) {
    && Runs(s, t) && Top(s.threads[t]).Active?
    && Top(s.threads[t]).core.pc < |ProgramOf(cfg, Top(s.threads[t])).code|
  }

  /** The environment chooses any call, preemption, placement, signal or fence the rules allow.
      An access to an unmapped address is a fault, not a step. */
  predicate Enabled(cfg: Config, s: State, l: Label) {
    match l
    case Begin(t, call, site, regs, _) =>
      && Resting(s, t) && Loaded(call, s.threads[t].area.addr, regs)
      && site in cfg.sites && cfg.sites[site] == Site(OpcodeOf(call.op), call.key.kind)
    case Step(t) =>
      && Executing(cfg, s, t)
      && Touches(ExecTop(cfg, s.threads[t], s.mem), s.mem.Keys)
    case Return(t) =>
      && Runs(s, t) && Top(s.threads[t]).Active?
      && Top(s.threads[t]).core.pc == |ProgramOf(cfg, Top(s.threads[t])).code|
    case Plain(t, addr, _) => Resting(s, t) && addr in s.mem
    case Unload(t) => Resting(s, t)
    case Preempt(t) => Runs(s, t)
    case Resume(t, cpu, cid) =>
      && t in s.threads && s.threads[t].place.Off? && s.threads[t].stack != []
      && forall u | u in s.threads && s.threads[u].place.On? ::
           s.threads[u].place.cpu != cpu && s.threads[u].area.mmCid != cid
    case Signal(t) => Runs(s, t)
    case SigReturn(t, _) => Resting(s, t) && |s.threads[t].stack| > 1
    case FenceCpu(t, _) => Resting(s, t)
    case FenceAll(t) => Resting(s, t)
  }

  function PutThread(s: State, t: Tid, th: Thread): State {
    s.(threads := s.threads[t := th])
  }

  /** The siblings a membarrier interrupts: `cpu` alone, or every CPU. */
  predicate Hit(s: State, caller: Tid, cpu: Option<u32>, u: Tid) {
    u != caller && Runs(s, u) && (cpu.Some? ==> s.threads[u].place.cpu == cpu.value)
  }

  function Fenced(cfg: Config, s: State, caller: Tid, cpu: Option<u32>): State {
    s.(threads := map u | u in s.threads ::
                    if Hit(s, caller, cpu, u) then Kick(cfg, s.threads[u]) else s.threads[u])
  }

  function Next(cfg: Config, s: State, l: Label): State
    requires Enabled(cfg, s, l)
  {
    match l
    case Begin(t, call, site, regs, eq) =>
      PutThread(s, t, SetTop(s.threads[t], Active(call, site, Core(0, regs, eq), map[])))
    case Step(t) =>
      var th := s.threads[t];
      PutThread(s, t, StepThread(cfg, th, s.mem)).(mem := After(s.mem, ExecTop(cfg, th, s.mem).store))
    case Return(t) => PutThread(s, t, SetTop(s.threads[t], Idle))
    case Plain(_, addr, value) => s.(mem := s.mem[addr := value])
    case Unload(t) => PutThread(s, t, s.threads[t].(area := s.threads[t].area.(cs := 0)))
    case Preempt(t) => PutThread(s, t, s.threads[t].(place := Off))
    case Resume(t, cpu, cid) =>
      var th := Kick(cfg, s.threads[t]);
      PutThread(s, t, th.(place := On(cpu), area := th.area.(cpuId := cpu, mmCid := cid)))
    case Signal(t) =>
      var th := Kick(cfg, s.threads[t]);
      PutThread(s, t, th.(stack := th.stack + [Idle]))
    case SigReturn(t, cleared) =>
      var th := s.threads[t];
      PutThread(s, t, th.(stack := th.stack[..|th.stack| - 1],
                       area := if cleared then th.area.(cs := 0) else th.area))
    case FenceCpu(t, cpu) => Fenced(cfg, s, t, Some(cpu))
    case FenceAll(t) => Fenced(cfg, s, t, None)
  }

  /** What the finished call hands back: `Attempt::from_status(status, value)`. */
  function Answer(cfg: Config, ctx: Context): Attempt
    requires ctx.Active?
  {
    var p := ProgramOf(cfg, ctx);
    FromStatus(Get(ctx.core.regs, p.status), Get(ctx.core.regs, p.value))
  }

  /** A sequence of labels that can be taken one after the other from `s`. */
  predicate ValidRun(cfg: Config, s: State, ls: seq<Label>)
    decreases |ls|, 0
  {
    ls != [] ==> ValidRun(cfg, s, ls[..|ls| - 1]) && Enabled(cfg, StateAfter(cfg, s, ls[..|ls| - 1]), ls[|ls| - 1])
  }

  function StateAfter(cfg: Config, s: State, ls: seq<Label>): State
    requires ValidRun(cfg, s, ls)
    decreases |ls|, 1
  {
    if ls == [] then s else Next(cfg, StateAfter(cfg, s, ls[..|ls| - 1]), ls[|ls| - 1])
  }
}
