/** Concrete runs, one instruction at a time: one thread inside a call, all others where they are. */
module Scenes {
  import opened Bits
  import opened Ops
  import opened Isa
  import opened Operands
  import opened Blocks
  import opened Machine
  import opened Sections
  import opened Atomic
  import opened Refinement
  import opened Stepping
  import opened Semantics
  import opened Registers
  import opened Backends

  /** Who is on stage: a thread, where it runs, the call it is in and the call's site; everybody else is `others`. */
  datatype Scene = Scene(cfg: Config, start: State, others: map<Tid, Thread>, t: Tid, area: usize, cpu: u32, cid: u32, call: Call, site: usize)

  function HomeOf(z: Scene): u32 {
    match z.call.key.kind case CpuIndex => z.cpu case CidIndex => z.cid
  }

  predicate OnSite(z: Scene) {
    z.site in z.cfg.sites && z.cfg.sites[z.site] == Site(OpcodeOf(z.call.op), z.call.key.kind)
  }

  function Prog(z: Scene): Program {
    BlockOf(z.cfg.arch, z.call)
  }

  function Around(z: Scene): Env {
    Env(z.site, z.area, z.cpu, z.cid)
  }

  function With(z: Scene, m: Mem, place: Place, cs: usize, ctx: Context): State {
    State(m, z.others[z.t := Thread(place, Area(z.area, z.cpu, z.cid, cs), [ctx])])
  }

  /** The thread runs, somewhere in its call. */
  function InCall(z: Scene, m: Mem, cs: usize, core: Core, seen: Mem): State {
    With(z, m, On(z.cpu), cs, Active(z.call, z.site, core, seen))
  }

  predicate Reached(z: Scene, ls: seq<Label>, n: State) {
    ValidRun(z.cfg, z.start, ls) && StateAfter(z.cfg, z.start, ls) == n
  }

  /** More of the run: instructions of one thread only. */
  predicate Onward(ls: seq<Label>, more: seq<Label>, t: Tid) {
    |ls| <= |more| && more[..|ls|] == ls && forall i | |ls| <= i < |more| :: more[i] == Step(t)
  }

  lemma OnwardTo(ls: seq<Label>, more: seq<Label>, most: seq<Label>, t: Tid)
    requires Onward(ls, more, t) && Onward(more, most, t)
    ensures Onward(ls, most, t)
  {
    assert most[..|ls|] == most[..|more|][..|ls|];
  }

  /** One more label. */
  lemma Snoc(z: Scene, ls: seq<Label>, s: State, l: Label)
    requires Reached(z, ls, s) && Enabled(z.cfg, s, l)
    ensures Reached(z, ls + [l], Next(z.cfg, s, l))
  {
    hide Enabled, Next;
    assert (ls + [l])[..|ls + [l]| - 1] == ls;
  }

  /** One more instruction. */
  lemma Go(z: Scene, ls: seq<Label>, m: Mem, cs: usize, core: Core, seen: Mem, e: Result) returns (ls2: seq<Label>)
    requires Reached(z, ls, InCall(z, m, cs, core, seen)) && core.pc < |Prog(z).code|
    requires e == Exec(Prog(z).code[core.pc], Around(z), core, m) && Touches(e, m.Keys)
    ensures ls2 == ls + [Step(z.t)] && Onward(ls, ls2, z.t)
    ensures Reached(z, ls2, InCall(z, After(m, e.store), if e.cs.Some? then e.cs.value else cs, e.core,
                               if core.pc < Prog(z).start then map[] else Note(seen, e, m)))
  {
    var n := InCall(z, m, cs, core, seen);
    hide Exec, Block, Reached, Note;
    assert ExecTop(z.cfg, n.threads[z.t], m) == e;
    Snoc(z, ls, n, Step(z.t));
    ls2 := ls + [Step(z.t)];
    assert Onward(ls, ls2, z.t);
    var after := if core.pc < Prog(z).start then map[] else Note(seen, e, m);
    assert StepThread(z.cfg, n.threads[z.t], m).stack == [Active(z.call, z.site, e.core, after)];
    assert Next(z.cfg, n, Step(z.t)).threads
        == InCall(z, After(m, e.store), if e.cs.Some? then e.cs.value else cs, e.core, after).threads;
  }

  /** The thread is about to return from its call. */
  predicate Answers(cfg: Config, s: State, t: Tid, call: Call, attempt: Attempt) {
    && Enabled(cfg, s, Return(t)) && Top(s.threads[t]).call == call
    && Answer(cfg, Top(s.threads[t])) == attempt
  }

  function CtxOf(z: Scene, core: Core, seen: Mem): Context {
    Active(z.call, z.site, core, seen)
  }

  function AreaOf(z: Scene, cs: usize): Area {
    Area(z.area, z.cpu, z.cid, cs)
  }

  /** The call is where the machine's invariant allows it to be. */
  predicate Sound(z: Scene, core: Core) {
    ContextOk(z.cfg, AreaOf(z, 0), CtxOf(z, core, map[]))
  }

  lemma SoundAs(z: Scene, cs: usize, core: Core, seen: Mem)
    ensures Sound(z, core) <==> ContextOk(z.cfg, AreaOf(z, cs), CtxOf(z, core, seen))
  {
    hide Block, Loaded;
  }

  /** From the entry or the abort point to the range. */
  lemma GoStart(z: Scene, ls: seq<Label>, m: Mem, cs: usize, core: Core, seen: Mem) returns (ls2: seq<Label>, core2: Core)
    requires Reached(z, ls, InCall(z, m, cs, core, seen)) && Sound(z, core) && core.pc < Prog(z).start
    ensures Onward(ls, ls2, z.t) && Reached(z, ls2, InCall(z, m, z.site, core2, map[])) && Sound(z, core2)
    ensures core2.pc == Prog(z).start < Prog(z).post && Loaded(z.call, z.area, core2.regs)
    decreases Prog(z).start - core.pc
  {
    var e := Exec(Prog(z).code[core.pc], Around(z), core, m);
    EntryAhead(z, m, cs, core, seen, e);
    hide *;
    var l1 := Go(z, ls, m, cs, core, seen, e);
    AfterNothing(m);
    if e.core.pc == Prog(z).start {
      ls2, core2 := l1, e.core;
      SoundLoaded(z, e.core);
    } else {
      ls2, core2 := GoStart(z, l1, m, if e.cs.Some? then e.cs.value else cs, e.core, map[]);
      OnwardTo(ls, l1, ls2, z.t);
    }
  }

  lemma AfterNothing(m: Mem)
    ensures After(m, None) == m
  {
  }

  /** One instruction before the range. */
  lemma EntryAhead(z: Scene, m: Mem, cs: usize, core: Core, seen: Mem, e: Result)
    requires Sound(z, core) && core.pc < Prog(z).start < |Prog(z).code| && e == Exec(Prog(z).code[core.pc], Around(z), core, m)
    ensures e.store == None && Touches(e, m.Keys) && Sound(z, e.core) && core.pc < e.core.pc <= Prog(z).start < Prog(z).post
    ensures e.core.pc == Prog(z).start ==> e.cs == Some(z.site)
  {
    var p, opcode, kind, ctx := Prog(z), OpcodeOf(z.call.op), z.call.key.kind, CtxOf(z, core, seen);
    EveryBlockWellFormed(z.cfg.arch, opcode, kind);
    Ranged(p, opcode, kind);
    SoundAs(z, cs, core, seen);
    EntryStep(z.cfg, AreaOf(z, cs), ctx, m, e);
    ForwardFrom(z, core, m, e);
    hide Exec, Block, WellFormed, ContextOk;
    SoundAs(z, cs, e.core, Stepped(z.cfg, ctx, e, m).seen);
  }

  lemma SoundLoaded(z: Scene, core: Core)
    requires Sound(z, core) && core.pc < Prog(z).post
    ensures Loaded(z.call, z.area, core.regs)
  {
    hide Block, Loaded;
  }

  lemma ForwardFrom(z: Scene, core: Core, m: Mem, e: Result)
    requires Sound(z, core) && core.pc < |Prog(z).code| && e == Exec(Prog(z).code[core.pc], Around(z), core, m)
    ensures core.pc < e.core.pc <= |Prog(z).code|
  {
    EveryBlockWellFormed(z.cfg.arch, OpcodeOf(z.call.op), z.call.key.kind);
    AbortIsTwo(Prog(z), OpcodeOf(z.call.op), z.call.key.kind);
    hide Block, Exec, WellFormed, Loaded;
    NextPc(Prog(z), OpcodeOf(z.call.op), z.call.key.kind, Around(z), core, m, e);
  }

  /** All other threads are where they were. */
  predicate Undisturbing(z: Scene, n: State) {
    z.t in n.threads && n.threads == z.others[z.t := n.threads[z.t]]
  }

  /** The thread is still where it was, with nothing but this call. */
  predicate Finished(z: Scene, n: State, cs: usize) {
    && z.t in n.threads && n.threads[z.t].place == On(z.cpu) && n.threads[z.t].area == AreaOf(z, cs)
    && |n.threads[z.t].stack| == 1
  }

  lemma AtEnd(z: Scene, m: Mem, cs: usize, core: Core, seen: Mem)
    requires core.pc == |Prog(z).code|
    ensures Finished(z, InCall(z, m, cs, core, seen), cs)
    ensures InCall(z, m, cs, core, seen).mem == m && Undisturbing(z, InCall(z, m, cs, core, seen))
    ensures Answers(z.cfg, InCall(z, m, cs, core, seen), z.t, z.call, Remaining(Prog(z), Around(z), core, m).attempt)
    ensures Remaining(Prog(z), Around(z), core, m).mem == m
  {
    hide Block;
  }

  /** Left alone from inside its range, the call ends as the block does. */
  lemma GoOn(z: Scene, ls: seq<Label>, m: Mem, cs: usize, core: Core, seen: Mem, k: set<usize>) returns (ls2: seq<Label>, n: State)
    requires Reached(z, ls, InCall(z, m, cs, core, seen)) && Sound(z, core) && Prog(z).start <= core.pc
    requires k <= m.Keys && Within(Prog(z), Around(z), core, m, k)
    ensures Onward(ls, ls2, z.t) && Reached(z, ls2, n)
    ensures n.mem == Remaining(Prog(z), Around(z), core, m).mem && Undisturbing(z, n) && Finished(z, n, cs)
    ensures Answers(z.cfg, n, z.t, z.call, Remaining(Prog(z), Around(z), core, m).attempt)
    decreases |Prog(z).code| - core.pc
  {
    var p, env := Prog(z), Around(z);
    if core.pc >= |p.code| {
      AtLength(z, core);
      hide Reached, InCall, Answers, Block, Undisturbing, Finished;
      AtEnd(z, m, cs, core, seen);
      ls2, n := ls, InCall(z, m, cs, core, seen);
    } else {
      var e := Exec(p.code[core.pc], env, core, m);
      ForwardFrom(z, core, m, e);
      KeepsSound(z, core, m, e);
      hide Exec, Block, Reached, InCall, Onward, Sound, Undisturbing, Answers, Finished;
      var l1 := Go(z, ls, m, cs, core, seen, e);
      ls2, n := GoOn(z, l1, After(m, e.store), cs, e.core, Note(seen, e, m), k);
      OnwardTo(ls, l1, ls2, z.t);
    }
  }

  lemma AtLength(z: Scene, core: Core)
    requires Sound(z, core) && core.pc >= |Prog(z).code|
    ensures core.pc == |Prog(z).code|
  {
    EveryBlockWellFormed(z.cfg.arch, OpcodeOf(z.call.op), z.call.key.kind);
    Ranged(Prog(z), OpcodeOf(z.call.op), z.call.key.kind);
    hide Block, Loaded, WellFormed;
  }

  /** An instruction in or after the range keeps the call sound and arms nothing. */
  lemma KeepsSound(z: Scene, core: Core, m: Mem, e: Result)
    requires Sound(z, core) && Prog(z).start <= core.pc < |Prog(z).code| && e == Exec(Prog(z).code[core.pc], Around(z), core, m)
    ensures Sound(z, e.core) && e.cs == None
  {
    var p, opcode, kind, ctx := Prog(z), OpcodeOf(z.call.op), z.call.key.kind, CtxOf(z, core, map[]);
    EveryBlockWellFormed(z.cfg.arch, opcode, kind);
    SoundAs(z, 0, e.core, Stepped(z.cfg, ctx, e, m).seen);
    hide Exec, Block, WellFormed, Loaded, TmpOk;
    if core.pc < p.post {
      RangeStep(z.cfg, AreaOf(z, 0), ctx, m, e);
    } else {
      TailExec(p, opcode, kind, Around(z), core, m, e);
      Ranged(p, opcode, kind);
      TmpPast(p, z.site, e.core);
    }
  }

  lemma TmpPast(p: Program, site: usize, c: Core)
    requires p.start <= c.pc
    ensures TmpOk(p, site, c)
  {
  }

  /** A whole pass, left alone. */
  lemma GoPass(z: Scene, ls: seq<Label>, m: Mem, cs: usize, core: Core, seen: Mem) returns (ls2: seq<Label>, n: State)
    requires Reached(z, ls, InCall(z, m, cs, core, seen)) && Sound(z, core) && core.pc < Prog(z).start
    requires Meaning(z.call, HomeOf(z), m).access <= m.Keys
    ensures Onward(ls, ls2, z.t) && Reached(z, ls2, n)
    ensures Undisturbing(z, n) && Finished(z, n, z.site)
    ensures n.mem == Meaning(z.call, HomeOf(z), m).mem && Answers(z.cfg, n, z.t, z.call, Meaning(z.call, HomeOf(z), m).attempt)
  {
    hide Exec, Block, Reached, InCall, Onward, Sound, Undisturbing, Answers, Finished, Meaning, Loaded, Remaining, Within;
    var l1, core2 := GoStart(z, ls, m, cs, core, seen);
    EveryBlockFaithful(z.cfg.arch, Around(z), z.call, core2, m);
    ls2, n := GoOn(z, l1, m, z.site, core2, map[], Meaning(z.call, HomeOf(z), m).access);
    OnwardTo(ls, l1, ls2, z.t);
  }

  /** On the way to Ok, having started from the memory `from` and stored nothing yet. */
  predicate OnTrack(z: Scene, core: Core, m: Mem, k: set<usize>) {
    && Sound(z, core) && InRange(Prog(z), core.pc) && Within(Prog(z), Around(z), core, m, k)
    && Meaning(z.call, HomeOf(z), m).attempt.Ok?
    && Remaining(Prog(z), Around(z), core, m) == Rest(Meaning(z.call, HomeOf(z), m).attempt, Meaning(z.call, HomeOf(z), m).mem)
  }

  /** A failed check or compare is not on the way to Ok. */
  lemma FailNotOk(p: Program, env: Env, c: Core, m: Mem)
    requires Exits(p) && p.post <= c.pc && FailExit(p, c.pc)
    ensures !Remaining(p, env, c, m).attempt.Ok?
  {
    if c.pc + 2 == |p.code| {
      var c1 := Exec(p.code[c.pc], env, c, m).core;
      var c2 := Exec(p.code[c.pc + 1], env, c1, m).core;
      assert Remaining(p, env, c2, m).attempt == FromStatus(2, Get(c2.regs, p.value));
      assert Remaining(p, env, c1, m) == Remaining(p, env, c2, m);
    } else if MissAt(p, c.pc) {
      MissNotOk(p, env, c, m);
    } else {
      var c1 := Exec(p.code[c.pc], env, c, m).core;
      MissNotOk(p, env, c1, m);
      assert Remaining(p, env, c, m) == Remaining(p, env, c1, m);
    }
  }

  lemma MissNotOk(p: Program, env: Env, c: Core, m: Mem)
    requires Exits(p) && p.post <= c.pc && MissAt(p, c.pc)
    ensures !Remaining(p, env, c, m).attempt.Ok?
  {
    var c1 := Exec(p.code[c.pc], env, c, m).core;
    var c2 := Exec(p.code[c.pc + 1], env, c1, m).core;
    assert Remaining(p, env, c2, m).attempt == FromStatus(1, Get(c2.regs, p.value));
    assert Remaining(p, env, c1, m) == Remaining(p, env, c2, m);
  }

  /** Where the range can be left before its end. */
  lemma LeavesByFailing(p: Program, opcode: Opcode, kind: Kind, env: Env, c: Core, m: Mem, e: Result)
    requires WellFormed(p, opcode, kind) && InRange(p, c.pc) && c.pc < p.post - 1
    requires e == Exec(p.code[c.pc], env, c, m) && e.core.pc != c.pc + 1
    ensures p.post <= e.core.pc && FailExit(p, e.core.pc) && e.store == None && e.load == None
  {
    hide Checked, Low32, FailExit;
    assert InstrOk(p, c.pc) && ScratchOk(p, opcode, c.pc);
  }

  /** One instruction of a call on the way to Ok goes straight ahead. */
  lemma StraightStep(z: Scene, core: Core, m: Mem, k: set<usize>, e: Result)
    requires OnTrack(z, core, m, k) && core.pc < Prog(z).post - 1 && !Prog(z).code[core.pc].Store?
    requires e == Exec(Prog(z).code[core.pc], Around(z), core, m)
    ensures e.core.pc == core.pc + 1 && e.store == None && e.cs == None && Touches(e, k) && OnTrack(z, e.core, m, k)
  {
    var p, opcode, kind, env := Prog(z), OpcodeOf(z.call.op), z.call.key.kind, Around(z);
    EveryBlockWellFormed(z.cfg.arch, opcode, kind);
    EveryExits(z.cfg.arch, opcode, kind);
    ForwardFrom(z, core, m, e);
    RangeBounds(z, core);
    KeepsSound(z, core, m, e);
    if e.core.pc != core.pc + 1 {
      hide Exec, Block, WellFormed, Sound, Meaning, Exits, FailExit;
      LeavesByFailing(p, opcode, kind, env, core, m, e);
      FailNotOk(p, env, e.core, m);
      assert false;
    } else {
      StoresNone(p, opcode, kind, env, core, m, e);
      hide Exec, Block, WellFormed, Sound, Meaning, Exits, FailExit;
    }
  }

  lemma RangeBounds(z: Scene, core: Core)
    requires InRange(Prog(z), core.pc)
    ensures Prog(z).start <= core.pc < |Prog(z).code| && Prog(z).start < Prog(z).post < |Prog(z).code|
  {
    EveryBlockWellFormed(z.cfg.arch, OpcodeOf(z.call.op), z.call.key.kind);
    Ranged(Prog(z), OpcodeOf(z.call.op), z.call.key.kind);
    hide Block, WellFormed;
  }

  lemma StoresNone(p: Program, opcode: Opcode, kind: Kind, env: Env, c: Core, m: Mem, e: Result)
    requires WellFormed(p, opcode, kind) && InRange(p, c.pc) && c.pc < p.post - 1 && !p.code[c.pc].Store?
    requires e == Exec(p.code[c.pc], env, c, m)
    ensures e.store == None
  {
    hide Checked, Low32, FailExit;
    assert InstrOk(p, c.pc);
  }

  /** As far as an instruction that stores, or any before it. */
  lemma GoStraight(z: Scene, ls: seq<Label>, m: Mem, core: Core, seen: Mem, k: set<usize>, q: nat)
    returns (ls2: seq<Label>, core2: Core, seen2: Mem)
    requires Reached(z, ls, InCall(z, m, z.site, core, seen)) && OnTrack(z, core, m, k) && k <= m.Keys
    requires core.pc <= q < Prog(z).post && forall j | core.pc <= j < q :: j < |Prog(z).code| && !Prog(z).code[j].Store?
    ensures Onward(ls, ls2, z.t) && Reached(z, ls2, InCall(z, m, z.site, core2, seen2))
    ensures core2.pc == q && OnTrack(z, core2, m, k)
    decreases q - core.pc
  {
    if core.pc == q {
      ls2, core2, seen2 := ls, core, seen;
      hide Block;
    } else {
      var e := Exec(Prog(z).code[core.pc], Around(z), core, m);
      RangeBounds(z, core);
      StraightStep(z, core, m, k, e);
      hide Exec, Block, Reached, InCall, Onward, OnTrack;
      var l1 := Go(z, ls, m, z.site, core, seen, e);
      ls2, core2, seen2 := GoStraight(z, l1, m, e.core, Note(seen, e, m), k, q);
      OnwardTo(ls, l1, ls2, z.t);
    }
  }

  /** The first pass of a call that would succeed, as far as one of its instructions. */
  lemma GoTo(z: Scene, ls: seq<Label>, m: Mem, cs: usize, core: Core, seen: Mem, q: nat)
    returns (ls2: seq<Label>, core2: Core, seen2: Mem)
    requires Reached(z, ls, InCall(z, m, cs, core, seen)) && Sound(z, core) && core.pc < Prog(z).start
    requires Meaning(z.call, HomeOf(z), m).attempt.Ok? && Meaning(z.call, HomeOf(z), m).access <= m.Keys
    requires Prog(z).start <= q < Prog(z).post
    requires forall j | Prog(z).start <= j < q :: j < |Prog(z).code| && !Prog(z).code[j].Store?
    ensures Onward(ls, ls2, z.t) && Reached(z, ls2, InCall(z, m, z.site, core2, seen2))
    ensures core2.pc == q && OnTrack(z, core2, m, Meaning(z.call, HomeOf(z), m).access)
  {
    var l1, core1 := GoStart(z, ls, m, cs, core, seen);
    EveryBlockFaithful(z.cfg.arch, Around(z), z.call, core1, m);
    hide Exec, Block, Reached, InCall, Onward, Sound, Meaning, Loaded, Remaining, Within;
    ls2, core2, seen2 := GoStraight(z, l1, m, core1, map[], Meaning(z.call, HomeOf(z), m).access, q);
    OnwardTo(ls, l1, ls2, z.t);
  }

  /** The thread between calls. */
  function Waiting(z: Scene, m: Mem, cs: usize): State {
    With(z, m, On(z.cpu), cs, Idle)
  }

  lemma GoBegin(z: Scene, ls: seq<Label>, m: Mem, cs: usize, regs: map<Reg, usize>) returns (ls2: seq<Label>)
    requires Reached(z, ls, Waiting(z, m, cs)) && OnSite(z) && Loaded(z.call, z.area, regs)
    ensures ls2 == ls + [Begin(z.t, z.call, z.site, regs, false)]
    ensures Reached(z, ls2, InCall(z, m, cs, Core(0, regs, false), map[]))
  {
    hide Reached, Loaded;
    var n, l := Waiting(z, m, cs), Begin(z.t, z.call, z.site, regs, false);
    Snoc(z, ls, n, l);
    ls2 := ls + [l];
    assert SetTop(n.threads[z.t], Active(z.call, z.site, Core(0, regs, false), map[])).stack == [Active(z.call, z.site, Core(0, regs, false), map[])];
    assert Next(z.cfg, n, l).threads == InCall(z, m, cs, Core(0, regs, false), map[]).threads;
  }

  /** Everybody else rests, on other CPUs with other concurrency ids. */
  predicate OthersRest(z: Scene) {
    && (forall u | u in z.others && u != z.t :: z.others[u].stack == [Idle])
    && (forall u | u in z.others && u != z.t && z.others[u].place.On? ::
          z.others[u].place.cpu != z.cpu && z.others[u].area.mmCid != z.cid)
  }

  predicate Bystander(z: Scene, u: Tid) {
    u in z.others && u != z.t && z.others[u].place.On? && z.others[u].stack == [Idle]
  }

  /** A bystander stores while the thread is inside its call. */
  lemma GoPlain(z: Scene, ls: seq<Label>, m: Mem, place: Place, cs: usize, ctx: Context, u: Tid, a: usize, v: usize)
    returns (ls2: seq<Label>)
    requires Reached(z, ls, With(z, m, place, cs, ctx)) && Bystander(z, u) && a in m
    ensures ls2 == ls + [Plain(u, a, v)] && Reached(z, ls2, With(z, m[a := v], place, cs, ctx))
  {
    hide Reached;
    Snoc(z, ls, With(z, m, place, cs, ctx), Plain(u, a, v));
    ls2 := ls + [Plain(u, a, v)];
  }

  /** A bystander fences a CPU on which nobody else runs. */
  lemma GoFence(z: Scene, ls: seq<Label>, m: Mem, place: Place, cs: usize, ctx: Context, u: Tid, cpu: u32)
    returns (ls2: seq<Label>)
    requires Reached(z, ls, With(z, m, place, cs, ctx)) && Bystander(z, u) && (place.On? ==> place.cpu != cpu)
    requires forall v | v in z.others && v != u && v != z.t && z.others[v].place.On? :: z.others[v].place.cpu != cpu
    ensures ls2 == ls + [FenceCpu(u, cpu)] && Reached(z, ls2, With(z, m, place, cs, ctx))
  {
    hide Reached;
    var n := With(z, m, place, cs, ctx);
    Snoc(z, ls, n, FenceCpu(u, cpu));
    ls2 := ls + [FenceCpu(u, cpu)];
    assert forall v | v in n.threads :: !Hit(n, u, Some(cpu), v);
    assert Next(z.cfg, n, FenceCpu(u, cpu)).threads == n.threads;
  }

  lemma GoPreempt(z: Scene, ls: seq<Label>, m: Mem, cs: usize, ctx: Context) returns (ls2: seq<Label>)
    requires Reached(z, ls, With(z, m, On(z.cpu), cs, ctx))
    ensures ls2 == ls + [Preempt(z.t)] && Reached(z, ls2, With(z, m, Off, cs, ctx))
  {
    hide Reached;
    var n := With(z, m, On(z.cpu), cs, ctx);
    Snoc(z, ls, n, Preempt(z.t));
    ls2 := ls + [Preempt(z.t)];
    assert Next(z.cfg, n, Preempt(z.t)).threads == With(z, m, Off, cs, ctx).threads;
  }

  /** Back on a CPU, and at the abort point. */
  lemma GoResume(z: Scene, ls: seq<Label>, m: Mem, core: Core, seen: Mem, cpu: u32, cid: u32) returns (ls2: seq<Label>)
    requires Reached(z, ls, With(z, m, Off, z.site, Active(z.call, z.site, core, seen)))
    requires OnSite(z) && InRange(Prog(z), core.pc) && OthersRest(z.(cpu := cpu, cid := cid))
    ensures ls2 == ls + [Resume(z.t, cpu, cid)]
    ensures Reached(z.(cpu := cpu, cid := cid), ls2, InCall(z.(cpu := cpu, cid := cid), m, 0, core.(pc := Prog(z).abort), seen))
  {
    hide Block, ValidRun, StateAfter;
    var n, y, l := With(z, m, Off, z.site, Active(z.call, z.site, core, seen)), z.(cpu := cpu, cid := cid), Resume(z.t, cpu, cid);
    hide Reached;
    Snoc(z, ls, n, l);
    ls2 := ls + [l];
    assert Kick(z.cfg, n.threads[z.t]).stack == [Active(z.call, z.site, core.(pc := Prog(z).abort), seen)];
    assert Next(z.cfg, n, l).threads == InCall(y, m, 0, core.(pc := Prog(z).abort), seen).threads;
    SameRun(z, y, ls2, Next(z.cfg, n, l));
  }

  /** Back on a CPU in a call that was not in its range, and goes on where it was. */
  lemma GoResumeOn(z: Scene, ls: seq<Label>, m: Mem, cs: usize, core: Core, seen: Mem, cpu: u32, cid: u32) returns (ls2: seq<Label>)
    requires Reached(z, ls, With(z, m, Off, cs, CtxOf(z, core, seen)))
    requires OnSite(z) && !InRange(Prog(z), core.pc) && OthersRest(z.(cpu := cpu, cid := cid))
    ensures ls2 == ls + [Resume(z.t, cpu, cid)]
    ensures Reached(z.(cpu := cpu, cid := cid), ls2, InCall(z.(cpu := cpu, cid := cid), m, 0, core, seen))
  {
    hide Block, ValidRun, StateAfter;
    var n, y, l := With(z, m, Off, cs, CtxOf(z, core, seen)), z.(cpu := cpu, cid := cid), Resume(z.t, cpu, cid);
    hide Reached;
    Snoc(z, ls, n, l);
    ls2 := ls + [l];
    assert Kick(z.cfg, n.threads[z.t]).stack == [CtxOf(z, core, seen)];
    assert Next(z.cfg, n, l).threads == InCall(y, m, 0, core, seen).threads;
    SameRun(z, y, ls2, Next(z.cfg, n, l));
  }

  /** The return from a call. */
  lemma GoReturn(z: Scene, ls: seq<Label>, n: State, cs: usize)
    requires Reached(z, ls, n) && Undisturbing(z, n) && Finished(z, n, cs) && Enabled(z.cfg, n, Return(z.t))
    ensures Reached(z, ls + [Return(z.t)], Waiting(z, n.mem, cs))
  {
    hide Reached, Block;
    Snoc(z, ls, n, Return(z.t));
    assert SetTop(n.threads[z.t], Idle).stack == [Idle];
    assert Next(z.cfg, n, Return(z.t)).threads == Waiting(z, n.mem, cs).threads;
  }

  /** Back on a CPU between calls. */
  lemma GoResumeIdle(z: Scene, ls: seq<Label>, m: Mem, cs: usize, cpu: u32, cid: u32) returns (ls2: seq<Label>)
    requires Reached(z, ls, With(z, m, Off, cs, Idle)) && OthersRest(z.(cpu := cpu, cid := cid))
    ensures ls2 == ls + [Resume(z.t, cpu, cid)]
    ensures Reached(z.(cpu := cpu, cid := cid), ls2, Waiting(z.(cpu := cpu, cid := cid), m, 0))
  {
    hide ValidRun, StateAfter;
    var n, y, l := With(z, m, Off, cs, Idle), z.(cpu := cpu, cid := cid), Resume(z.t, cpu, cid);
    hide Reached;
    Snoc(z, ls, n, l);
    ls2 := ls + [l];
    assert Kick(z.cfg, n.threads[z.t]).stack == [Idle];
    assert Next(z.cfg, n, l).threads == Waiting(y, m, 0).threads;
    SameRun(z, y, ls2, Next(z.cfg, n, l));
  }

  /** The thread in a handler, its call interrupted below. */
  function Handling(z: Scene, m: Mem, core: Core, seen: Mem): State {
    State(m, z.others[z.t := Thread(On(z.cpu), AreaOf(z, 0), [CtxOf(z, core, seen), Idle])])
  }

  /** A signal in the range: the call will go on from its abort point. */
  lemma GoSignal(z: Scene, ls: seq<Label>, m: Mem, core: Core, seen: Mem) returns (ls2: seq<Label>)
    requires Reached(z, ls, InCall(z, m, z.site, core, seen)) && OnSite(z) && InRange(Prog(z), core.pc)
    ensures ls2 == ls + [Signal(z.t)] && Reached(z, ls2, Handling(z, m, core.(pc := Prog(z).abort), seen))
  {
    hide Block, Reached;
    var n, l := InCall(z, m, z.site, core, seen), Signal(z.t);
    Snoc(z, ls, n, l);
    ls2 := ls + [l];
    assert FixUp(z.cfg, z.site, CtxOf(z, core, seen)) == CtxOf(z, core.(pc := Prog(z).abort), seen);
    assert Kick(z.cfg, n.threads[z.t]).stack == [CtxOf(z, core.(pc := Prog(z).abort), seen)];
    assert [CtxOf(z, core.(pc := Prog(z).abort), seen)] + [Idle] == [CtxOf(z, core.(pc := Prog(z).abort), seen), Idle];
    assert Next(z.cfg, n, l).threads == Handling(z, m, core.(pc := Prog(z).abort), seen).threads;
  }

  /** The handler stores. */
  lemma GoHandlerStore(z: Scene, ls: seq<Label>, m: Mem, core: Core, seen: Mem, a: usize, v: usize) returns (ls2: seq<Label>)
    requires Reached(z, ls, Handling(z, m, core, seen)) && a in m
    ensures ls2 == ls + [Plain(z.t, a, v)] && Reached(z, ls2, Handling(z, m[a := v], core, seen))
  {
    hide Reached;
    Snoc(z, ls, Handling(z, m, core, seen), Plain(z.t, a, v));
    ls2 := ls + [Plain(z.t, a, v)];
  }

  /** The handler returns. */
  lemma GoSigReturn(z: Scene, ls: seq<Label>, m: Mem, core: Core, seen: Mem) returns (ls2: seq<Label>)
    requires Reached(z, ls, Handling(z, m, core, seen))
    ensures ls2 == ls + [SigReturn(z.t, false)] && Reached(z, ls2, InCall(z, m, 0, core, seen))
  {
    hide Reached;
    var n, l := Handling(z, m, core, seen), SigReturn(z.t, false);
    Snoc(z, ls, n, l);
    ls2 := ls + [l];
    assert [CtxOf(z, core, seen), Idle][..1] == [CtxOf(z, core, seen)];
    assert Next(z.cfg, n, l).threads == InCall(z, m, 0, core, seen).threads;
  }

  lemma SameRun(z: Scene, y: Scene, ls: seq<Label>, n: State)
    requires Reached(z, ls, n) && y.cfg == z.cfg && y.start == z.start
    ensures Reached(y, ls, n)
  {
  }

  /** Nobody but `t` is in a call. */
  predicate Alone(s: State, t: Tid) {
    forall u | u in s.threads && u != t :: s.threads[u].stack == [Idle]
  }

  predicate PoliteAt(ls: seq<Label>, t: Tid, k: nat)
    requires k < |ls|
  {
    match ls[k]
    case Step(u) => u == t
    case Preempt(u) => u == t
    case Resume(u, _, _) => u == t
    case Signal(u) => u == t
    case SigReturn(u, _) => u == t
    case Plain(u, _, _) => u == t || (k > 0 && ls[k - 1] == Preempt(t))
    case _ => false
  }

  /** One thread's instructions and interruptions; others store only while it is off its CPU, or in its handlers. */
  predicate Polite(ls: seq<Label>, t: Tid) {
    forall k | 0 <= k < |ls| :: PoliteAt(ls, t, k)
  }

  lemma PoliteAnd(ls: seq<Label>, more: seq<Label>, t: Tid)
    requires Polite(ls, t) && Polite(more, t)
    ensures Polite(ls + more, t)
  {
    forall k | 0 <= k < |ls + more| ensures PoliteAt(ls + more, t, k) {
      if k < |ls| { assert PoliteAt(ls, t, k); } else { assert PoliteAt(more, t, k - |ls|); }
    }
  }

  lemma PoliteStep(cfg: Config, s: State, l: Label, t: Tid)
    requires Enabled(cfg, s, l) && Alone(s, t)
    requires match l
             case Step(u) => u == t
             case Preempt(u) => u == t
             case Resume(u, _, _) => u == t
             case Signal(u) => u == t
             case SigReturn(u, _) => u == t
             case Plain(u, _, _) => u == t || !Runs(s, t)
             case _ => false
    ensures Disciplined(cfg, s, l) && Alone(Next(cfg, s, l), t)
  {
    hide Exec, Block, Loaded, Kick, Meaning, Settled, Touches;
    if AEnabled(Abs(cfg, s), Observe(cfg, s, l)) {
      OnlyPending(cfg, s, t);
      hide EffectOf;
    }
  }

  lemma OnlyPending(cfg: Config, s: State, t: Tid)
    requires Alone(s, t)
    ensures forall u | IsPending(Abs(cfg, s), u) :: u == t && Runs(s, t)
  {
    hide Block, Settled;
  }

  /** A polite run is disciplined. */
  lemma {:induction false} PoliteRun(cfg: Config, s: State, ls: seq<Label>, t: Tid)
    requires Alone(s, t) && ValidRun(cfg, s, ls) && Polite(ls, t)
    ensures DisciplinedRun(cfg, s, ls) && Alone(StateAfter(cfg, s, ls), t)
    decreases |ls|
  {
    hide Enabled, Next, Disciplined, Alone;
    if ls != [] {
      var k, front := |ls| - 1, ls[..|ls| - 1];
      forall j | 0 <= j < k ensures PoliteAt(front, t, j) { assert PoliteAt(ls, t, j); }
      PoliteRun(cfg, s, front, t);
      assert PoliteAt(ls, t, k);
      if ls[k].Plain? && ls[k].t != t {
        assert front != [] && front[|front| - 1] == Preempt(t);
        OffAfterPreempt(cfg, StateAfter(cfg, s, front[..|front| - 1]), t);
      }
      PoliteStep(cfg, StateAfter(cfg, s, front), ls[k], t);
    }
  }

  lemma OffAfterPreempt(cfg: Config, s: State, t: Tid)
    requires Enabled(cfg, s, Preempt(t))
    ensures !Runs(Next(cfg, s, Preempt(t)), t)
  {
  }
}
