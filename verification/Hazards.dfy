/** What goes wrong where the discipline is not kept. */
module Hazards {
  import opened Bits
  import opened Ops
  import opened Isa
  import opened Operands
  import opened Blocks
  import opened Machine
  import opened Sections
  import opened Stepping
  import opened Refinement
  import opened Safety
  import opened Scenes
  import B = BadRuns
  import Threads

  lemma SwapBlock(arch: Arch, kind: Kind)
    ensures CompareExchangeShape(Block(arch, OpCompareExchange, kind), kind)
  {
    hide CompareExchangeShape;
    if arch == Arm { ArmCompareExchange(kind); } else { IntelCompareExchange(kind); }
  }

  lemma SwapShape(p: Program, kind: Kind)
    requires CompareExchangeShape(p, kind)
    ensures p.start <= p.post - 1 && p.post < |p.code| && p.code[p.post - 1] == Store(Update, WordPtr)
    ensures forall j | p.start <= j < p.post - 1 :: j < |p.code| && !p.code[j].Store?
  {
    hide Armed, Exits, MissAt;
  }

  lemma SwapMeans(z: Scene, m: Mem)
    requires z.call.op.CompareExchange? && HomeOf(z) == z.call.key.id
    requires z.call.op.word in m && m[z.call.op.word] == z.call.op.expected
    ensures Meaning(z.call, HomeOf(z), m) == Effect(Ok(z.call.op.expected), m[z.call.op.word := z.call.op.update], {z.call.op.word}, {z.call.op.word})
    ensures {z.call.op.word} <= m.Keys
  {
  }

  /** Left alone from here, the call answers Ok and stores its update. */
  predicate CommitsFrom(z: Scene, core: Core, n: Mem)
    requires z.call.op.CompareExchange?
  {
    && Remaining(Prog(z), Around(z), core, n) == Rest(Ok(z.call.op.expected), n[z.call.op.word := z.call.op.update])
    && Within(Prog(z), Around(z), core, n, {z.call.op.word})
  }

  lemma SwapInputs(z: Scene, core: Core, m: Mem)
    requires z.call.op.CompareExchange? && OnTrack(z, core, m, {z.call.op.word})
    ensures Get(core.regs, WordPtr) == z.call.op.word && Get(core.regs, Update) == z.call.op.update
    ensures Remaining(Prog(z), Around(z), core, m) == Rest(Meaning(z.call, HomeOf(z), m).attempt, Meaning(z.call, HomeOf(z), m).mem)
  {
    SoundLoaded(z, core);
    hide Block, Low32, Sound, Meaning, Remaining, Within;
  }

  /** The committing store of a `compare_exchange` looks at no memory: it does the same whatever has happened
      since the compare. */
  lemma CommitAnywhere(z: Scene, core: Core, m: Mem, n: Mem)
    requires z.call.op.CompareExchange? && OnTrack(z, core, m, {z.call.op.word}) && core.pc == Prog(z).post - 1
    requires |Prog(z).code| > Prog(z).post && Prog(z).code[core.pc] == Store(Update, WordPtr)
    requires Meaning(z.call, HomeOf(z), m).attempt == Ok(z.call.op.expected)
    ensures CommitsFrom(z, core, n)
  {
    var p, env, op := Prog(z), Around(z), z.call.op;
    var d := core.(pc := core.pc + 1);
    SwapInputs(z, core, m);
    EveryBlockWellFormed(z.cfg.arch, OpcodeOf(op), z.call.key.kind);
    assert p == Block(z.cfg.arch, OpcodeOf(op), z.call.key.kind) by { hide Block; }
    hide Block, WellFormed, Sound, Loaded, Meaning, Low32, OnTrack;
    LastStore(p, env, core, m);
    LastStore(p, env, core, n);
    TailSettled(p, OpcodeOf(op), z.call.key.kind, env, d, m[op.word := op.update]);
    TailSettled(p, OpcodeOf(op), z.call.key.kind, env, d, n[op.word := op.update]);
    TailTouches(p, OpcodeOf(op), z.call.key.kind, env, d, n[op.word := op.update], {op.word});
    hide Exec;
  }

  lemma LastStore(p: Program, env: Env, core: Core, m: Mem)
    requires core.pc < |p.code| && p.code[core.pc] == Store(Update, WordPtr)
    ensures
      var d, n := core.(pc := core.pc + 1), m[Get(core.regs, WordPtr) := Get(core.regs, Update)];
      && Remaining(p, env, core, m) == Remaining(p, env, d, n)
      && forall k | Get(core.regs, WordPtr) in k :: Within(p, env, core, m, k) <==> Within(p, env, d, n, k)
  {
    var e := Exec(p.code[core.pc], env, core, m);
    assert e.core == core.(pc := core.pc + 1) && After(m, e.store) == m[Get(core.regs, WordPtr) := Get(core.regs, Update)];
    forall k | Get(core.regs, WordPtr) in k
      ensures Within(p, env, core, m, k) <==> Within(p, env, core.(pc := core.pc + 1), m[Get(core.regs, WordPtr) := Get(core.regs, Update)], k)
    {
      assert Touches(e, k);
    }
  }

  lemma {:induction false} TailTouches(p: Program, opcode: Opcode, kind: Kind, env: Env, c: Core, m: Mem, k: set<usize>)
    requires WellFormed(p, opcode, kind) && p.post <= c.pc
    ensures Within(p, env, c, m, k)
    decreases |p.code| - c.pc
  {
    hide WellFormed, Exec;
    if c.pc < |p.code| {
      var e := Exec(p.code[c.pc], env, c, m);
      TailExec(p, opcode, kind, env, c, m, e);
      TailTouches(p, opcode, kind, env, e.core, m, k);
    }
  }

  /** A thread that has just begun a call on a CPU, with a concurrency id. */
  function Entry(call: Call, area: usize): Core {
    Core(0, Threads.OperandsOf(call, area), false)
  }

  lemma EntrySound(z: Scene)
    requires OnSite(z)
    ensures Sound(z, Entry(z.call, z.area)) && 0 < Prog(z).start
  {
    EveryBlockWellFormed(z.cfg.arch, OpcodeOf(z.call.op), z.call.key.kind);
    B.BeforeRange(Prog(z), OpcodeOf(z.call.op), z.call.key.kind);
    hide Block, WellFormed, Loaded, Threads.OperandsOf;
  }

  lemma SwapAhead(z: Scene)
    requires z.call.op.CompareExchange?
    ensures var p := Prog(z); p.start <= p.post - 1 && p.post < |p.code| && p.code[p.post - 1] == Store(Update, WordPtr)
    ensures forall j | Prog(z).start <= j < Prog(z).post - 1 :: j < |Prog(z).code| && !Prog(z).code[j].Store?
  {
    SwapBlock(z.cfg.arch, z.call.key.kind);
    SwapShape(Prog(z), z.call.key.kind);
    hide Block, CompareExchangeShape;
  }

  lemma TrackSound(z: Scene, core: Core, m: Mem, k: set<usize>)
    requires OnTrack(z, core, m, k)
    ensures Sound(z, core) && InRange(Prog(z), core.pc)
  {
    hide Block, Sound, Meaning, Remaining, Within;
  }

  /** A `compare_exchange` that would succeed, one instruction before its committing store. */
  lemma GoToCommit(z: Scene, ls: seq<Label>, m: Mem) returns (ls2: seq<Label>, core: Core, seen: Mem)
    requires OnSite(z) && Reached(z, ls, InCall(z, m, 0, Entry(z.call, z.area), map[])) && HomeOf(z) == z.call.key.id
    requires z.call.op.CompareExchange? && z.call.op.word in m && m[z.call.op.word] == z.call.op.expected
    ensures Onward(ls, ls2, z.t) && Reached(z, ls2, InCall(z, m, z.site, core, seen)) && InRange(Prog(z), core.pc)
    ensures forall n: Mem :: CommitsFrom(z, core, n)
    ensures Sound(z, core)
  {
    SwapAhead(z);
    SwapMeans(z, m);
    EntrySound(z);
    hide Block, Reached, InCall, Sound, Meaning, Onward, OnSite, Threads.OperandsOf, OnTrack;
    ls2, core, seen := GoTo(z, ls, m, 0, Entry(z.call, z.area), map[], Prog(z).post - 1);
    TrackSound(z, core, m, {z.call.op.word});
    forall n: Mem ensures CommitsFrom(z, core, n) {
      CommitAnywhere(z, core, m, n);
    }
  }

  /** Thread 1 on CPU `cpu` with concurrency id `cid`, thread 0 somewhere else; both between calls. */
  function Pair(arch: Arch, call: Call, cpu: u32, cid: u32, m: Mem, sites: map<usize, Site>, other: Thread): Scene {
    var z := Scene(Config(arch, sites), State(m, map[]), map[0 := other], 1, B.AREA, cpu, cid, call, B.SITE);
    z.(start := Waiting(z, m, 0))
  }

  function Between(area: usize, cpu: u32, cid: u32): Thread {
    Thread(On(cpu), Area(area, cpu, cid, 0), [Idle])
  }

  lemma StartsAtRest(z: Scene, m: Mem)
    requires z.start == Waiting(z, m, 0) && z.t == 1 && z.others.Keys == {0} && z.others[0].stack == [Idle]
    requires z.others[0].place == On(z.others[0].area.cpuId) && z.others[0].area.cpuId != z.cpu && z.others[0].area.mmCid != z.cid
    ensures AtRest(z.start) && Reached(z, [], Waiting(z, m, 0)) && Bystander(z, 0)
  {
  }

  /** More of the run: one call begun, and instructions. */
  predicate Grown(ls: seq<Label>, more: seq<Label>, call: Call) {
    ls <= more && forall i | |ls| <= i < |more| :: more[i].Step? || (more[i].Begin? && more[i].call == call)
  }

  lemma GrownBy(ls: seq<Label>, l: Label, more: seq<Label>, t: Tid)
    requires l.Begin? && Onward(ls + [l], more, t)
    ensures Grown(ls, more, l.call)
  {
    assert more[..|ls + [l]|][..|ls|] == ls;
    assert more[|ls|] == more[..|ls + [l]|][|ls|] == l;
  }

  /** From rest to one instruction before the commit. */
  lemma BeginToCommit(z: Scene, ls: seq<Label>, m: Mem) returns (ls2: seq<Label>, core: Core, seen: Mem)
    requires OnSite(z) && Reached(z, ls, Waiting(z, m, 0)) && HomeOf(z) == z.call.key.id
    requires z.call.op.CompareExchange? && z.call.op.word in m && m[z.call.op.word] == z.call.op.expected
    ensures Grown(ls, ls2, z.call)
    ensures Reached(z, ls2, InCall(z, m, z.site, core, seen)) && InRange(Prog(z), core.pc) && Sound(z, core)
    ensures forall n: Mem :: CommitsFrom(z, core, n)
  {
    var regs := Threads.OperandsOf(z.call, z.area);
    hide Block, Grown, Onward, Reached, InCall, Sound, Waiting, Loaded, Threads.OperandsOf, CommitsFrom;
    var l1 := GoBegin(z, ls, m, 0, regs);
    ls2, core, seen := GoToCommit(z, l1, m);
    GrownBy(ls, Begin(z.t, z.call, z.site, regs, false), ls2, z.t);
  }

  /** And from there to the answer. */
  lemma Finish(z: Scene, ls: seq<Label>, m: Mem, core: Core, seen: Mem) returns (ls2: seq<Label>, n: State)
    requires Reached(z, ls, InCall(z, m, z.site, core, seen)) && InRange(Prog(z), core.pc) && Sound(z, core)
    requires z.call.op.CompareExchange? && z.call.op.word in m && CommitsFrom(z, core, m)
    ensures Onward(ls, ls2, z.t) && Reached(z, ls2, n) && Undisturbing(z, n)
    ensures n.mem == m[z.call.op.word := z.call.op.update] && Answers(z.cfg, n, z.t, z.call, Ok(z.call.op.expected))
  {
    hide Block, Reached, InCall, Sound, Within, Remaining, Undisturbing, Answers, Onward;
    ls2, n := GoOn(z, ls, m, z.site, core, seen, {z.call.op.word});
  }

  lemma InsideNow(z: Scene, m: Mem, cs: usize, core: Core, seen: Mem)
    requires InRange(Prog(z), core.pc)
    ensures InLiveSection(z.cfg, InCall(z, m, cs, core, seen), z.t) && Top(InCall(z, m, cs, core, seen).threads[z.t]).call == z.call
  {
    hide Block;
  }

  /** A fence of CPU `id` lets a pass on a word of concurrency id `id` commit although it was begun before the
      fence, by a thread running on another CPU. */
  lemma CidSpared(arch: Arch, call: Call) returns (cfg: Config, s: State, ls: seq<Label>, end: seq<Label>)
    requires call.op.CompareExchange? && call.key.kind.CidIndex?
    ensures AtRest(s) && Read(s.mem, call.op.word) == call.op.expected
    ensures ValidRun(cfg, s, ls) && InLiveSection(cfg, StateAfter(cfg, s, ls), 1)
    ensures Top(StateAfter(cfg, s, ls).threads[1]).call == call
    ensures Onward(ls + [FenceCpu(0, call.key.id)], end, 1) && ValidRun(cfg, s, end)
    ensures StateAfter(cfg, s, end).mem == s.mem[call.op.word := call.op.update]
    ensures Answers(cfg, StateAfter(cfg, s, end), 1, call, Ok(call.op.expected))
  {
    var id, m := call.key.id, map[call.op.word := call.op.expected];
    var z := Pair(arch, call, B.Other(id), id, m, map[B.SITE := Site(OpCompareExchange, CidIndex)], Between(0, id, B.Third(id)));
    cfg, s := z.cfg, z.start;
    StartsAtRest(z, m);
    assert s.mem == m;
    hide Reached, InCall, Sound, Block, CommitsFrom, Waiting, Answers, Undisturbing, Onward, InLiveSection, AtRest;
    var core, seen;
    ls, core, seen := BeginToCommit(z, [], m);
    InsideNow(z, m, z.site, core, seen);
    B.ReachedState(z, ls, InCall(z, m, z.site, core, seen));
    B.InCallWith(z, m, z.site, core, seen);
    var l2 := GoFence(z, ls, m, On(z.cpu), z.site, CtxOf(z, core, seen), 0, id);
    assert CommitsFrom(z, core, m);
    var n;
    end, n := Finish(z, l2, m, core, seen);
    B.ReachedState(z, end, n);
  }

  /** A whole `compare_exchange` that finds what it expects, with nobody interfering. */
  lemma WholeSwap(z: Scene, ls: seq<Label>, m: Mem) returns (ls2: seq<Label>, n: State)
    requires OnSite(z) && Reached(z, ls, Waiting(z, m, 0)) && HomeOf(z) == z.call.key.id
    requires z.call.op.CompareExchange? && z.call.op.word in m && m[z.call.op.word] == z.call.op.expected
    ensures Grown(ls, ls2, z.call)
    ensures Reached(z, ls2, n) && Undisturbing(z, n)
    ensures n.mem == m[z.call.op.word := z.call.op.update] && Answers(z.cfg, n, z.t, z.call, Ok(z.call.op.expected))
  {
    var regs := Threads.OperandsOf(z.call, z.area);
    SwapMeans(z, m);
    EntrySound(z);
    hide Block, Grown, Onward, Reached, InCall, Sound, Waiting, Loaded, Threads.OperandsOf, Answers, Undisturbing, Meaning, OnSite;
    var l1 := GoBegin(z, ls, m, 0, regs);
    ls2, n := GoPass(z, l1, m, 0, Entry(z.call, z.area), map[]);
    GrownBy(ls, Begin(z.t, z.call, z.site, regs, false), ls2, z.t);
  }

  lemma StillAnswers(z: Scene, n: State, k: State, u: Tid, call: Call, a: Attempt)
    requires Undisturbing(z, k) && z.others == n.threads && u != z.t && Answers(z.cfg, n, u, call, a)
    ensures Answers(z.cfg, k, u, call, a)
  {
    hide Block;
  }

  /** The other thread's view of a state: the first one is in its call, the other one is between calls. */
  function Offstage(z: Scene, m: Mem, core: Core, seen: Mem, call: Call, site: usize, area: Area): Scene {
    Scene(z.cfg, z.start, InCall(z, m, z.site, core, seen).threads, 0, area.addr, area.cpuId, area.mmCid, call, site)
  }

  lemma OffstageReached(z: Scene, ls: seq<Label>, m: Mem, core: Core, seen: Mem, call: Call, site: usize, area: Area)
    requires Reached(z, ls, InCall(z, m, z.site, core, seen)) && z.t == 1 && 0 in z.others
    requires z.others[0] == Thread(On(area.cpuId), area, [Idle]) && area.cs == 0
    ensures Reached(Offstage(z, m, core, seen, call, site, area), ls, Waiting(Offstage(z, m, core, seen, call, site, area), m, 0))
  {
    var y := Offstage(z, m, core, seen, call, site, area);
    SameRun(z, y, ls, InCall(z, m, z.site, core, seen));
    hide Reached;
    assert InCall(z, m, z.site, core, seen).threads == Waiting(y, m, 0).threads;
  }

  /** Back to the first thread, which has not moved meanwhile. */
  lemma OnstageReached(z: Scene, ls: seq<Label>, m: Mem, core: Core, seen: Mem, call: Call, site: usize, area: Area, n: State)
    requires z.t == 1 && Reached(Offstage(z, m, core, seen, call, site, area), ls, n)
    requires Undisturbing(Offstage(z, m, core, seen, call, site, area), n)
    ensures Reached(z.(others := n.threads), ls, InCall(z.(others := n.threads), n.mem, z.site, core, seen))
  {
    var y, x := Offstage(z, m, core, seen, call, site, area), z.(others := n.threads);
    SameRun(y, x, ls, n);
    hide Reached;
    assert n.threads == InCall(x, n.mem, z.site, core, seen).threads;
  }

  /** Where a call goes from here does not depend on the others. */
  lemma SameCommit(z: Scene, others: map<Tid, Thread>, core: Core, n: Mem)
    requires z.call.op.CompareExchange? && CommitsFrom(z, core, n) && Sound(z, core)
    ensures CommitsFrom(z.(others := others), core, n) && Sound(z.(others := others), core) && Prog(z.(others := others)) == Prog(z)
  {
    hide Block, Remaining, Within, ContextOk;
  }

  /** Where a thread can be that has the index of one key and not that of the other. */
  function SeatCpu(k: Key, j: Key): u32 {
    if k.kind.CidIndex? && j.kind.CpuIndex? then B.Other(j.id) else k.id
  }

  function SeatCid(k: Key, j: Key): u32 {
    if k.kind.CpuIndex? && j.kind.CidIndex? then B.Other(j.id) else k.id
  }

  lemma Seated(k: Key, j: Key)
    requires k != j
    ensures SeatCpu(k, j) != SeatCpu(j, k) && SeatCid(k, j) != SeatCid(j, k)
    ensures (match k.kind case CpuIndex => SeatCpu(k, j) case CidIndex => SeatCid(k, j)) == k.id
  {
  }

  /** A thread with the first key's index about to swap, and one with the second key's. */
  function TwoKeys(arch: Arch, a: Call, j: Key, m: Mem): Scene {
    Pair(arch, a, SeatCpu(a.key, j), SeatCid(a.key, j), m,
         map[B.SITE := Site(OpCompareExchange, a.key.kind), B.SITE + 1 := Site(OpCompareExchange, j.kind)],
         Between(0, SeatCpu(j, a.key), SeatCid(j, a.key)))
  }

  lemma TwoKeysStart(arch: Arch, a: Call, j: Key, m: Mem)
    requires a.op.CompareExchange? && a.key != j
    ensures
      var z, area := TwoKeys(arch, a, j, m), Area(0, SeatCpu(j, a.key), SeatCid(j, a.key), 0);
      && AtRest(z.start) && Reached(z, [], Waiting(z, m, 0)) && OnSite(z) && HomeOf(z) == a.key.id && z.t == 1 && 0 in z.others
      && z.start.mem == m && z.others[0] == Thread(On(area.cpuId), area, [Idle]) && IndexOf(area, j.kind) == j.id
      && z.site == B.SITE && z.call == a && z.cfg.arch == arch
      && B.SITE + 1 in z.cfg.sites && z.cfg.sites[B.SITE + 1] == Site(OpCompareExchange, j.kind)
  {
    Seated(a.key, j);
    Seated(j, a.key);
    StartsAtRest(TwoKeys(arch, a, j, m), m);
  }

  /** Thread 0 does its whole swap while thread 1 waits one instruction before its commit. */
  lemma SwapBetween(z: Scene, ls: seq<Label>, m: Mem, core: Core, seen: Mem, call: Call, site: usize, area: Area)
    returns (ls2: seq<Label>, n: State)
    requires Reached(z, ls, InCall(z, m, z.site, core, seen)) && z.t == 1 && 0 in z.others
    requires z.others[0] == Thread(On(area.cpuId), area, [Idle]) && area.cs == 0
    requires site in z.cfg.sites && z.cfg.sites[site] == Site(OpCompareExchange, call.key.kind)
    requires call.op.CompareExchange? && IndexOf(area, call.key.kind) == call.key.id
    requires call.op.word in m && m[call.op.word] == call.op.expected
    ensures Reached(z.(others := n.threads), ls2, InCall(z.(others := n.threads), n.mem, z.site, core, seen))
    ensures n.mem == m[call.op.word := call.op.update] && Answers(z.cfg, n, 0, call, Ok(call.op.expected))
    ensures Grown(ls, ls2, call)
  {
    var y := Offstage(z, m, core, seen, call, site, area);
    assert OnSite(y) && HomeOf(y) == call.key.id;
    hide *;
    OffstageReached(z, ls, m, core, seen, call, site, area);
    OffstageIs(z, m, core, seen, call, site, area);
    ls2, n := WholeSwap(y, ls, m);
    OnstageReached(z, ls2, m, core, seen, call, site, area, n);
  }

  lemma OffstageIs(z: Scene, m: Mem, core: Core, seen: Mem, call: Call, site: usize, area: Area)
    ensures var y := Offstage(z, m, core, seen, call, site, area); y.cfg == z.cfg && y.call == call && y.t == 0
  {
  }

  /** Nothing is begun but these two calls, and nothing is stored plainly. */
  predicate TwoSwaps(ls: seq<Label>, a: Call, b: Call) {
    forall i | 0 <= i < |ls| :: ls[i].Step? || (ls[i].Begin? && (ls[i].call == a || ls[i].call == b))
  }

  lemma OnlySwaps(l1: seq<Label>, l2: seq<Label>, a: Call, b: Call)
    requires Grown([], l1, a) && Grown(l1, l2, b)
    ensures TwoSwaps(l2, a, b)
  {
    forall i | 0 <= i < |l2| ensures l2[i].Step? || (l2[i].Begin? && (l2[i].call == a || l2[i].call == b)) {
      if i < |l1| { assert l2[i] == l1[i]; }
    }
  }

  /** A word used under two different keys, whatever they are: a thread with the index of each is past its check,
      both swap the word and both succeed, although each update alone makes the other one miss. At the end of
      `before` one of them has finished and the other one has yet to store. */
  lemma TwoKeysRace(arch: Arch, a: Call, b: Call, m: Mem)
    returns (cfg: Config, s: State, before: seq<Label>, ls: seq<Label>)
    requires a.op.CompareExchange? && b.op.CompareExchange? && a.op.word == b.op.word && a.op.expected == b.op.expected
    requires a.key != b.key && a.op.update != a.op.expected && b.op.update != a.op.expected
    requires a.op.word in m && m[a.op.word] == a.op.expected
    ensures cfg.arch == arch && AtRest(s) && s.mem == m && ValidRun(cfg, s, before) && ValidRun(cfg, s, ls)
    ensures Onward(before, ls, 1) && TwoSwaps(before, a, b)
    ensures InLiveSection(cfg, StateAfter(cfg, s, before), 1) && Top(StateAfter(cfg, s, before).threads[1]).call == a
    ensures StateAfter(cfg, s, before).mem == m[a.op.word := b.op.update]
    ensures Answers(cfg, StateAfter(cfg, s, ls), 1, a, Ok(a.op.expected)) && Answers(cfg, StateAfter(cfg, s, ls), 0, b, Ok(a.op.expected))
    ensures Meaning(b, b.key.id, Meaning(a, a.key.id, m).mem).attempt == Miss(a.op.update)
    ensures Meaning(a, a.key.id, Meaning(b, b.key.id, m).mem).attempt == Miss(b.op.update)
    ensures StateAfter(cfg, s, ls).mem == m[a.op.word := a.op.update]
  {
    var area := Area(0, SeatCpu(b.key, a.key), SeatCid(b.key, a.key), 0);
    var m2 := m[a.op.word := b.op.update];
    var z := TwoKeys(arch, a, b.key, m);
    cfg, s := z.cfg, z.start;
    TwoKeysStart(arch, a, b.key, m);
    OneMisses(a, b, m);
    assert m2[a.op.word := a.op.update] == m[a.op.word := a.op.update];
    hide *;
    var l1, core, seen := BeginToCommit(z, [], m);
    assert CommitsFrom(z, core, m2);
    var n;
    before, n := SwapBetween(z, l1, m, core, seen, b, B.SITE + 1, area);
    var x := z.(others := n.threads);
    SameCommit(z, n.threads, core, m2);
    InsideNow(x, m2, x.site, core, seen);
    OnlySwaps(l1, before, a, b);
    B.ReachedState(x, before, InCall(x, m2, x.site, core, seen));
    var k;
    ls, k := Finish(x, before, m2, core, seen);
    B.ReachedState(x, ls, k);
    StillAnswers(x, n, k, 0, b, Ok(a.op.expected));
  }

  /** One after the other, one of the two finds what it does not expect. */
  lemma OneMisses(a: Call, b: Call, m: Mem)
    requires a.op.CompareExchange? && b.op.CompareExchange? && a.op.word == b.op.word && a.op.expected == b.op.expected
    requires a.op.update != a.op.expected && b.op.update != a.op.expected && Read(m, a.op.word) == a.op.expected
    ensures Meaning(b, b.key.id, Meaning(a, a.key.id, m).mem).attempt == Miss(a.op.update)
    ensures Meaning(a, a.key.id, Meaning(b, b.key.id, m).mem).attempt == Miss(b.op.update)
  {
  }
}
