/** Documented promises of single calls, when they hold exactly, and the runs on which they do not. */
module BadRuns {
  import opened Bits
  import opened Ops
  import opened Isa
  import opened Operands
  import opened Blocks
  import opened Machine
  import opened Sections
  import opened Semantics
  import opened Refinement
  import opened Backends
  import opened Calls
  import opened Attempts
  import opened Interruptions
  import opened Scenes
  import Threads

  const AREA: usize := 4096
  const SITE: usize := 8192

  /** Two other CPUs than a given one. */
  function Other(id: u32): (r: u32)
    ensures r != id
  {
    if id == 0 then 1 else 0
  }

  function Third(id: u32): (r: u32)
    ensures r != id && r != Other(id)
  {
    if id < 2 then 2 else 1
  }

  /** Thread 1 has just begun a call on the CPU, and with the concurrency id, of the call's key; thread 0 rests
      elsewhere. */
  function Opening(arch: Arch, call: Call, m: Mem): Scene {
    var id := call.key.id;
    var z := Scene(Config(arch, map[SITE := Site(OpcodeOf(call.op), call.key.kind)]), State(m, map[]),
                   map[0 := Thread(On(Other(id)), Area(0, Other(id), Other(id), 0), [Idle])], 1, AREA, id, id, call, SITE);
    z.(start := InCall(z, m, 0, Core(0, Threads.OperandsOf(call, AREA), false), map[]))
  }

  /** What the runs below start from. */
  predicate Staged(z: Scene, m: Mem, core: Core) {
    && z.start == InCall(z, m, 0, core, map[]) && core.pc == 0 < Prog(z).start && Sound(z, core)
    && OnSite(z) && OthersRest(z) && HomeOf(z) == z.call.key.id && Alone(z.start, z.t)
    && z.t == 1 && z.cpu == z.cid == z.call.key.id && Bystander(z, 0) && OthersRest(Moved(z))
    && Begun(z.start, 1, 0, z.call)
  }

  /** The same, once the thread has been moved elsewhere. */
  function Moved(z: Scene): Scene {
    z.(cpu := Third(z.cpu), cid := Third(z.cpu))
  }

  function First(call: Call): Core {
    Core(0, Threads.OperandsOf(call, AREA), false)
  }

  lemma Opens(arch: Arch, call: Call, m: Mem)
    ensures Staged(Opening(arch, call, m), m, First(call)) && Reached(Opening(arch, call, m), [], Opening(arch, call, m).start)
    ensures Opening(arch, call, m).call == call && Opening(arch, call, m).cfg.arch == arch
  {
    var z := Opening(arch, call, m);
    OpensSound(arch, call, m);
    hide Block, Sound, Loaded, Threads.OperandsOf;
    assert forall u | u in z.others :: u == 0;
  }

  lemma OpensSound(arch: Arch, call: Call, m: Mem)
    ensures Sound(Opening(arch, call, m), First(call)) && 0 < Prog(Opening(arch, call, m)).start
  {
    EveryBlockWellFormed(arch, OpcodeOf(call.op), call.key.kind);
    BeforeRange(Block(arch, OpcodeOf(call.op), call.key.kind), OpcodeOf(call.op), call.key.kind);
    hide Block, WellFormed, Loaded, Threads.OperandsOf;
  }

  lemma BeforeRange(p: Program, opcode: Opcode, kind: Kind)
    requires WellFormed(p, opcode, kind)
    ensures p.abort == 2 && 4 <= p.start < p.post
  {
  }

  /** Whatever the call, nobody is inside a range. */
  lemma OpensLocal(arch: Arch, call: Call, m: Mem)
    ensures
      var z := Opening(arch, call, m);
      && AllArmed(z.cfg, z.start) && Placed(z.start)
      && forall t | t in z.start.threads :: ThreadArmed(z.cfg, z.start.threads[t]) && !InSection(z.cfg, Top(z.start.threads[t]))
  {
    CallerOk(arch, call, m);
    var z := Opening(arch, call, m);
    hide Block, ThreadArmed, Threads.OperandsOf, InSection;
    RestingOk(z.cfg, z.others[0]);
    assert z.start.threads == z.others[1 := z.start.threads[1]];
  }

  /** It is a disciplined start. */
  lemma OpensInv(arch: Arch, call: Call, m: Mem)
    requires Proper(call)
    ensures Inv(Opening(arch, call, m).cfg, Opening(arch, call, m).start)
  {
    var z := Opening(arch, call, m);
    OpensLocal(arch, call, m);
    Opens(arch, call, m);
    OneContext(z, m, First(call));
    hide Staged, Opening, AllArmed;
    OneProper(z.cfg, z.start, z.call);
  }

  /** One thread about to execute the first instruction of a proper call, all others between calls. */
  lemma OneProper(cfg: Config, s: State, call: Call)
    requires Alone(s, 1) && Begun(s, 1, 0, call) && |s.threads[1].stack| == 1 && Proper(call) && Placed(s)
    requires forall t | t in s.threads :: ThreadArmed(cfg, s.threads[t]) && !InSection(cfg, Top(s.threads[t]))
    ensures Inv(cfg, s)
  {
    hide Block, ThreadArmed, Placed, Proper, InSection;
    assert forall t | t in s.threads :: s.threads[t].stack != [] by { NotEmpty(cfg, s); }
  }

  lemma NotEmpty(cfg: Config, s: State)
    requires forall t | t in s.threads :: ThreadArmed(cfg, s.threads[t])
    ensures forall t | t in s.threads :: s.threads[t].stack != []
  {
    hide ContextOk;
  }

  lemma RestingOk(cfg: Config, th: Thread)
    requires th.stack == [Idle]
    ensures ThreadArmed(cfg, th) && !InSection(cfg, Top(th))
  {
  }

  /** The thread that has just begun its call. */
  lemma CallerOk(arch: Arch, call: Call, m: Mem)
    ensures
      var z := Opening(arch, call, m);
      z.t in z.start.threads && ThreadArmed(z.cfg, z.start.threads[z.t]) && !InSection(z.cfg, Top(z.start.threads[z.t]))
  {
    var z := Opening(arch, call, m);
    var id, regs := call.key.id, Threads.OperandsOf(call, AREA);
    var th := Thread(On(id), Area(AREA, id, id, 0), [Idle]);
    EveryBlockWellFormed(arch, OpcodeOf(call.op), call.key.kind);
    BeforeRange(Block(arch, OpcodeOf(call.op), call.key.kind), OpcodeOf(call.op), call.key.kind);
    RestingOk(z.cfg, th);
    hide Block, ThreadArmed, WellFormed, Loaded, Threads.OperandsOf;
    BeginOk(z.cfg, th, call, SITE, regs, false);
    assert SetTop(th, Active(call, SITE, Core(0, regs, false), map[])).stack == [Active(call, SITE, Core(0, regs, false), map[])];
    assert z.start.threads[z.t] == SetTop(th, Active(call, SITE, Core(0, regs, false), map[]));
  }

  /** How a call is interrupted in its range: its thread is preempted and put back on its CPU, or elsewhere, or
      elsewhere and then on its CPU again; or a signal is delivered to it. */
  datatype Way = Back | Away | Round | Handler

  predicate Allows(f: Freedom, way: Way) {
    match way
    case Back => f.resumes
    case Away => f.moves
    case Round => f.moves
    case Handler => f.signals
  }

  function Whereto(z: Scene, way: Way): Scene {
    if way.Away? then Moved(z) else z
  }

  /** The run so far, with nothing in it that is not permitted. */
  predicate Told(z: Scene, ls: seq<Label>, n: State, f: Freedom) {
    && Reached(z, ls, n) && Polite(ls, z.t) && ValidRun(z.cfg, z.start, ls)
    && Confined(z.cfg, z.start, ls, z.t, z.call.key.kind, f)
  }

  predicate NoStores(ls: seq<Label>) {
    forall k | 0 <= k < |ls| :: !ls[k].Plain?
  }

  /** One more label of the thread itself. */
  lemma ToldSnoc(z: Scene, ls: seq<Label>, n: State, f: Freedom, l: Label, y: Scene, k: State)
    requires Told(z, ls, n, f) && Reached(y, ls + [l], k) && y == z.(cpu := y.cpu, cid := y.cid)
    requires Permits(f, n, l, z.t, z.call.key.kind) && !l.Plain? && Polite([l], z.t)
    ensures Told(y, ls + [l], k, f) && (NoStores(ls) ==> NoStores(ls + [l]))
  {
    assert (ls + [l])[..|ls + [l]| - 1] == ls;
    PoliteAnd(ls, [l], z.t);
    hide Permits, Enabled, Next;
  }

  /** A store by the thread's handler, or by another thread while it is off its CPU. */
  lemma ToldStore(z: Scene, ls: seq<Label>, n: State, f: Freedom, u: Tid, a: usize, v: usize, k: State)
    requires Told(z, ls, n, f) && Reached(z, ls + [Plain(u, a, v)], k)
    requires u == z.t || (ls != [] && ls[|ls| - 1] == Preempt(z.t))
    ensures Told(z, ls + [Plain(u, a, v)], k, f)
  {
    var more := ls + [Plain(u, a, v)];
    assert more[..|more| - 1] == ls;
    forall k | 0 <= k < |more| ensures PoliteAt(more, z.t, k) {
      if k < |ls| { assert PoliteAt(ls, z.t, k); }
    }
    hide Enabled, Next;
  }

  lemma {:induction false} ConfinedOnward(cfg: Config, s: State, ls: seq<Label>, more: seq<Label>, t: Tid, kind: Kind, f: Freedom)
    requires ValidRun(cfg, s, ls) && ValidRun(cfg, s, more) && Onward(ls, more, t) && Confined(cfg, s, ls, t, kind, f)
    ensures Confined(cfg, s, more, t, kind, f)
    decreases |more|
  {
    hide Enabled, Next;
    if |more| > |ls| {
      var front := more[..|more| - 1];
      assert front[..|ls|] == more[..|ls|] && more[|more| - 1] == Step(t);
      ConfinedOnward(cfg, s, ls, front, t, kind, f);
    } else {
      assert more == ls;
    }
  }

  /** Instructions need no permission. */
  lemma ToldOnward(z: Scene, ls: seq<Label>, n: State, f: Freedom, more: seq<Label>, k: State)
    requires Told(z, ls, n, f) && Onward(ls, more, z.t) && Reached(z, more, k)
    ensures Told(z, more, k, f) && (NoStores(ls) ==> NoStores(more)) && ls <= more
  {
    hide ValidRun, StateAfter, Confined;
    OnwardPolite(ls, more, z.t);
    ConfinedOnward(z.cfg, z.start, ls, more, z.t, z.call.key.kind, f);
  }

  /** What a resumption changes. */
  lemma ResumePermits(z: Scene, m: Mem, cs: usize, ctx: Context, f: Freedom, y: Scene)
    requires y == z.(cpu := y.cpu, cid := y.cid) && (if HomeOf(y) == HomeOf(z) then f.resumes else f.moves)
    ensures Permits(f, With(z, m, Off, cs, ctx), Resume(z.t, y.cpu, y.cid), z.t, z.call.key.kind)
    ensures Polite([Resume(z.t, y.cpu, y.cid)], z.t)
  {
  }

  /** Where interruptions can be staged. */
  predicate Roomy(z: Scene) {
    && OnSite(z) && OthersRest(z) && OthersRest(Moved(z)) && Bystander(z, 0) && z.t == 1
    && HomeOf(Moved(z)) != HomeOf(z)
  }

  /** The thread is preempted in its range, another one stores if it is told to, and the thread is back on a CPU,
      at its abort point. */
  lemma Preempted(z: Scene, y: Scene, ls: seq<Label>, m: Mem, core: Core, seen: Mem, store: Option<Cell>, f: Freedom)
    returns (ls2: seq<Label>)
    requires Told(z, ls, InCall(z, m, z.site, core, seen), f) && Roomy(z) && InRange(Prog(z), core.pc) && core.pc > 2 == Prog(z).abort
    requires (y == z && f.resumes) || (y == Moved(z) && f.moves)
    requires store.Some? ==> store.value.addr in m
    ensures ls <= ls2 && (store.None? && NoStores(ls) ==> NoStores(ls2))
    ensures Told(y, ls2, InCall(y, After(m, store), 0, core.(pc := 2), seen), f)
  {
    var ctx := CtxOf(z, core, seen);
    InCallWith(z, m, z.site, core, seen);
    hide Reached, InCall, With, OthersRest, OnSite, Confined, Block, ValidRun, StateAfter, Polite, Bystander;
    var l1 := GoPreempt(z, ls, m, z.site, ctx);
    PreemptPermits(z, m, z.site, ctx, f);
    ToldSnoc(z, ls, With(z, m, On(z.cpu), z.site, ctx), f, Preempt(z.t), z, With(z, m, Off, z.site, ctx));
    var l2 := GoOthersStore(z, l1, m, z.site, ctx, store, f);
    ResumePermits(z, After(m, store), z.site, ctx, f, y);
    var l3 := GoResume(z, l2, After(m, store), core, seen, y.cpu, y.cid);
    ToldSnoc(z, l2, With(z, After(m, store), Off, z.site, ctx), f, Resume(z.t, y.cpu, y.cid), y,
             InCall(y, After(m, store), 0, core.(pc := 2), seen));
    ls2 := l3;
  }

  lemma PreemptPermits(z: Scene, m: Mem, cs: usize, ctx: Context, f: Freedom)
    ensures Permits(f, With(z, m, On(z.cpu), cs, ctx), Preempt(z.t), z.t, z.call.key.kind) && Polite([Preempt(z.t)], z.t)
  {
  }

  lemma GoOthersStore(z: Scene, ls: seq<Label>, m: Mem, cs: usize, ctx: Context, store: Option<Cell>, f: Freedom)
    returns (ls2: seq<Label>)
    requires Told(z, ls, With(z, m, Off, cs, ctx), f) && Bystander(z, 0) && ls != [] && ls[|ls| - 1] == Preempt(z.t)
    requires store.Some? ==> store.value.addr in m
    ensures ls <= ls2 && (store.None? && NoStores(ls) ==> NoStores(ls2))
    ensures Told(z, ls2, With(z, After(m, store), Off, cs, ctx), f)
  {
    hide Reached, With, Confined, Polite, Bystander, ValidRun, StateAfter;
    match store
    case None => ls2 := ls;
    case Some(cell) =>
      ls2 := GoPlain(z, ls, m, Off, cs, ctx, 0, cell.addr, cell.value);
      ToldStore(z, ls, With(z, m, Off, cs, ctx), f, 0, cell.addr, cell.value, With(z, m[cell.addr := cell.value], Off, cs, ctx));
  }

  /** The same with a detour: moved away, and moved back while it has not entered its range again. */
  lemma Rounded(z: Scene, ls: seq<Label>, m: Mem, core: Core, seen: Mem, store: Option<Cell>, f: Freedom) returns (ls2: seq<Label>)
    requires Told(z, ls, InCall(z, m, z.site, core, seen), f) && Roomy(z) && InRange(Prog(z), core.pc) && core.pc > 2 == Prog(z).abort
    requires f.moves && 2 < Prog(z).start && (store.Some? ==> store.value.addr in m)
    ensures ls <= ls2 && (store.None? && NoStores(ls) ==> NoStores(ls2))
    ensures Told(z, ls2, InCall(z, After(m, store), 0, core.(pc := 2), seen), f)
  {
    var y, c := Moved(z), core.(pc := 2);
    MovedBack(z);
    var l1 := Preempted(z, y, ls, m, core, seen, None, f);
    InCallWith(y, m, 0, c, seen);
    ls2 := MovedHome(z, y, l1, m, c, seen, store, f);
  }

  lemma MovedBack(z: Scene)
    requires Roomy(z)
    ensures var y := Moved(z); y == z.(cpu := y.cpu, cid := y.cid) && z == y.(cpu := z.cpu, cid := z.cid) && Prog(y) == Prog(z)
    ensures OnSite(Moved(z)) && Bystander(Moved(z), 0) && OthersRest(z) && HomeOf(z) != HomeOf(Moved(z)) && z.t == 1
  {
  }

  lemma MovedHome(z: Scene, y: Scene, ls: seq<Label>, m: Mem, c: Core, seen: Mem, store: Option<Cell>, f: Freedom) returns (ls2: seq<Label>)
    requires Told(y, ls, InCall(y, m, 0, c, seen), f) && z == y.(cpu := z.cpu, cid := z.cid) && OnSite(y) && Bystander(y, 0)
    requires OthersRest(z) && HomeOf(z) != HomeOf(y) && z.t == 1 && f.moves && c.pc < Prog(y).start
    requires store.Some? ==> store.value.addr in m
    ensures ls <= ls2 && (store.None? && NoStores(ls) ==> NoStores(ls2))
    ensures Told(z, ls2, InCall(z, After(m, store), 0, c, seen), f)
  {
    var ctx := CtxOf(y, c, seen);
    InCallWith(y, m, 0, c, seen);
    hide Reached, InCall, With, OthersRest, OnSite, Confined, Block, ValidRun, StateAfter, Polite, Bystander;
    var l1 := GoPreempt(y, ls, m, 0, ctx);
    PreemptPermits(y, m, 0, ctx, f);
    ToldSnoc(y, ls, With(y, m, On(y.cpu), 0, ctx), f, Preempt(y.t), y, With(y, m, Off, 0, ctx));
    var l2 := GoOthersStore(y, l1, m, 0, ctx, store, f);
    ResumePermits(y, After(m, store), 0, ctx, f, z);
    ls2 := GoResumeOn(y, l2, After(m, store), 0, c, seen, z.cpu, z.cid);
    ToldSnoc(y, l2, With(y, After(m, store), Off, 0, ctx), f, Resume(y.t, z.cpu, z.cid), z, InCall(z, After(m, store), 0, c, seen));
  }

  /** A signal in the range, whose handler stores if it is told to. */
  lemma Signalled(z: Scene, ls: seq<Label>, m: Mem, core: Core, seen: Mem, store: Option<Cell>, f: Freedom) returns (ls2: seq<Label>)
    requires Told(z, ls, InCall(z, m, z.site, core, seen), f) && Roomy(z) && InRange(Prog(z), core.pc) && core.pc > 2 == Prog(z).abort
    requires f.signals && (store.Some? ==> store.value.addr in m)
    ensures ls <= ls2 && (store.None? && NoStores(ls) ==> NoStores(ls2))
    ensures Told(z, ls2, InCall(z, After(m, store), 0, core.(pc := 2), seen), f)
  {
    var c := core.(pc := 2);
    SignalPermits(z, f);
    hide Reached, InCall, OthersRest, OnSite, Confined, Block, ValidRun, StateAfter, Polite, Bystander, Handling, Permits;
    var l1 := GoSignal(z, ls, m, core, seen);
    ToldSnoc(z, ls, InCall(z, m, z.site, core, seen), f, Signal(z.t), z, Handling(z, m, c, seen));
    var l2 := l1;
    if store.Some? {
      l2 := GoHandlerStore(z, l1, m, c, seen, store.value.addr, store.value.value);
      ToldStore(z, l1, Handling(z, m, c, seen), f, z.t, store.value.addr, store.value.value, Handling(z, After(m, store), c, seen));
    }
    ls2 := GoSigReturn(z, l2, After(m, store), c, seen);
    ToldSnoc(z, l2, Handling(z, After(m, store), c, seen), f, SigReturn(z.t, false), z, InCall(z, After(m, store), 0, c, seen));
  }

  lemma SignalPermits(z: Scene, f: Freedom)
    requires f.signals
    ensures forall n :: Permits(f, n, Signal(z.t), z.t, z.call.key.kind) && Permits(f, n, SigReturn(z.t, false), z.t, z.call.key.kind)
    ensures Polite([Signal(z.t)], z.t) && Polite([SigReturn(z.t, false)], z.t)
  {
  }

  /** Any of these, and where the call is then. */
  lemma Interrupted(z: Scene, way: Way, ls: seq<Label>, m: Mem, core: Core, seen: Mem, store: Option<Cell>, f: Freedom)
    returns (ls2: seq<Label>)
    requires Told(z, ls, InCall(z, m, z.site, core, seen), f) && Roomy(z) && Sound(z, core) && InRange(Prog(z), core.pc)
    requires Allows(f, way) && (store.Some? ==> store.value.addr in m)
    ensures
      var y := Whereto(z, way);
      && ls <= ls2 && (store.None? && NoStores(ls) ==> NoStores(ls2))
      && Told(y, ls2, InCall(y, After(m, store), 0, core.(pc := 2), seen), f)
      && Sound(y, core.(pc := 2)) && 2 < Prog(y).start
  {
    EveryBlockWellFormed(z.cfg.arch, OpcodeOf(z.call.op), z.call.key.kind);
    BeforeRange(Prog(z), OpcodeOf(z.call.op), z.call.key.kind);
    MovedBack(z);
    BackAgain(z, Whereto(z, way), core);
    hide Told, InCall, Block, WellFormed, Roomy, Sound, NoStores;
    match way
    case Back => ls2 := Preempted(z, z, ls, m, core, seen, store, f);
    case Away => ls2 := Preempted(z, Moved(z), ls, m, core, seen, store, f);
    case Round => ls2 := Rounded(z, ls, m, core, seen, store, f);
    case Handler => ls2 := Signalled(z, ls, m, core, seen, store, f);
  }

  lemma InCallWith(z: Scene, m: Mem, cs: usize, core: Core, seen: Mem)
    ensures InCall(z, m, cs, core, seen) == With(z, m, On(z.cpu), cs, CtxOf(z, core, seen))
  {
  }

  lemma BackAgain(z: Scene, y: Scene, core: Core)
    requires Sound(z, core) && InRange(Prog(z), core.pc) && y == z.(cpu := y.cpu, cid := y.cid)
    ensures Sound(y, core.(pc := 2)) && Prog(y) == Prog(z)
  {
    EveryBlockWellFormed(z.cfg.arch, OpcodeOf(z.call.op), z.call.key.kind);
    BeforeRange(Prog(z), OpcodeOf(z.call.op), z.call.key.kind);
    hide Block, WellFormed, Loaded;
  }

  /** One call, and nothing above it but handlers between calls. */
  predicate OneCall(s: State, t: Tid, call: Call) {
    Underway(s, t, 0, call) && forall j | 0 < j < |s.threads[t].stack| :: s.threads[t].stack[j].Idle?
  }

  /** In a polite run a call stays underway, and every instruction is its own. */
  lemma {:induction false} PoliteCall(cfg: Config, s: State, ls: seq<Label>, t: Tid, call: Call)
    requires OneCall(s, t, call) && ValidRun(cfg, s, ls) && Polite(ls, t)
    ensures Throughout(cfg, s, ls, t, 0, call) && OneCall(StateAfter(cfg, s, ls), t, call)
    ensures NoStores(ls) ==> forall a: usize :: Guarded(cfg, s, ls, t, 0, a)
    decreases |ls|
  {
    hide Enabled, Next, OtherStore, Underway, OneCall;
    if ls == [] {
      OneIsUnderway(s, t, call);
    } else {
      var k, front := |ls| - 1, ls[..|ls| - 1];
      forall j | 0 <= j < k ensures PoliteAt(front, t, j) { assert PoliteAt(ls, t, j); }
      PoliteCall(cfg, s, front, t, call);
      assert PoliteAt(ls, t, k);
      PoliteCallStep(cfg, StateAfter(cfg, s, front), ls[k], t, call);
      OneIsUnderway(StateAfter(cfg, s, ls), t, call);
      if NoStores(ls) {
        assert forall j | 0 <= j < |front| :: front[j] == ls[j];
      }
    }
  }

  lemma OneIsUnderway(s: State, t: Tid, call: Call)
    requires OneCall(s, t, call)
    ensures Underway(s, t, 0, call)
  {
  }

  lemma PoliteCallStep(cfg: Config, s: State, l: Label, t: Tid, call: Call)
    requires Enabled(cfg, s, l) && OneCall(s, t, call)
    requires match l
             case Step(u) => u == t
             case Preempt(u) => u == t
             case Resume(u, _, _) => u == t
             case Signal(u) => u == t
             case SigReturn(u, _) => u == t
             case Plain(_, _, _) => true
             case _ => false
    ensures OneCall(Next(cfg, s, l), t, call)
    ensures !l.Plain? ==> forall a: usize :: !OtherStore(cfg, s, l, t, 0, a)
  {
    KickCalls(cfg, s.threads[t]);
    hide Exec, Block, Touches, Kick;
  }

  /** The fix-up changes nothing but an instruction pointer. */
  lemma KickCalls(cfg: Config, th: Thread)
    requires th.stack != []
    ensures |Kick(cfg, th).stack| == |th.stack|
    ensures forall j | 0 <= j < |th.stack| ::
              var ctx, next := th.stack[j], Kick(cfg, th).stack[j];
              (next.Idle? <==> ctx.Idle?) && (ctx.Active? ==> next.call == ctx.call)
  {
    hide Block;
  }

  /** A disciplined run, from the beginning of a call, in which no more than that happens. */
  ghost predicate Episode(cfg: Config, s: State, ls: seq<Label>, t: Tid, i: nat, call: Call, f: Freedom) {
    && Inv(cfg, s) && Begun(s, t, i, call) && ValidRun(cfg, s, ls) && DisciplinedRun(cfg, s, ls)
    && Throughout(cfg, s, ls, t, i, call)
    && Confined(cfg, s, ls, t, call.key.kind, f) && (!f.stores ==> Guarded(cfg, s, ls, t, i, call.op.word))
  }

  predicate HasAnswered(cfg: Config, n: State, t: Tid, i: nat, call: Call, a: Attempt) {
    Underway(n, t, i, call) && Answered(cfg, ContextAt(n, t, i, call)) && Settled(cfg, ContextAt(n, t, i, call)) == a
  }

  /** A run of the stage is an episode. */
  lemma StagedEpisode(z: Scene, m: Mem, core: Core, ls: seq<Label>, n: State, a: Attempt, f: Freedom)
    requires Staged(z, m, core) && Inv(z.cfg, z.start) && Told(z, ls, n, f) && (f.stores || NoStores(ls))
    requires Answers(z.cfg, n, z.t, z.call, a) && |n.threads[z.t].stack| == 1
    ensures Episode(z.cfg, z.start, ls, 1, 0, z.call, f) && HasAnswered(z.cfg, n, 1, 0, z.call, a)
  {
    OneContext(z, m, core);
    hide Inv, Alone, Staged, Polite, Settled, Block, Confined, OneCall;
    assert Alone(z.start, z.t) && z.t == 1 && Begun(z.start, 1, 0, z.call);
    PoliteRun(z.cfg, z.start, ls, z.t);
    PoliteCall(z.cfg, z.start, ls, 1, z.call);
    hide Throughout, Guarded;
    AnswersPast(z, n, a);
  }

  lemma OneContext(z: Scene, m: Mem, core: Core)
    requires Staged(z, m, core)
    ensures z.t == 1 && Alone(z.start, 1) && Begun(z.start, 1, 0, z.call) && |z.start.threads[1].stack| == 1
    ensures OneCall(z.start, 1, z.call)
  {
    hide OthersRest, Sound;
  }

  lemma EndIsPast(cfg: Config, call: Call)
    ensures BlockOf(cfg.arch, call).post <= |BlockOf(cfg.arch, call).code|
  {
    EveryBlockWellFormed(cfg.arch, OpcodeOf(call.op), call.key.kind);
    Ranged(BlockOf(cfg.arch, call), OpcodeOf(call.op), call.key.kind);
    hide Block, WellFormed;
  }

  lemma OnwardPolite(ls: seq<Label>, more: seq<Label>, t: Tid)
    requires Onward(ls, more, t) && Polite(ls, t)
    ensures Polite(more, t) && ((forall k | 0 <= k < |ls| :: !ls[k].Plain?) ==> forall k | 0 <= k < |more| :: !more[k].Plain?)
  {
    forall k | 0 <= k < |more| ensures PoliteAt(more, t, k) {
      if k < |ls| {
        assert more[k] == more[..|ls|][k];
        assert PoliteAt(ls, t, k);
        if k > 0 { assert more[k - 1] == more[..|ls|][k - 1]; }
      }
    }
    forall k | 0 <= k < |more| && forall j | 0 <= j < |ls| :: !ls[j].Plain? ensures !more[k].Plain? {
      if k < |ls| { assert more[k] == more[..|ls|][k]; }
    }
  }

  /** One more instruction of a call on the way to Ok, on record. */
  lemma GoRecorded(z: Scene, ls: seq<Label>, m: Mem, core: Core, seen: Mem, k: set<usize>, e: Result) returns (ls2: seq<Label>)
    requires Reached(z, ls, InCall(z, m, z.site, core, seen)) && OnTrack(z, core, m, k) && k <= m.Keys
    requires core.pc < Prog(z).post - 1 && e == Exec(Prog(z).code[core.pc], Around(z), core, m)
    requires e.core.pc == core.pc + 1
    ensures Onward(ls, ls2, z.t) && |ls| <= |ls2|
    ensures Reached(z, ls2, InCall(z, After(m, e.store), z.site, e.core, Note(seen, e, m))) && Sound(z, e.core)
    ensures InRange(Prog(z), e.core.pc)
    ensures e.store.Some? ==> e.store.value in Stored(z.cfg, z.start, ls2, z.t, 0)
    ensures e.load.Some? ==> e.load.value in Fetched(z.cfg, z.start, ls2, z.t, 0)
  {
    RangeBounds(z, core);
    KeepsSound(z, core, m, e);
    hide Exec, Block, InCall, Onward, Meaning, Sound;
    ls2 := Go(z, ls, m, z.site, core, seen, e);
    OnRecord(z, ls, m, core, seen, e);
  }

  lemma OnRecord(z: Scene, ls: seq<Label>, m: Mem, core: Core, seen: Mem, e: Result)
    requires Reached(z, ls, InCall(z, m, z.site, core, seen)) && core.pc < |Prog(z).code|
    requires e == Exec(Prog(z).code[core.pc], Around(z), core, m) && ValidRun(z.cfg, z.start, ls + [Step(z.t)])
    ensures e.store.Some? ==> e.store.value in Stored(z.cfg, z.start, ls + [Step(z.t)], z.t, 0)
    ensures e.load.Some? ==> e.load.value in Fetched(z.cfg, z.start, ls + [Step(z.t)], z.t, 0)
  {
    var ls2 := ls + [Step(z.t)];
    assert ls2[..|ls2| - 1] == ls;
    hide Exec, Block, Next;
    var n := StateAfter(z.cfg, z.start, ls);
    assert ExecTop(z.cfg, n.threads[z.t], n.mem) == e && Own(n, Step(z.t), z.t, 0);
  }

  lemma StillStored(z: Scene, l1: seq<Label>, ls: seq<Label>, cell: Cell)
    requires ValidRun(z.cfg, z.start, ls) && l1 <= ls && ValidRun(z.cfg, z.start, l1) && cell in Stored(z.cfg, z.start, l1, z.t, 0)
    ensures cell in Stored(z.cfg, z.start, ls, z.t, 0)
  {
    assert ls[..|l1|] == l1;
    RecordsGrow(z.cfg, z.start, ls, |l1|, z.t, 0);
  }

  lemma StillFetched(z: Scene, l1: seq<Label>, ls: seq<Label>, a: usize)
    requires ValidRun(z.cfg, z.start, ls) && l1 <= ls && ValidRun(z.cfg, z.start, l1) && a in Fetched(z.cfg, z.start, l1, z.t, 0)
    ensures a in Fetched(z.cfg, z.start, ls, z.t, 0)
  {
    assert ls[..|l1|] == l1;
    RecordsGrow(z.cfg, z.start, ls, |l1|, z.t, 0);
  }

  /** From an interruption in the range to the answer of the next pass. */
  lemma NextAnswer(z: Scene, way: Way, m0: Mem, core0: Core, l1: seq<Label>, m: Mem, core: Core, seen: Mem, store: Option<Cell>, f: Freedom)
    returns (ls: seq<Label>, n: State)
    requires Staged(z, m0, core0) && Onward([], l1, z.t) && Allows(f, way)
    requires Reached(z, l1, InCall(z, m, z.site, core, seen)) && Sound(z, core) && InRange(Prog(z), core.pc)
    requires store.Some? ==> store.value.addr in m
    requires Meaning(z.call, HomeOf(Whereto(z, way)), After(m, store)).access <= After(m, store).Keys
    ensures Told(z, ls, n, f) && (store.None? ==> NoStores(ls)) && l1 <= ls && z.t in n.threads && |n.threads[z.t].stack| == 1
    ensures Answers(z.cfg, n, z.t, z.call, Meaning(z.call, HomeOf(Whereto(z, way)), After(m, store)).attempt)
    ensures n.mem == Meaning(z.call, HomeOf(Whereto(z, way)), After(m, store)).mem
  {
    var y, m2 := Whereto(z, way), After(m, store);
    StagedFor(z, m0, core0);
    SameStage(z, way);
    ToldStart(z, f);
    hide *;
    ToldOnward(z, [], z.start, f, l1, InCall(z, m, z.site, core, seen));
    var l2 := Interrupted(z, way, l1, m, core, seen, store, f);
    ToldReached(y, l2, InCall(y, m2, 0, core.(pc := 2), seen), f);
    var l3, k := GoPass(y, l2, m2, 0, core.(pc := 2), seen);
    ToldOnward(y, l2, InCall(y, m2, 0, core.(pc := 2), seen), f, l3, k);
    OneLeft(y, k, y.site);
    ToldSame(y, z, l3, k, f);
    ls, n := l3, k;
  }

  lemma OneLeft(z: Scene, n: State, cs: usize)
    requires Finished(z, n, cs)
    ensures z.t in n.threads && |n.threads[z.t].stack| == 1
  {
  }

  lemma ToldReached(z: Scene, ls: seq<Label>, n: State, f: Freedom)
    requires Told(z, ls, n, f)
    ensures Reached(z, ls, n)
  {
  }

  lemma ToldStart(z: Scene, f: Freedom)
    requires z.t == 1
    ensures Told(z, [], z.start, f) && NoStores([])
  {
  }

  lemma ToldSame(y: Scene, z: Scene, ls: seq<Label>, n: State, f: Freedom)
    requires Told(y, ls, n, f) && y == z.(cpu := y.cpu, cid := y.cid)
    ensures Told(z, ls, n, f)
  {
    SameRun(y, z, ls, n);
  }

  lemma NextPass(z: Scene, way: Way, m0: Mem, core0: Core, l1: seq<Label>, m: Mem, core: Core, seen: Mem, store: Option<Cell>, f: Freedom)
    returns (ls: seq<Label>)
    requires Staged(z, m0, core0) && Inv(z.cfg, z.start) && Onward([], l1, z.t) && Allows(f, way)
    requires Reached(z, l1, InCall(z, m, z.site, core, seen)) && Sound(z, core) && InRange(Prog(z), core.pc)
    requires store.Some? ==> store.value.addr in m && f.stores
    requires Meaning(z.call, HomeOf(Whereto(z, way)), After(m, store)).access <= After(m, store).Keys
    ensures l1 <= ls && Episode(z.cfg, z.start, ls, 1, 0, z.call, f)
    ensures HasAnswered(z.cfg, StateAfter(z.cfg, z.start, ls), 1, 0, z.call, Meaning(z.call, HomeOf(Whereto(z, way)), After(m, store)).attempt)
  {
    hide *;
    var n;
    ls, n := NextAnswer(z, way, m0, core0, l1, m, core, seen, store, f);
    ToldReached(z, ls, n, f);
    ReachedState(z, ls, n);
    StagedEpisode(z, m0, core0, ls, n, Meaning(z.call, HomeOf(Whereto(z, way)), After(m, store)).attempt, f);
  }

  lemma SameStage(z: Scene, way: Way)
    ensures var y := Whereto(z, way); y == z.(cpu := y.cpu, cid := y.cid) && y.cfg == z.cfg && y.start == z.start && y.t == z.t && y.call == z.call
  {
  }

  lemma StagedFor(z: Scene, m: Mem, core: Core)
    requires Staged(z, m, core)
    ensures Roomy(z) && z.t == 1
  {
    hide Sound, Alone, Begun;
  }

  lemma ReachedState(z: Scene, ls: seq<Label>, n: State)
    requires Reached(z, ls, n)
    ensures ValidRun(z.cfg, z.start, ls) && StateAfter(z.cfg, z.start, ls) == n
  {
  }

  /** The shape of a `store_if` around its scratch store. */
  lemma ScratchAhead(arch: Arch, kind: Kind)
    ensures
      var p := Block(arch, OpStoreIf, kind);
      && p.start + 7 == p.post - 1 && p.post < |p.code| && p.code[p.start + 6] == Store(SideUpdate, SidePtr)
      && forall j | p.start <= j < p.start + 6 :: j < |p.code| && !p.code[j].Store?
  {
    StoreIfBlock(arch, kind);
    var p := Block(arch, OpStoreIf, kind);
    hide Block, Exits, MissAt;
  }

  /** A `store_if` that would succeed, just past its scratch store. */
  lemma GoScratch(z: Scene, m: Mem, core: Core) returns (ls: seq<Label>, core2: Core, seen2: Mem)
    requires Staged(z, m, core) && Reached(z, [], z.start) && z.call.op.StoreIf?
    requires z.call.op.word in m && z.call.op.side in m && m[z.call.op.word] == z.call.op.expected
    ensures
      var op := z.call.op;
      && Onward([], ls, z.t) && Reached(z, ls, InCall(z, m[op.side := op.sideUpdate], z.site, core2, seen2))
      && Sound(z, core2) && InRange(Prog(z), core2.pc)
      && Cell(op.side, op.sideUpdate) in Stored(z.cfg, z.start, ls, z.t, 0)
  {
    var p, op := Prog(z), z.call.op;
    ScratchAhead(z.cfg.arch, z.call.key.kind);
    StartsHere(z, m, core);
    WouldSucceed(z, m);
    hide Exec, Block, Reached, InCall, Staged, Sound, Meaning, Onward, Stored;
    var l1, c1, s1 := GoTo(z, [], m, 0, core, map[], p.start + 6);
    var e := Exec(p.code[c1.pc], Around(z), c1, m);
    ScratchExec(z, c1, m, e);
    ls := GoRecorded(z, l1, m, c1, s1, Meaning(z.call, HomeOf(z), m).access, e);
    OnwardTo([], l1, ls, z.t);
    core2, seen2 := e.core, Note(s1, e, m);
  }

  lemma StartsHere(z: Scene, m: Mem, core: Core)
    requires Staged(z, m, core) && Reached(z, [], z.start)
    ensures Reached(z, [], InCall(z, m, 0, core, map[])) && Sound(z, core) && core.pc == 0 < Prog(z).start
    ensures HomeOf(z) == z.call.key.id
  {
    hide Sound, OthersRest, Alone, Begun;
  }

  lemma WouldSucceed(z: Scene, m: Mem)
    requires z.call.op.StoreIf? && HomeOf(z) == z.call.key.id
    requires z.call.op.word in m && z.call.op.side in m && m[z.call.op.word] == z.call.op.expected
    ensures Meaning(z.call, HomeOf(z), m).attempt.Ok? && Meaning(z.call, HomeOf(z), m).access <= m.Keys
  {
  }

  lemma ScratchExec(z: Scene, core: Core, m: Mem, e: Result)
    requires z.call.op.StoreIf? && Sound(z, core) && core.pc == Prog(z).start + 6 < |Prog(z).code| && core.pc < Prog(z).post
    requires Prog(z).code[core.pc] == Store(SideUpdate, SidePtr) && e == Exec(Prog(z).code[core.pc], Around(z), core, m)
    ensures e.store == Some(Cell(z.call.op.side, z.call.op.sideUpdate)) && e.core.pc == core.pc + 1
  {
    SoundLoaded(z, core);
    hide Block, Sound, Low32;
  }

  /** A `store_if` that answers Abort, if it is moved away, or else Miss, although an earlier pass of it has stored to
      `side`. */
  lemma SideWritten(arch: Arch, call: Call, found: usize, way: Way, f: Freedom)
    returns (cfg: Config, s: State, ls: seq<Label>)
    requires call.op.StoreIf? && call.op.side != call.op.word && Allows(f, way)
    requires !way.Away? ==> f.stores && found != call.op.expected
    ensures Episode(cfg, s, ls, 1, 0, call, f) && Stored(cfg, s, ls, 1, 0) != []
    ensures HasAnswered(cfg, StateAfter(cfg, s, ls), 1, 0, call, if way.Away? then Abort else Miss(found))
  {
    var op, m := call.op, map[call.op.word := call.op.expected, call.op.side := 0];
    var z := Opening(arch, call, m);
    var store := if way.Away? then None else Some(Cell(op.word, found));
    cfg, s := z.cfg, z.start;
    Opens(arch, call, m);
    OpensInv(arch, call, m);
    FailsNext(z, way, m[op.side := op.sideUpdate], found);
    OneContext(z, m, First(call));
    hide Exec, Block, Reached, InCall, Staged, Sound, Meaning, Onward, Stored, Opening, Moved, Inv, Episode, HasAnswered, OneCall, Begun;
    var l1, core, seen := GoScratch(z, m, First(call));
    ls := NextPass(z, way, m, First(call), l1, m[op.side := op.sideUpdate], core, seen, store, f);
    RunsThere(z, l1, m[op.side := op.sideUpdate], core, seen, ls, f);
    StillStored(z, l1, ls, Cell(op.side, op.sideUpdate));
  }

  lemma RunsThere(z: Scene, l1: seq<Label>, m: Mem, core: Core, seen: Mem, ls: seq<Label>, f: Freedom)
    requires Reached(z, l1, InCall(z, m, z.site, core, seen)) && Episode(z.cfg, z.start, ls, 1, 0, z.call, f)
    ensures ValidRun(z.cfg, z.start, l1) && ValidRun(z.cfg, z.start, ls)
  {
  }

  /** What the next pass will find: its thread elsewhere, or its word changed. */
  lemma FailsNext(z: Scene, way: Way, m: Mem, found: usize)
    requires HomeOf(z) == z.call.key.id && z.cpu == z.cid == z.call.key.id && z.call.op.word in m
    requires !way.Away? ==> (z.call.op.StoreIf? && found != z.call.op.expected) || (z.call.op.LoadIfNe? && found == z.call.op.avoided)
    ensures
      var y, n := Whereto(z, way), After(m, if way.Away? then None else Some(Cell(z.call.op.word, found)));
      var e := Meaning(z.call, HomeOf(y), n);
      e.attempt == (if way.Away? then Abort else Miss(found)) && e.access <= n.Keys
  {
  }

  /** An episode that has come to an answer. */
  ghost predicate Ends(cfg: Config, s: State, ls: seq<Label>, t: Tid, i: nat, call: Call, f: Freedom, a: Attempt) {
    Episode(cfg, s, ls, t, i, call, f) && HasAnswered(cfg, StateAfter(cfg, s, ls), t, i, call, a)
  }

  /** The call has stored nothing. */
  predicate Spotless(cfg: Config, s: State, ls: seq<Label>, t: Tid, i: nat) {
    ValidRun(cfg, s, ls) && Stored(cfg, s, ls, t, i) == []
  }

  /** The call has loaded nothing but its word. */
  predicate Unchased(cfg: Config, s: State, ls: seq<Label>, t: Tid, i: nat, op: Op) {
    ValidRun(cfg, s, ls) && OnlyWord(op, Fetched(cfg, s, ls, t, i))
  }

  /** "`side` is untouched", when a `store_if` answers Miss, and when it answers Abort. */
  ghost predicate SideAloneOnMiss(call: Call, f: Freedom) {
    forall cfg, s, ls, t, i, v |
      Ends(cfg, s, ls, t, i, call, f, Miss(v)) ::
      Spotless(cfg, s, ls, t, i)
  }

  ghost predicate SideAloneOnAbort(call: Call, f: Freedom) {
    forall cfg, s, ls, t, i |
      Ends(cfg, s, ls, t, i, call, f, Abort) ::
      Spotless(cfg, s, ls, t, i)
  }

  /** What is permitted can spoil the word under a call that has got on: others store, and the thread is not there. */
  predicate CanSpoil(f: Freedom) {
    f.stores && (f.moves || f.resumes || f.signals)
  }

  /** How it is done. */
  function Spoiling(f: Freedom): (way: Way)
    requires CanSpoil(f)
    ensures Allows(f, way) && !way.Away?
  {
    if f.resumes then Back else if f.signals then Handler else Round
  }

  lemma EpisodeStores(cfg: Config, s: State, ls: seq<Label>, t: Tid, i: nat, call: Call, f: Freedom, a: Attempt)
    requires call.op.StoreIf? && call.op.side != call.op.word
    requires Ends(cfg, s, ls, t, i, call, f, a) && !a.Ok?
    requires if a.Abort? then !f.moves else !CanSpoil(f)
    ensures Spotless(cfg, s, ls, t, i)
  {
    assert t in s.threads;
    if !f.stores && a.Miss? {
      WholeStoreIf(cfg, s, ls, t, i, call);
      hide Inv, DisciplinedRun, Throughout, Settled, Block, ValidRun, StateAfter, Stored, Guarded, Calm;
    } else {
      hide Inv, DisciplinedRun, Throughout, Settled, Block, ValidRun, StateAfter, Stored, Fetched, Guarded, Confined, KeepsIndex, Stays, Begun;
      ConfinedKeeps(cfg, s, ls, t, call.key.kind, f);
      if a.Abort? {
        AbortUnmoved(cfg, s, ls, t, i, call);
      } else {
        ConfinedStays(cfg, s, ls, t, call.key.kind, f);
        MissSteady(cfg, s, ls, t, i, call);
      }
    }
  }

  /** A Miss leaves `side` alone in every run if and only if others do not store to the word during the call, or the
      thread is neither put back on a CPU nor sent a signal during it. */
  lemma SideOnMiss(call: Call, f: Freedom)
    requires call.op.StoreIf? && call.op.side != call.op.word
    ensures SideAloneOnMiss(call, f) <==> !CanSpoil(f)
  {
    hide Episode, HasAnswered, Stored, StateAfter;
    if CanSpoil(f) {
      var cfg, s, ls := SideWritten(Arm, call, WrapAdd(call.op.expected, 1), Spoiling(f), f);
      assert Ends(cfg, s, ls, 1, 0, call, f, Miss(WrapAdd(call.op.expected, 1))) && !Spotless(cfg, s, ls, 1, 0);
    } else {
      forall cfg, s, ls, t, i, v |
        Ends(cfg, s, ls, t, i, call, f, Miss(v))
        ensures Spotless(cfg, s, ls, t, i)
      {
        EpisodeStores(cfg, s, ls, t, i, call, f, Miss(v));
      }
    }
  }

  /** And an Abort does if and only if the thread is not moved during the call: put back on its CPU, signalled or
      fenced it may be. */
  lemma SideOnAbort(call: Call, f: Freedom)
    requires call.op.StoreIf? && call.op.side != call.op.word
    ensures SideAloneOnAbort(call, f) <==> !f.moves
  {
    hide Episode, HasAnswered, Stored, StateAfter;
    if f.moves {
      var cfg, s, ls := SideWritten(Arm, call, 0, Away, f);
      assert Ends(cfg, s, ls, 1, 0, call, f, Abort) && !Spotless(cfg, s, ls, 1, 0);
    } else {
      forall cfg, s, ls, t, i |
        Ends(cfg, s, ls, t, i, call, f, Abort)
        ensures Spotless(cfg, s, ls, t, i)
      {
        EpisodeStores(cfg, s, ls, t, i, call, f, Abort);
      }
    }
  }

  /** The shape of a `load_if_ne` around its chase. */
  lemma ChaseAhead(arch: Arch, kind: Kind)
    ensures
      var p := Block(arch, OpLoadIfNe, kind);
      && p.start + 8 <= p.post - 1 && p.post < |p.code|
      && p.code[p.post - 2] == Load(Chase, Chase) && p.code[p.post - 1] == Store(Chase, WordPtr)
      && forall j | p.start <= j < p.post - 2 :: j < |p.code| && !p.code[j].Store?
  {
    LoadIfNeBlock(arch, kind);
    var p := Block(arch, OpLoadIfNe, kind);
    hide Block, Exits, MissAt;
  }

  /** The chase goes where the call means it to go. */
  lemma ChaseExec(z: Scene, core: Core, m: Mem, k: set<usize>, e: Result)
    requires z.call.op.LoadIfNe? && OnTrack(z, core, m, k) && core.pc == Prog(z).post - 2
    requires |Prog(z).code| > Prog(z).post && Prog(z).code[core.pc] == Load(Chase, Chase)
    requires Prog(z).code[core.pc + 1] == Store(Chase, WordPtr) && e == Exec(Prog(z).code[core.pc], Around(z), core, m)
    ensures e.core.pc == core.pc + 1 && e.store == None && e.load.Some?
    ensures Read(m, e.load.value) == Read(m, WrapAdd(Read(m, z.call.op.word), z.call.op.offset)) && e.load.value in k
  {
    var p, env := Prog(z), Around(z);
    var f := Exec(p.code[core.pc + 1], env, e.core, m);
    ChaseParts(z, core, m, k);
    assert p == Block(z.cfg.arch, OpcodeOf(z.call.op), z.call.key.kind) by { hide Block; }
    hide *;
    EveryBlockWellFormed(z.cfg.arch, OpcodeOf(z.call.op), z.call.key.kind);
    KeepsSound(z, core, m, e);
    ChaseTwo(p, env, core, m, e, f);
    SoundWord(z, e.core);
    TwoSteps(p, env, core, m, e, f, k);
    TailSettled(p, OpcodeOf(z.call.op), z.call.key.kind, env, f.core, After(m, f.store));
    AfterCell(m, f.store);
    SameStore(m, z.call.op.word, Read(m, e.load.value), Read(m, WrapAdd(Read(m, z.call.op.word), z.call.op.offset)));
  }

  lemma AfterCell(m: Mem, store: Option<Cell>)
    requires store.Some?
    ensures After(m, store) == m[store.value.addr := store.value.value]
  {
  }

  /** Two instructions straight ahead, the first of which stores nothing. */
  lemma TwoSteps(p: Program, env: Env, core: Core, m: Mem, e: Result, f: Result, k: set<usize>)
    requires core.pc + 1 < |p.code| && e == Exec(p.code[core.pc], env, core, m) && e.core.pc == core.pc + 1 && e.store == None
    requires f == Exec(p.code[core.pc + 1], env, e.core, m) && f.core.pc == core.pc + 2 && Within(p, env, core, m, k)
    ensures Remaining(p, env, core, m) == Remaining(p, env, f.core, After(m, f.store))
    ensures e.load.Some? ==> e.load.value in k
  {
    hide Exec;
    assert Remaining(p, env, core, m) == Remaining(p, env, e.core, m) == Remaining(p, env, f.core, After(m, f.store));
  }

  /** What being on the way to Ok says of a `load_if_ne`. */
  lemma ChaseParts(z: Scene, core: Core, m: Mem, k: set<usize>)
    requires z.call.op.LoadIfNe? && OnTrack(z, core, m, k)
    ensures Sound(z, core) && Within(Prog(z), Around(z), core, m, k)
    ensures Remaining(Prog(z), Around(z), core, m).mem
         == m[z.call.op.word := Read(m, WrapAdd(Read(m, z.call.op.word), z.call.op.offset))]
  {
    hide Block, Sound, Remaining, Within, WrapAdd;
  }

  lemma ChaseTwo(p: Program, env: Env, core: Core, m: Mem, e: Result, f: Result)
    requires core.pc + 1 < |p.code| && p.code[core.pc] == Load(Chase, Chase) && p.code[core.pc + 1] == Store(Chase, WordPtr)
    requires e == Exec(p.code[core.pc], env, core, m) && f == Exec(p.code[core.pc + 1], env, e.core, m)
    ensures e.core.pc == core.pc + 1 && e.store == None && e.load.Some?
    ensures f.core.pc == core.pc + 2 && f.store == Some(Cell(Get(e.core.regs, WordPtr), Read(m, e.load.value)))
  {
  }

  lemma SoundWord(z: Scene, core: Core)
    requires Sound(z, core) && core.pc < Prog(z).post
    ensures Get(core.regs, WordPtr) == z.call.op.word
  {
    SoundLoaded(z, core);
    hide Block, Low32, Sound;
  }

  lemma SameStore(m: Mem, a: usize, v: usize, w: usize)
    ensures m[a := v] == m[a := w] ==> v == w
  {
    assert m[a := v][a] == v && m[a := w][a] == w;
  }

  /** A pointer that may be chased, to another word than its own. */
  lemma Pointer(op: Op) returns (v: usize)
    requires op.LoadIfNe?
    ensures v != op.avoided && WrapAdd(v, op.offset) != op.word
  {
    v := if op.avoided != 0 && WrapAdd(0, op.offset) != op.word then 0
         else if op.avoided != 1 && WrapAdd(1, op.offset) != op.word then 1 else 2;
  }

  /** A `load_if_ne` that would succeed, just past its chase. */
  lemma GoChase(z: Scene, m: Mem, core: Core) returns (ls: seq<Label>, core2: Core, seen2: Mem)
    requires Staged(z, m, core) && Reached(z, [], z.start) && z.call.op.LoadIfNe? && Chasable(z.call.op, m)
    ensures
      var op := z.call.op;
      && Onward([], ls, z.t) && Reached(z, ls, InCall(z, m, z.site, core2, seen2))
      && Sound(z, core2) && InRange(Prog(z), core2.pc)
      && WrapAdd(m[op.word], op.offset) in Fetched(z.cfg, z.start, ls, z.t, 0)
  {
    var p, k := Prog(z), Meaning(z.call, HomeOf(z), m).access;
    ChaseAhead(z.cfg.arch, z.call.key.kind);
    StartsHere(z, m, core);
    WouldChase(z, m);
    hide Exec, Block, Reached, InCall, Staged, Sound, Meaning, Onward, Fetched, WrapAdd, Chasable, OnTrack;
    var l1, c1, s1 := GoTo(z, [], m, 0, core, map[], p.post - 2);
    var e := Exec(p.code[c1.pc], Around(z), c1, m);
    ChaseExec(z, c1, m, k, e);
    OnlyThere(z, m, e.load.value);
    ls := GoRecorded(z, l1, m, c1, s1, k, e);
    OnwardTo([], l1, ls, z.t);
    core2, seen2 := e.core, Note(s1, e, m);
  }

  /** The word holds a pointer to another word, which holds something else. */
  predicate Chasable(op: Op, m: Mem)
    requires op.LoadIfNe?
  {
    && op.word in m && m[op.word] != op.avoided
    && WrapAdd(m[op.word], op.offset) != op.word && WrapAdd(m[op.word], op.offset) in m
    && m[WrapAdd(m[op.word], op.offset)] != m[op.word]
  }

  lemma WouldChase(z: Scene, m: Mem)
    requires z.call.op.LoadIfNe? && HomeOf(z) == z.call.key.id && Chasable(z.call.op, m)
    ensures Meaning(z.call, HomeOf(z), m).attempt.Ok? && Meaning(z.call, HomeOf(z), m).access <= m.Keys
    ensures z.call.op.word in m
  {
    hide WrapAdd;
  }

  lemma OnlyThere(z: Scene, m: Mem, a: usize)
    requires z.call.op.LoadIfNe? && Chasable(z.call.op, m) && a in Meaning(z.call, HomeOf(z), m).access
    requires Read(m, a) == Read(m, WrapAdd(Read(m, z.call.op.word), z.call.op.offset))
    ensures a == WrapAdd(m[z.call.op.word], z.call.op.offset)
  {
    hide WrapAdd;
  }

  /** A `load_if_ne` that answers Abort, if it is moved away, or else Miss, although an earlier pass of it has
      dereferenced its word. */
  lemma Chased(arch: Arch, call: Call, way: Way, f: Freedom) returns (cfg: Config, s: State, ls: seq<Label>)
    requires call.op.LoadIfNe? && Allows(f, way) && (!way.Away? ==> f.stores)
    ensures Episode(cfg, s, ls, 1, 0, call, f) && !OnlyWord(call.op, Fetched(cfg, s, ls, 1, 0))
    ensures HasAnswered(cfg, StateAfter(cfg, s, ls), 1, 0, call, if way.Away? then Abort else Miss(call.op.avoided))
  {
    var op := call.op;
    var v := Pointer(op);
    var chase := WrapAdd(v, op.offset);
    var m := map[op.word := v, chase := WrapAdd(v, 1)];
    var z := Opening(arch, call, m);
    var store := if way.Away? then None else Some(Cell(op.word, op.avoided));
    cfg, s := z.cfg, z.start;
    assert Chasable(op, m);
    Opens(arch, call, m);
    OpensInv(arch, call, m);
    FailsNext(z, way, m, op.avoided);
    OneContext(z, m, First(call));
    hide Exec, Block, Reached, InCall, Staged, Sound, Meaning, Onward, Fetched, Opening, Moved, Inv, Episode, HasAnswered, WrapAdd, Chasable;
    hide OneCall, Begun;
    var l1, core, seen := GoChase(z, m, First(call));
    ls := NextPass(z, way, m, First(call), l1, m, core, seen, store, f);
    RunsThere(z, l1, m, core, seen, ls, f);
    StillFetched(z, l1, ls, chase);
  }

  /** "Nothing is dereferenced", when a `load_if_ne` answers Miss, and when it answers Abort. */
  ghost predicate NothingChasedOnMiss(call: Call, f: Freedom) {
    forall cfg, s, ls, t, i, v |
      Ends(cfg, s, ls, t, i, call, f, Miss(v)) ::
      Unchased(cfg, s, ls, t, i, call.op)
  }

  ghost predicate NothingChasedOnAbort(call: Call, f: Freedom) {
    forall cfg, s, ls, t, i |
      Ends(cfg, s, ls, t, i, call, f, Abort) ::
      Unchased(cfg, s, ls, t, i, call.op)
  }

  lemma EpisodeLoads(cfg: Config, s: State, ls: seq<Label>, t: Tid, i: nat, call: Call, f: Freedom, a: Attempt)
    requires call.op.LoadIfNe?
    requires Ends(cfg, s, ls, t, i, call, f, a) && !a.Ok?
    requires if a.Abort? then !f.moves else !CanSpoil(f)
    ensures Unchased(cfg, s, ls, t, i, call.op)
  {
    assert t in s.threads;
    if !f.stores && a.Miss? {
      WholeLoadIfNe(cfg, s, ls, t, i, call);
      hide Inv, DisciplinedRun, Throughout, Settled, Block, ValidRun, StateAfter, Fetched, Guarded, Calm, OnlyWord;
    } else {
      assert OnlyWord(call.op, []);
      hide Inv, DisciplinedRun, Throughout, Settled, Block, ValidRun, StateAfter, Stored, Fetched, Guarded, Confined, KeepsIndex, Stays, Begun;
      hide OnlyWord;
      ConfinedKeeps(cfg, s, ls, t, call.key.kind, f);
      if a.Abort? {
        AbortUnmoved(cfg, s, ls, t, i, call);
      } else {
        ConfinedStays(cfg, s, ls, t, call.key.kind, f);
        MissSteady(cfg, s, ls, t, i, call);
      }
    }
  }

  /** A Miss means nothing has been dereferenced, in every run, under the same condition. */
  lemma ChaseOnMiss(call: Call, f: Freedom)
    requires call.op.LoadIfNe?
    ensures NothingChasedOnMiss(call, f) <==> !CanSpoil(f)
  {
    hide Episode, HasAnswered, Fetched, StateAfter, OnlyWord;
    if CanSpoil(f) {
      var cfg, s, ls := Chased(Arm, call, Spoiling(f), f);
      assert Ends(cfg, s, ls, 1, 0, call, f, Miss(call.op.avoided)) && !Unchased(cfg, s, ls, 1, 0, call.op);
    } else {
      forall cfg, s, ls, t, i, v |
        Ends(cfg, s, ls, t, i, call, f, Miss(v))
        ensures Unchased(cfg, s, ls, t, i, call.op)
      {
        EpisodeLoads(cfg, s, ls, t, i, call, f, Miss(v));
      }
    }
  }

  /** And an Abort does if and only if the thread is not moved during the call. */
  lemma ChaseOnAbort(call: Call, f: Freedom)
    requires call.op.LoadIfNe?
    ensures NothingChasedOnAbort(call, f) <==> !f.moves
  {
    hide Episode, HasAnswered, Fetched, StateAfter, OnlyWord;
    if f.moves {
      var cfg, s, ls := Chased(Arm, call, Away, f);
      assert Ends(cfg, s, ls, 1, 0, call, f, Abort) && !Unchased(cfg, s, ls, 1, 0, call.op);
    } else {
      forall cfg, s, ls, t, i |
        Ends(cfg, s, ls, t, i, call, f, Abort)
        ensures Unchased(cfg, s, ls, t, i, call.op)
      {
        EpisodeLoads(cfg, s, ls, t, i, call, f, Abort);
      }
    }
  }

  /** A run in which one call is underway and nothing else happens but interruptions of its thread. */
  ghost predicate Solo(cfg: Config, s: State, ls: seq<Label>, call: Call) {
    && Begun(s, 1, 0, call) && |s.threads[1].stack| == 1 && Alone(s, 1) && AllArmed(cfg, s) && Placed(s)
    && ValidRun(cfg, s, ls) && Polite(ls, 1) && NoStores(ls)
  }

  ghost predicate SoloMiss(cfg: Config, s: State, ls: seq<Label>, call: Call, v: usize) {
    Solo(cfg, s, ls, call) && HasAnswered(cfg, StateAfter(cfg, s, ls), 1, 0, call, Miss(v))
  }

  predicate WordUnchanged(cfg: Config, s: State, ls: seq<Label>, call: Call) {
    ValidRun(cfg, s, ls) && Read(StateAfter(cfg, s, ls).mem, call.op.word) == Read(s.mem, call.op.word)
  }

  /** A `store_if` that answers Miss has not changed its word. */
  ghost predicate MissKeepsWord(call: Call) {
    forall cfg, s, ls, v | SoloMiss(cfg, s, ls, call, v) :: WordUnchanged(cfg, s, ls, call)
  }

  lemma ProperMissKeepsWord(cfg: Config, s: State, ls: seq<Label>, call: Call, v: usize)
    requires call.op.StoreIf? && Proper(call) && SoloMiss(cfg, s, ls, call, v)
    ensures WordUnchanged(cfg, s, ls, call)
  {
    BegunOutside(cfg, s, call);
    hide Proper, Settled, Block, AllArmed, Placed, InSection;
    OneProper(cfg, s, call);
    assert OneCall(s, 1, call);
    hide Alone, Polite, Inv, Begun, OneCall;
    PoliteRun(cfg, s, ls, 1);
    PoliteCall(cfg, s, ls, 1, call);
    WordKept(cfg, s, ls, 1, 0, call);
  }

  lemma BegunOutside(cfg: Config, s: State, call: Call)
    requires Begun(s, 1, 0, call) && |s.threads[1].stack| == 1 && Alone(s, 1) && AllArmed(cfg, s)
    ensures forall t | t in s.threads :: ThreadArmed(cfg, s.threads[t]) && !InSection(cfg, Top(s.threads[t]))
  {
    EveryBlockWellFormed(cfg.arch, OpcodeOf(call.op), call.key.kind);
    BeforeRange(BlockOf(cfg.arch, call), OpcodeOf(call.op), call.key.kind);
    hide Block, WellFormed, ContextOk;
  }

  /** A `store_if` whose `side` is its word, and that would put another value there than it compares with: the
      second pass finds what the first one stored, and misses. */
  lemma AliasMisses(arch: Arch, call: Call) returns (cfg: Config, s: State, ls: seq<Label>)
    requires call.op.StoreIf? && call.op.side == call.op.word && call.op.sideUpdate != call.op.expected
    ensures SoloMiss(cfg, s, ls, call, call.op.sideUpdate) && !WordUnchanged(cfg, s, ls, call)
  {
    var op, m := call.op, map[call.op.word := call.op.expected];
    var z, m2 := Opening(arch, call, m), m[op.side := op.sideUpdate];
    cfg, s := z.cfg, z.start;
    Opens(arch, call, m);
    OpensLocal(arch, call, m);
    OneContext(z, m, First(call));
    FindsItself(z, m2);
    assert m2 == After(m2, None) && s.mem == m;
    var f := Freedom(false, true, false, false, false);
    hide Exec, Block, InCall, Staged, Sound, Meaning, Onward, Stored, Opening, Moved, Inv, Polite, AllArmed, Placed, Alone, Answers, Prog;
    var l1, core, seen := GoScratch(z, m, First(call));
    var n;
    ls, n := NextAnswer(z, Back, m, First(call), l1, m2, core, seen, None, f);
    ToldParts(z, ls, n, f);
    ReachedState(z, ls, n);
    hide ValidRun, StateAfter;
    AnswersPast(z, n, Miss(op.sideUpdate));
  }

  lemma ToldParts(z: Scene, ls: seq<Label>, n: State, f: Freedom)
    requires Told(z, ls, n, f)
    ensures Reached(z, ls, n) && Polite(ls, z.t)
  {
  }

  lemma AnswersPast(z: Scene, n: State, a: Attempt)
    requires Answers(z.cfg, n, z.t, z.call, a) && |n.threads[z.t].stack| == 1
    ensures HasAnswered(z.cfg, n, z.t, 0, z.call, a)
  {
    AnswerSettled(z.cfg, Top(n.threads[z.t]));
    EndIsPast(z.cfg, z.call);
    hide Block, Settled;
  }

  lemma FindsItself(z: Scene, m: Mem)
    requires HomeOf(z) == z.call.key.id && z.call.op.StoreIf? && z.call.op.word in m
    requires m[z.call.op.word] == z.call.op.sideUpdate != z.call.op.expected
    ensures Meaning(z.call, HomeOf(z), m) == Effect(Miss(z.call.op.sideUpdate), m, {}, {z.call.op.word})
    ensures {z.call.op.word} <= m.Keys
  {
  }

  /** `side` may be the word itself exactly if it is given the value the word is compared with. */
  lemma AliasIff(call: Call)
    requires call.op.StoreIf?
    ensures MissKeepsWord(call) <==> call.op.side != call.op.word || call.op.sideUpdate == call.op.expected
  {
    hide SoloMiss, WordUnchanged;
    if call.op.side == call.op.word && call.op.sideUpdate != call.op.expected {
      var cfg, s, ls := AliasMisses(Arm, call);
    } else {
      forall cfg, s, ls, v | SoloMiss(cfg, s, ls, call, v) ensures WordUnchanged(cfg, s, ls, call) {
        ProperMissKeepsWord(cfg, s, ls, call, v);
      }
    }
  }
}
