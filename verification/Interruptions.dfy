/** What may interrupt a call, and which of it can leave traces of a call that fails. */
module Interruptions {
  import opened Bits
  import opened Ops
  import opened Isa
  import opened Operands
  import opened Blocks
  import opened Machine
  import opened Sections
  import opened Atomic
  import opened Refinement
  import opened Safety
  import opened Calls
  import opened Attempts

  /** What may happen while a call is underway: its thread is resumed with another index, or with the same one; a
      signal is delivered to it; a fence hits it; others, its handlers included, store to its word. */
  datatype Freedom = Freedom(moves: bool, resumes: bool, signals: bool, fences: bool, stores: bool)

  predicate Permits(f: Freedom, s: State, l: Label, t: Tid, kind: Kind) {
    match l
    case Resume(u, cpu, cid) =>
      u == t && t in s.threads ==> if Given(kind, cpu, cid) == IndexOf(s.threads[t].area, kind) then f.resumes else f.moves
    case Signal(u) => u == t ==> f.signals
    case FenceCpu(u, cpu) => Hit(s, u, Some(cpu), t) ==> f.fences
    case FenceAll(u) => Hit(s, u, None, t) ==> f.fences
    case _ => true
  }

  /** Every step of the run is permitted. */
  predicate Confined(cfg: Config, s: State, ls: seq<Label>, t: Tid, kind: Kind, f: Freedom)
    requires ValidRun(cfg, s, ls)
    decreases |ls|
  {
    ls != [] ==>
      && Confined(cfg, s, ls[..|ls| - 1], t, kind, f)
      && Permits(f, StateAfter(cfg, s, ls[..|ls| - 1]), ls[|ls| - 1], t, kind)
  }

  /** Where no moves are permitted the thread keeps its index. */
  lemma {:induction false} ConfinedKeeps(cfg: Config, s: State, ls: seq<Label>, t: Tid, kind: Kind, f: Freedom)
    requires ValidRun(cfg, s, ls) && t in s.threads && Confined(cfg, s, ls, t, kind, f) && !f.moves
    ensures t in StateAfter(cfg, s, ls).threads
    ensures IndexOf(StateAfter(cfg, s, ls).threads[t].area, kind) == IndexOf(s.threads[t].area, kind)
    ensures KeepsIndex(ls, t, kind, IndexOf(s.threads[t].area, kind))
    decreases |ls|
  {
    hide Enabled, Next;
    if ls != [] {
      var front, l := ls[..|ls| - 1], ls[|ls| - 1];
      ConfinedKeeps(cfg, s, front, t, kind, f);
      IndexNext(cfg, StateAfter(cfg, s, front), l, t, kind);
      assert forall k | 0 <= k < |ls| :: ls[k] == if k < |front| then front[k] else l;
    }
  }

  /** The thread is not put back on a CPU, and no signal is delivered to it. */
  predicate Stays(ls: seq<Label>, t: Tid) {
    forall k | 0 <= k < |ls| :: !(ls[k].Resume? && ls[k].t == t) && !(ls[k].Signal? && ls[k].t == t)
  }

  lemma ResumesKnown(cfg: Config, s: State, l: Label)
    requires Enabled(cfg, s, l) && l.Resume?
    ensures l.t in s.threads
  {
  }

  lemma {:induction false} ConfinedStays(cfg: Config, s: State, ls: seq<Label>, t: Tid, kind: Kind, f: Freedom)
    requires ValidRun(cfg, s, ls) && Confined(cfg, s, ls, t, kind, f) && !f.moves && !f.resumes && !f.signals
    ensures Stays(ls, t)
    decreases |ls|
  {
    hide Enabled, Next;
    if ls != [] {
      var front, l := ls[..|ls| - 1], ls[|ls| - 1];
      ConfinedStays(cfg, s, front, t, kind, f);
      if l.Resume? { ResumesKnown(cfg, StateAfter(cfg, s, front), l); }
      assert forall k | 0 <= k < |ls| :: ls[k] == if k < |front| then front[k] else l;
    }
  }

  /** An instruction of a call that is away from home touches no memory. */
  lemma AwayOwn(cfg: Config, s: State, t: Tid)
    requires Inv(cfg, s) && Enabled(cfg, s, Step(t))
    requires IndexOf(s.threads[t].area, Top(s.threads[t]).call.key.kind) != Top(s.threads[t]).call.key.id
    ensures ExecTop(cfg, s.threads[t], s.mem).store == None && ExecTop(cfg, s.threads[t], s.mem).load == None
  {
    var th := s.threads[t];
    var ctx := Top(th);
    var p, opcode, kind, e := ProgramOf(cfg, ctx), OpcodeOf(ctx.call.op), ctx.call.key.kind, ExecTop(cfg, th, s.mem);
    RunningContext(cfg, s, t);
    EveryBlockWellFormed(cfg.arch, opcode, kind);
    hide Exec, Block, ContextOk, Inv, WellFormed, SectionOk;
    if InSection(cfg, ctx) {
      TouchesFootprint(cfg, s, t);
    } else if ctx.core.pc < p.start {
      EntryStep(cfg, th.area, ctx, s.mem, e);
    } else {
      TailExec(p, opcode, kind, EnvOf(th.area, ctx.site), ctx.core, s.mem, e);
    }
  }

  /** A call begun away from home, and kept there, touches no memory, however it is interrupted. */
  lemma {:induction false} AwayTracesNothing(cfg: Config, s: State, ls: seq<Label>, t: Tid, i: nat, call: Call)
    requires Inv(cfg, s) && ValidRun(cfg, s, ls) && DisciplinedRun(cfg, s, ls) && Throughout(cfg, s, ls, t, i, call)
    requires Begun(s, t, i, call) && IndexOf(s.threads[t].area, call.key.kind) != call.key.id
    requires KeepsIndex(ls, t, call.key.kind, IndexOf(s.threads[t].area, call.key.kind))
    ensures Stored(cfg, s, ls, t, i) == [] && Fetched(cfg, s, ls, t, i) == []
    decreases |ls|
  {
    if ls != [] {
      var front, l := ls[..|ls| - 1], ls[|ls| - 1];
      var n, index := StateAfter(cfg, s, front), IndexOf(s.threads[t].area, call.key.kind);
      hide Enabled, Next, Inv, Disciplined, Begun, Decided, ExecTop;
      AwayTracesNothing(cfg, s, front, t, i, call);
      StaysDecided(cfg, s, front, t, i, call, index);
      if Own(n, l, t, i) {
        OwnContext(cfg, n, t, i);
        AwayOwn(cfg, n, t);
      }
    }
  }

  /** A call that aborts has touched no memory in any of its passes if its thread has kept its index. */
  lemma AbortUnmoved(cfg: Config, s: State, ls: seq<Label>, t: Tid, i: nat, call: Call)
    requires Inv(cfg, s) && ValidRun(cfg, s, ls) && DisciplinedRun(cfg, s, ls) && Throughout(cfg, s, ls, t, i, call)
    requires Begun(s, t, i, call) && KeepsIndex(ls, t, call.key.kind, IndexOf(s.threads[t].area, call.key.kind))
    requires Underway(StateAfter(cfg, s, ls), t, i, call) && Answered(cfg, ContextAt(StateAfter(cfg, s, ls), t, i, call))
    requires Settled(cfg, ContextAt(StateAfter(cfg, s, ls), t, i, call)).Abort?
    ensures Stored(cfg, s, ls, t, i) == [] && Fetched(cfg, s, ls, t, i) == []
  {
    MoveDecides(cfg, s, ls, t, i, call);
    hide Inv, DisciplinedRun, ValidRun, StateAfter, Settled, Block, Stored, Fetched;
    AwayTracesNothing(cfg, s, ls, t, i, call);
  }

  /** What a `store_if` has stored and a `load_if_ne` has loaded, as long as nobody has spoiled its word. */
  predicate SoFar(cfg: Config, ctx: Context, stored: seq<Cell>, loaded: seq<usize>, m: Mem)
    requires ctx.Active?
  {
    match ctx.call.op
    case StoreIf(_, _, _, _, _) => StoresSoFar(cfg, ctx, stored, m, false, true)
    case LoadIfNe(_, _, _) => LoadsSoFar(cfg, ctx, loaded, m, false, true)
    case _ => true
  }

  /** The traces a failed call should not leave: scratch stores of a `store_if`, chases of a `load_if_ne`. */
  predicate Clean(op: Op, stored: seq<Cell>, loaded: seq<usize>) {
    match op
    case StoreIf(_, _, _, _, _) => stored == []
    case LoadIfNe(_, _, _) => OnlyWord(op, loaded)
    case _ => true
  }

  predicate Tracing(call: Call) {
    (call.op.StoreIf? && call.op.side != call.op.word) || call.op.LoadIfNe?
  }

  /** The word is a word the call depends on, if its key fits. */
  lemma WordCounts(call: Call, index: u32, m: Mem)
    requires index == call.key.id && Tracing(call)
    ensures call.op.word in Meaning(call, index, m).access
  {
    hide WrapAdd;
  }

  /** Nobody stores to the word of a call that is running at home, except the call itself. */
  lemma WordSafe(cfg: Config, s: State, l: Label, t: Tid, i: nat, call: Call)
    requires Inv(cfg, s) && Enabled(cfg, s, l) && Disciplined(cfg, s, l) && Underway(s, t, i, call) && Tracing(call)
    requires !Answered(cfg, ContextAt(s, t, i, call)) && s.threads[t].place.On? && |s.threads[t].stack| == i + 1 && !Own(s, l, t, i)
    requires IndexOf(s.threads[t].area, call.key.kind) == call.key.id
    ensures Read(Next(cfg, s, l).mem, call.op.word) == Read(s.mem, call.op.word)
  {
    var a, o := Abs(cfg, s), Observe(cfg, s, l);
    StepSafe(cfg, s, l);
    StillPending(cfg, s, t, i, call);
    SomebodyElse(cfg, s, l, t, i, call);
    assert a.mem == s.mem && Abs(cfg, Next(cfg, s, l)).mem == Next(cfg, s, l).mem;
    WordCounts(call, call.key.id, s.mem);
    hide Inv, Enabled, Next, Abs, Observe, Disciplined, Answered, AEnabled, ANext, EffectOf, Stores, Meaning;
    if call.op.word !in Stores(a, o) { StoresOnly(a, o, call.op.word); }
  }

  lemma StillPending(cfg: Config, s: State, t: Tid, i: nat, call: Call)
    requires Underway(s, t, i, call) && !Answered(cfg, ContextAt(s, t, i, call)) && s.threads[t].place.On? && |s.threads[t].stack| == i + 1
    ensures IsPending(Abs(cfg, s), t) && CallOf(Abs(cfg, s), t) == call
    ensures EffectOf(Abs(cfg, s), t) == Meaning(call, IndexOf(s.threads[t].area, call.key.kind), s.mem)
  {
    hide Block, Settled, Meaning;
  }

  /** Whoever stores in a step that is not the call's own, it is another thread. */
  lemma SomebodyElse(cfg: Config, s: State, l: Label, t: Tid, i: nat, call: Call)
    requires Enabled(cfg, s, l) && AEnabled(Abs(cfg, s), Observe(cfg, s, l)) && Underway(s, t, i, call)
    requires s.threads[t].place.On? && |s.threads[t].stack| == i + 1 && !Own(s, l, t, i)
    ensures Stores(Abs(cfg, s), Observe(cfg, s, l)) != {} ==> Actor(Observe(cfg, s, l)) != t
  {
    assert l != Step(t) && !(l.Plain? && l.t == t);
    hide Enabled, Abs, Observe, AEnabled, Stores;
    StoresActor(cfg, s, l, t);
  }

  /** One more instruction of the call. */
  lemma SoFarOwn(cfg: Config, s: State, t: Tid, i: nat, call: Call, stored: seq<Cell>, loaded: seq<usize>)
    requires Inv(cfg, s) && Enabled(cfg, s, Step(t)) && Own(s, Step(t), t, i) && Underway(s, t, i, call) && Tracing(call)
    requires Underway(Next(cfg, s, Step(t)), t, i, call) && SoFar(cfg, ContextAt(s, t, i, call), stored, loaded, s.mem)
    ensures SoFar(cfg, ContextAt(Next(cfg, s, Step(t)), t, i, call), stored + StoreOf(cfg, s, Step(t), t, i),
                  loaded + LoadOf(cfg, s, Step(t), t, i), Next(cfg, s, Step(t)).mem)
  {
    OwnIsQuiet(cfg, s, Step(t), t, i);
    hide Inv, Enabled, Next, StoresSoFar, LoadsSoFar, OtherStore, Interrupts, StoreOf, LoadOf;
    if call.op.StoreIf? {
      WholeStep(cfg, s, Step(t), t, i, call, stored, false, true);
    } else {
      WholeLoadStep(cfg, s, Step(t), t, i, call, loaded, false, true);
    }
  }

  /** The call has not moved, and nobody has stored to its word; or it makes no difference. */
  lemma SoFarKept(cfg: Config, ctx: Context, next: Context, stored: seq<Cell>, loaded: seq<usize>, m: Mem, n: Mem)
    requires ctx.Active? && Tracing(ctx.call) && SoFar(cfg, ctx, stored, loaded, m) && ProgramOf(cfg, ctx).abort < ProgramOf(cfg, ctx).post
    requires next == ctx || (InSection(cfg, ctx) && next == ctx.(core := ctx.core.(pc := ProgramOf(cfg, ctx).abort)))
    requires Read(n, ctx.call.op.word) == Read(m, ctx.call.op.word) || Answered(cfg, ctx) || (stored == [] && loaded == [])
    ensures next.Active? && SoFar(cfg, next, stored, loaded, n)
  {
    hide Block, Settled, AllSide;
  }

  /** As it should be; or the thread is away in the middle of the call, and will stay so. */
  predicate Steady(cfg: Config, s: State, t: Tid, i: nat, call: Call, stored: seq<Cell>, loaded: seq<usize>)
    requires Underway(s, t, i, call)
  {
    var ctx := ContextAt(s, t, i, call);
    && (SoFar(cfg, ctx, stored, loaded, s.mem) || (s.threads[t].place.Off? && !Answered(cfg, ctx)))
    && (|s.threads[t].stack| > i + 1 ==> stored == [] && loaded == [])
  }

  /** Handlers only return, and a thread off its CPU stays there. */
  lemma NoReturn(cfg: Config, s: State, l: Label, t: Tid, i: nat, call: Call)
    requires Enabled(cfg, s, l) && Underway(s, t, i, call) && Underway(Next(cfg, s, l), t, i, call)
    requires !(l.Resume? && l.t == t) && !(l.Signal? && l.t == t)
    ensures
      var th, next := s.threads[t], Next(cfg, s, l).threads[t];
      && |next.stack| <= |th.stack| && (th.place.Off? ==> next.place.Off?)
      && (th.place.Off? ==> !Interrupts(s, l, t) && !Own(s, l, t, i))
  {
    hide Exec, Block, FixUp, Loaded, Touches, ExecTop;
  }

  lemma SteadyOwn(cfg: Config, s: State, t: Tid, i: nat, call: Call, stored: seq<Cell>, loaded: seq<usize>)
    requires Inv(cfg, s) && Enabled(cfg, s, Step(t)) && Own(s, Step(t), t, i) && Underway(s, t, i, call) && Tracing(call)
    requires Underway(Next(cfg, s, Step(t)), t, i, call) && Steady(cfg, s, t, i, call, stored, loaded)
    ensures Steady(cfg, Next(cfg, s, Step(t)), t, i, call, stored + StoreOf(cfg, s, Step(t), t, i), loaded + LoadOf(cfg, s, Step(t), t, i))
  {
    OwnContext(cfg, s, t, i);
    assert s.threads[t].place.On?;
    hide Inv, Enabled, Next, SoFar, StoreOf, LoadOf, Answered;
    SoFarOwn(cfg, s, t, i, call, stored, loaded);
  }

  lemma SteadyOther(cfg: Config, s: State, l: Label, t: Tid, i: nat, call: Call, stored: seq<Cell>, loaded: seq<usize>)
    requires Inv(cfg, s) && Enabled(cfg, s, l) && Disciplined(cfg, s, l) && !Own(s, l, t, i) && Underway(s, t, i, call) && Tracing(call)
    requires Underway(Next(cfg, s, l), t, i, call) && Steady(cfg, s, t, i, call, stored, loaded)
    requires IndexOf(s.threads[t].area, call.key.kind) == call.key.id
    requires !(l.Resume? && l.t == t) && !(l.Signal? && l.t == t)
    ensures Steady(cfg, Next(cfg, s, l), t, i, call, stored, loaded)
  {
    var ctx, next := ContextAt(s, t, i, call), ContextAt(Next(cfg, s, l), t, i, call);
    var th := s.threads[t];
    InvLocal(cfg, s);
    assert ThreadArmed(cfg, th);
    EveryBlockWellFormed(cfg.arch, OpcodeOf(call.op), call.key.kind);
    AbortBeforePost(cfg, ctx);
    hide Inv, Enabled, Next, SoFar, Block, Disciplined, Own, WellFormed, ThreadArmed, Answered, InSection, Interrupts;
    OtherStep(cfg, s, l, t, i, call);
    NoReturn(cfg, s, l, t, i, call);
    if SoFar(cfg, ctx, stored, loaded, s.mem) {
      if Answered(cfg, ctx) || (stored == [] && loaded == []) {
        SoFarKept(cfg, ctx, next, stored, loaded, s.mem, Next(cfg, s, l).mem);
      } else if th.place.On? {
        WordSafe(cfg, s, l, t, i, call);
        SoFarKept(cfg, ctx, next, stored, loaded, s.mem, Next(cfg, s, l).mem);
      }
    }
  }

  lemma AbortBeforePost(cfg: Config, ctx: Context)
    requires ctx.Active?
    ensures ProgramOf(cfg, ctx).abort < ProgramOf(cfg, ctx).post
  {
    EveryBlockWellFormed(cfg.arch, OpcodeOf(ctx.call.op), ctx.call.key.kind);
    hide Block, Checked, InstrOk, ScratchOk;
  }

  lemma {:induction false} StaysSteady(cfg: Config, s: State, ls: seq<Label>, t: Tid, i: nat, call: Call)
    requires Inv(cfg, s) && ValidRun(cfg, s, ls) && DisciplinedRun(cfg, s, ls) && Throughout(cfg, s, ls, t, i, call)
    requires Begun(s, t, i, call) && Tracing(call) && IndexOf(s.threads[t].area, call.key.kind) == call.key.id && Stays(ls, t)
    ensures Underway(StateAfter(cfg, s, ls), t, i, call)
    ensures Steady(cfg, StateAfter(cfg, s, ls), t, i, call, Stored(cfg, s, ls, t, i), Fetched(cfg, s, ls, t, i))
    decreases |ls|
  {
    hide Enabled, Next, Inv, Disciplined, Begun, Decided, Steady, StoreOf, LoadOf, Own, Abs, Underway;
    if ls == [] {
      SteadyStart(cfg, s, t, i, call);
    } else {
      var front, l := ls[..|ls| - 1], ls[|ls| - 1];
      var n := StateAfter(cfg, s, front);
      StaysSteady(cfg, s, front, t, i, call);
      StaysDecided(cfg, s, front, t, i, call, call.key.id);
      if Own(n, l, t, i) {
        OwnIsStep(n, l, t, i);
        SteadyOwn(cfg, n, t, i, call, Stored(cfg, s, front, t, i), Fetched(cfg, s, front, t, i));
      } else {
        OthersLeaveNoTrace(cfg, n, l, t, i);
        assert Stored(cfg, s, front, t, i) + [] == Stored(cfg, s, front, t, i);
        assert Fetched(cfg, s, front, t, i) + [] == Fetched(cfg, s, front, t, i);
        SteadyOther(cfg, n, l, t, i, call, Stored(cfg, s, front, t, i), Fetched(cfg, s, front, t, i));
      }
    }
  }

  lemma SteadyStart(cfg: Config, s: State, t: Tid, i: nat, call: Call)
    requires Begun(s, t, i, call) && Tracing(call)
    ensures Underway(s, t, i, call) && Steady(cfg, s, t, i, call, [], [])
  {
    hide Block, Settled;
    if call.op.StoreIf? { BegunStores(cfg, s, t, i, call); } else { BegunLoads(cfg, s, t, i, call); }
  }

  lemma OwnIsStep(s: State, l: Label, t: Tid, i: nat)
    requires Own(s, l, t, i)
    ensures l == Step(t)
  {
  }

  lemma OthersLeaveNoTrace(cfg: Config, s: State, l: Label, t: Tid, i: nat)
    requires Enabled(cfg, s, l) && !Own(s, l, t, i)
    ensures StoreOf(cfg, s, l, t, i) == [] && LoadOf(cfg, s, l, t, i) == []
  {
  }

  /** A call that misses has left no trace in any of its passes if its thread has been neither put back on a CPU
      nor sent a signal, whatever fences hit it and whoever stores to its word. */
  lemma MissSteady(cfg: Config, s: State, ls: seq<Label>, t: Tid, i: nat, call: Call)
    requires Inv(cfg, s) && ValidRun(cfg, s, ls) && DisciplinedRun(cfg, s, ls) && Throughout(cfg, s, ls, t, i, call)
    requires Begun(s, t, i, call) && Tracing(call) && Stays(ls, t)
    requires Underway(StateAfter(cfg, s, ls), t, i, call) && Answered(cfg, ContextAt(StateAfter(cfg, s, ls), t, i, call))
    requires Settled(cfg, ContextAt(StateAfter(cfg, s, ls), t, i, call)).Miss?
    ensures Clean(call.op, Stored(cfg, s, ls, t, i), Fetched(cfg, s, ls, t, i))
  {
    MoveDecides(cfg, s, ls, t, i, call);
    hide Inv, DisciplinedRun, ValidRun, StateAfter, Settled, Block, Stored, Fetched, Begun, AllSide, OnlyWord;
    StaysSteady(cfg, s, ls, t, i, call);
  }
}
