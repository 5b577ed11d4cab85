/** Which drains are exact: for every schedule of a drainer's actions, exactly those that keep the protocol. */
module Schedules {
  import opened Bits
  import opened Ops
  import opened Isa
  import opened Operands
  import opened Blocks
  import opened Stepping
  import opened Semantics
  import opened Machine
  import opened Sections
  import opened Atomic
  import opened Refinement
  import opened Safety
  import opened Scenes
  import opened Drain
  import B = BadRuns
  import H = Hazards
  import Threads

  /** What drainers do in a run, in order. */
  function Schedule(d: Target, ls: seq<Label>): seq<Action> {
    if ls == [] then []
    else Schedule(d, ls[..|ls| - 1]) + match ActionOf(d, ls[|ls| - 1]) case None => [] case Some(a) => [a]
  }

  predicate AllKnown(d: Target, ls: seq<Label>) {
    forall k | 0 <= k < |ls| :: KnownLabel(d, ls[k])
  }

  function PhaseFrom(phase: Phase, todo: seq<Action>): Phase
    decreases |todo|
  {
    if todo == [] then phase else PhaseFrom(PhaseNext(phase, todo[0]), todo[1..])
  }

  /** Every action is one the protocol allows in the phase it finds. */
  predicate Protocol(phase: Phase, todo: seq<Action>)
    decreases |todo|
  {
    todo != [] ==> Keeps(phase, todo[0]) && Protocol(PhaseNext(phase, todo[0]), todo[1..])
  }

  lemma {:induction false} ProtocolSnoc(phase: Phase, done: seq<Action>, a: Action)
    ensures Protocol(phase, done + [a]) <==> Protocol(phase, done) && Keeps(PhaseFrom(phase, done), a)
    ensures PhaseFrom(phase, done + [a]) == PhaseNext(PhaseFrom(phase, done), a)
    decreases |done|
  {
    hide Keeps, PhaseNext;
    if done == [] {
      assert [] + [a] == [a];
      assert PhaseFrom(phase, [a]) == PhaseFrom(PhaseNext(phase, a), []);
    } else {
      assert (done + [a])[1..] == done[1..] + [a];
      ProtocolSnoc(PhaseNext(phase, done[0]), done[1..], a);
    }
  }

  lemma {:induction false} ProtocolPrefix(phase: Phase, done: seq<Action>, todo: seq<Action>)
    requires done <= todo && Protocol(phase, todo)
    ensures Protocol(phase, done)
    decreases |done|
  {
    hide Keeps, PhaseNext;
    if done != [] { ProtocolPrefix(PhaseNext(phase, done[0]), done[1..], todo[1..]); }
  }

  const START: Books := Books(Open, 0, 0)

  /** A run from rest, with the stop word clear, of increments of the counter and calls that leave it alone. */
  predicate Drill(d: Target, cfg: Config, s: State, ls: seq<Label>) {
    AtRest(s) && Read(s.mem, d.stop) == 0 && ValidRun(cfg, s, ls) && AllKnown(d, ls)
  }

  /** What remains and what has been taken is what was there and what has been committed. */
  predicate Balanced(d: Target, cfg: Config, s: State, ls: seq<Label>) {
    && ValidRun(cfg, s, ls)
    && WrapAdd(Read(StateAfter(cfg, s, ls).mem, d.word), BooksAfter(d, START, cfg, s, ls).stolen)
    == WrapAdd(Read(s.mem, d.word), BooksAfter(d, START, cfg, s, ls).committed)
  }

  lemma {:induction false} RunKeeps(d: Target, cfg: Config, s: State, ls: seq<Label>)
    requires ValidRun(cfg, s, ls) && AllKnown(d, ls) && Protocol(Open, Schedule(d, ls))
    ensures DrainRun(d, START, cfg, s, ls)
    ensures BooksAfter(d, START, cfg, s, ls).phase == PhaseFrom(Open, Schedule(d, ls))
    decreases |ls|
  {
    hide Enabled, Next, Keeps, PhaseNext, KnownLabel, ActionOf;
    if ls != [] {
      var front, l := ls[..|ls| - 1], ls[|ls| - 1];
      if ActionOf(d, l).Some? {
        ProtocolSnoc(Open, Schedule(d, front), ActionOf(d, l).value);
      } else {
        assert Schedule(d, ls) == Schedule(d, front);
      }
      RunKeeps(d, cfg, s, front);
    }
  }

  /** Kept by the drainer, the protocol makes every run exact at every moment. */
  lemma ProtocolExact(d: Target, cfg: Config, s: State, ls: seq<Label>, todo: seq<Action>)
    requires d.word != d.stop && Drill(d, cfg, s, ls) && Schedule(d, ls) <= todo && Protocol(Open, todo)
    ensures Balanced(d, cfg, s, ls)
  {
    ProtocolPrefix(Open, Schedule(d, ls), todo);
    DrainStart(d, cfg, s);
    hide AtRest, ValidRun, StateAfter, DrainInv, WrapAdd, Protocol, Schedule;
    RunKeeps(d, cfg, s, ls);
    Drained(d, START, cfg, s, ls);
  }

  /** Add one to a counter that holds `v`. */
  function BumpCall(d: Target, v: usize): Call {
    Call(CompareExchangeIf(d.word, v, WrapAdd(v, 1), d.stop, 0), Key(CpuIndex, d.cpu))
  }

  /** Thread 1 is the updater, on the drained CPU; thread 0 is the drainer, on another one. */
  predicate Staging(d: Target, z: Scene) {
    && d.word != d.stop && z.t == 1 && z.cpu == d.cpu && OnSite(z) && Bystander(z, 0) && z.others.Keys == {0}
    && z.call.op.CompareExchangeIf? && z.call == BumpCall(d, z.call.op.expected) && AtRest(z.start) && Read(z.start.mem, d.stop) == 0
    && z.others[0].place.cpu != d.cpu
  }

  /** The run so far: what drainers have done in it, and where it has got. */
  predicate Story(d: Target, z: Scene, ls: seq<Label>, done: seq<Action>, n: State) {
    Reached(z, ls, n) && Schedule(d, ls) == done && AllKnown(d, ls)
  }

  lemma {:induction false} OnwardSchedule(d: Target, ls: seq<Label>, more: seq<Label>, t: Tid)
    requires Onward(ls, more, t) && AllKnown(d, ls)
    ensures Schedule(d, more) == Schedule(d, ls) && AllKnown(d, more)
    decreases |more|
  {
    if |more| > |ls| {
      var front := more[..|more| - 1];
      assert front[..|ls|] == more[..|ls|];
      assert more[|more| - 1] == Step(t);
      OnwardSchedule(d, ls, front, t);
    } else {
      assert more == ls;
    }
  }

  lemma SnocSchedule(d: Target, ls: seq<Label>, l: Label)
    requires AllKnown(d, ls) && KnownLabel(d, l)
    ensures AllKnown(d, ls + [l])
    ensures Schedule(d, ls + [l]) == Schedule(d, ls) + match ActionOf(d, l) case None => [] case Some(a) => [a]
  {
    assert (ls + [l])[..|ls + [l]| - 1] == ls;
  }

  /** The stage with the updater about to bump a counter that holds `v`. */
  function For(d: Target, z: Scene, v: usize): Scene {
    z.(call := BumpCall(d, v))
  }

  /** The books of a run of the stage. */
  function Tallied(d: Target, z: Scene, ls: seq<Label>): Books {
    if ValidRun(z.cfg, z.start, ls) then BooksAfter(d, START, z.cfg, z.start, ls) else START
  }

  /** An instruction inside the range changes no books. */
  lemma QuietStep(d: Target, z: Scene, ls: seq<Label>, m: Mem, core: Core, seen: Mem, e: Result)
    requires Reached(z, ls, InCall(z, m, z.site, core, seen)) && core.pc < |Prog(z).code|
    requires e == Exec(Prog(z).code[core.pc], Around(z), core, m) && Touches(e, m.Keys) && e.core.pc < Prog(z).post
    ensures Tallied(d, z, ls + [Step(z.t)]) == Tallied(d, z, ls)
  {
    var n, l := InCall(z, m, z.site, core, seen), Step(z.t);
    hide Exec, Block, ValidRun, StateAfter, Note;
    assert ExecTop(z.cfg, n.threads[z.t], m) == e;
    assert Enabled(z.cfg, n, l) && Observe(z.cfg, n, l) != Commit(z.t);
    hide Enabled, Observe, ExecTop, InCall;
    ReachedBooks(d, z, ls, n, l);
  }

  lemma ReachedBooks(d: Target, z: Scene, ls: seq<Label>, n: State, l: Label)
    requires Reached(z, ls, n) && Enabled(z.cfg, n, l)
    ensures Tallied(d, z, ls + [l]) == BooksNext(d, Tallied(d, z, ls), z.cfg, n, l)
  {
    hide Enabled, Next, BooksNext;
    Snoc(z, ls, n, l);
    assert (ls + [l])[..|ls + [l]| - 1] == ls;
  }

  /** An instruction of an updater on its way, with what it would find in memory as it believes it to be. */
  lemma BumpOnward(d: Target, z: Scene, ls: seq<Label>, m: Mem, m1: Mem, core: Core, seen: Mem, k: set<usize>, q: nat)
    returns (ls2: seq<Label>, core2: Core, seen2: Mem)
    requires Reached(z, ls, InCall(z, m, z.site, core, seen)) && OnTrack(z, core, m1, k)
    requires z.call.op.CompareExchangeIf? && core.pc <= q < Prog(z).post
    requires core.pc <= Prog(z).start + 3 < q ==> z.call.op.word in m && Read(m, z.call.op.word) == Read(m1, z.call.op.word)
    requires core.pc <= Prog(z).start + 6 < q ==> z.call.op.other in m && Read(m, z.call.op.other) == Read(m1, z.call.op.other)
    ensures Onward(ls, ls2, z.t) && Reached(z, ls2, InCall(z, m, z.site, core2, seen2))
    ensures core2.pc == q && OnTrack(z, core2, m1, k)
    ensures Tallied(d, z, ls2) == Tallied(d, z, ls)
    decreases q - core.pc
  {
    if core.pc == q {
      ls2, core2, seen2 := ls, core, seen;
      hide Block;
    } else {
      var e := Exec(Prog(z).code[core.pc], Around(z), core, m1);
      BumpAhead(z, core, m1, k, m, e);
      hide Exec, Block, Reached, InCall, Onward, OnTrack, Note;
      var l1 := Go(z, ls, m, z.site, core, seen, e);
      QuietStep(d, z, ls, m, core, seen, e);
      ls2, core2, seen2 := BumpOnward(d, z, l1, m, m1, e.core, Note(seen, e, m), k, q);
      OnwardTo(ls, l1, ls2, z.t);
    }
  }

  lemma BumpAhead(z: Scene, core: Core, m1: Mem, k: set<usize>, m: Mem, e: Result)
    requires OnTrack(z, core, m1, k) && z.call.op.CompareExchangeIf? && core.pc < Prog(z).post - 1
    requires core.pc == Prog(z).start + 3 ==> z.call.op.word in m && Read(m, z.call.op.word) == Read(m1, z.call.op.word)
    requires core.pc == Prog(z).start + 6 ==> z.call.op.other in m && Read(m, z.call.op.other) == Read(m1, z.call.op.other)
    requires core.pc < |Prog(z).code| && e == Exec(Prog(z).code[core.pc], Around(z), core, m1)
    ensures e == Exec(Prog(z).code[core.pc], Around(z), core, m)
    ensures e.core.pc == core.pc + 1 && e.store == None && e.cs == None && Touches(e, m.Keys) && OnTrack(z, e.core, m1, k)
  {
    var p, kind := Prog(z), z.call.key.kind;
    RangeBounds(z, core);
    OnTrackParts(z, core, m1, k);
    BumpProg(z);
    hide *;
    BumpBlock(z.cfg, kind);
    BumpExec(p, kind, Around(z), core, m1, e);
    BumpInputs(z, core);
    NoEarlyStore(p, kind, core.pc);
    StraightStep(z, core, m1, k, e);
    ExecAgrees(p.code[core.pc], Around(z), core, m1, m);
    LoadsOnly(e, m.Keys);
  }

  lemma LoadsOnly(e: Result, k: set<usize>)
    requires e.store == None && (e.load.Some? ==> e.load.value in k)
    ensures Touches(e, k)
  {
  }

  lemma OnTrackParts(z: Scene, core: Core, m: Mem, k: set<usize>)
    requires OnTrack(z, core, m, k)
    ensures Sound(z, core) && InRange(Prog(z), core.pc)
  {
    hide Block, Sound, Meaning, Remaining, Within;
  }

  lemma BumpProg(z: Scene)
    requires z.call.op.CompareExchangeIf?
    ensures Prog(z) == Block(z.cfg.arch, OpCompareExchangeIf, z.call.key.kind)
  {
    hide Block;
  }

  lemma NoEarlyStore(p: Program, kind: Kind, pc: nat)
    requires CompareExchangeIfShape(p, kind) && p.start <= pc < p.post - 1
    ensures p.post == p.start + 10 && pc < |p.code| && !p.code[pc].Store?
  {
    hide Armed, Exits, MissAt;
  }

  lemma BumpInputs(z: Scene, core: Core)
    requires Sound(z, core) && InRange(Prog(z), core.pc) && z.call.op.CompareExchangeIf?
    ensures Get(core.regs, WordPtr) == z.call.op.word && Get(core.regs, OtherPtr) == z.call.op.other
    ensures Get(core.regs, Update) == z.call.op.update
  {
    SoundLoaded(z, core);
    hide Block, Sound, Low32;
  }

  /** The committing store: it puts one more than the updater has read in the counter, whatever that holds now. */
  lemma GoCommit(d: Target, z: Scene, ls: seq<Label>, m: Mem, m1: Mem, core: Core, seen: Mem, k: set<usize>) returns (n: State)
    requires Reached(z, ls, InCall(z, m, z.site, core, seen)) && OnTrack(z, core, m1, k) && core.pc == Prog(z).post - 1
    requires Staging(d, z) && d.word in m
    ensures Reached(z, ls + [Step(z.t)], n) && n.mem == m[d.word := z.call.op.update]
    ensures Tallied(d, z, ls + [Step(z.t)]) == Tallied(d, z, ls).(committed := WrapAdd(Tallied(d, z, ls).committed, 1))
  {
    var p, kind, l := Prog(z), z.call.key.kind, Step(z.t);
    var s := InCall(z, m, z.site, core, seen);
    RangeBounds(z, core);
    var e := Exec(p.code[core.pc], Around(z), core, m);
    OnTrackParts(z, core, m1, k);
    BumpProg(z);
    BumpStores(z, core, m, e);
    hide OnTrack, Block, Exec, Sound, Note, Reached;
    var ls2 := Go(z, ls, m, z.site, core, seen, e);
    n := InCall(z, After(m, e.store), z.site, e.core, Note(seen, e, m));
    CommitsHere(d, z, m, core, seen, e);
    hide InCall, BumpCommits;
    ReachedBooks(d, z, ls, s, l);
  }

  lemma BumpStores(z: Scene, core: Core, m: Mem, e: Result)
    requires Sound(z, core) && z.call.op.CompareExchangeIf? && core.pc == Prog(z).post - 1 && core.pc < |Prog(z).code|
    requires e == Exec(Prog(z).code[core.pc], Around(z), core, m) && InRange(Prog(z), core.pc)
    ensures e.core.pc == Prog(z).post && e.cs == None && e.load == None && e.store == Some(Cell(z.call.op.word, z.call.op.update))
    ensures Prog(z).post < |Prog(z).code| && Exits(Prog(z))
  {
    BumpInputs(z, core);
    BumpProg(z);
    BumpBlock(z.cfg, z.call.key.kind);
    LastIsStore(Prog(z), z.call.key.kind);
    hide Block, Sound, CompareExchangeIfShape, Exits;
  }

  lemma LastIsStore(p: Program, kind: Kind)
    requires CompareExchangeIfShape(p, kind)
    ensures p.post < |p.code| && Exits(p) && p.code[p.post - 1] == Store(Update, WordPtr)
  {
    hide Armed, MissAt;
  }

  lemma CommitsHere(d: Target, z: Scene, m: Mem, core: Core, seen: Mem, e: Result)
    requires Staging(d, z) && core.pc == Prog(z).post - 1 < |Prog(z).code| && e == Exec(Prog(z).code[core.pc], Around(z), core, m)
    requires e.core.pc == Prog(z).post && Exits(Prog(z)) && Touches(e, m.Keys)
    ensures
      var s := InCall(z, m, z.site, core, seen);
      Enabled(z.cfg, s, Step(z.t)) && BumpCommits(d, z.cfg, s, Step(z.t))
  {
    var s := InCall(z, m, z.site, core, seen);
    hide Exec, Block, Settled, Exits, AtRest;
    assert ExecTop(z.cfg, s.threads[z.t], m) == e;
    var next := Top(Next(z.cfg, s, Step(z.t)).threads[z.t]);
    assert next.Active? && next.core == e.core && next.call == z.call;
    SettledAtPost(z.cfg, next);
  }

  /** So far, with memory `m`, the books balance. */
  predicate Even(d: Target, z: Scene, ls: seq<Label>, m: Mem) {
    WrapAdd(Read(m, d.word), Tallied(d, z, ls).stolen) == WrapAdd(Read(z.start.mem, d.word), Tallied(d, z, ls).committed)
  }

  lemma EvenIsBalanced(d: Target, z: Scene, ls: seq<Label>, n: State)
    requires Reached(z, ls, n)
    ensures Even(d, z, ls, n.mem) <==> Balanced(d, z.cfg, z.start, ls)
  {
    hide WrapAdd, BooksAfter, Read;
  }

  lemma StoryEven(d: Target, z: Scene, ls: seq<Label>, done: seq<Action>, n: State)
    requires Staging(d, z) && Story(d, z, ls, done, n) && Protocol(Open, done)
    ensures Even(d, z, ls, n.mem)
  {
    hide OnSite, Bystander, AtRest, Even, Balanced, Protocol, Schedule, ValidRun, StateAfter;
    ProtocolExact(d, z.cfg, z.start, ls, done);
    EvenIsBalanced(d, z, ls, n);
  }

  /** What makes the schedule inexact: a run with no more of it than that, and books that do not balance. */
  predicate Fails(d: Target, cfg: Config, s: State, ls: seq<Label>, todo: seq<Action>) {
    Drill(d, cfg, s, ls) && Schedule(d, ls) <= todo && !Balanced(d, cfg, s, ls)
  }

  lemma StoryFails(d: Target, z: Scene, ls: seq<Label>, done: seq<Action>, n: State, todo: seq<Action>)
    requires Staging(d, z) && Story(d, z, ls, done, n) && done <= todo && !Even(d, z, ls, n.mem)
    ensures Fails(d, z.cfg, z.start, ls, todo)
  {
    hide OnSite, Bystander, AtRest, Even, Balanced, Schedule;
    EvenIsBalanced(d, z, ls, n);
  }

  lemma OneTooMany(i: usize, c: usize, stolen: usize, v: usize)
    requires WrapAdd(0, stolen) == WrapAdd(i, c) && v != 0
    ensures WrapAdd(WrapAdd(v, 1), stolen) != WrapAdd(i, WrapAdd(c, 1))
  {
  }

  /** The increment takes effect on a counter that has been taken meanwhile: what was taken is there again. */
  lemma CommitBreaks(d: Target, z: Scene, ls: seq<Label>, done: seq<Action>, m: Mem, m1: Mem, core: Core, seen: Mem, k: set<usize>, todo: seq<Action>)
    returns (ls2: seq<Label>)
    requires Staging(d, z) && Story(d, z, ls, done, InCall(z, m, z.site, core, seen)) && done <= todo && Even(d, z, ls, m)
    requires OnTrack(z, core, m1, k) && core.pc == Prog(z).post - 1 && d.word in m
    requires Read(m, d.word) == 0 && z.call.op.expected != 0
    ensures Fails(d, z.cfg, z.start, ls2, todo)
  {
    var b := Tallied(d, z, ls);
    StagingParts(d, z);
    OneTooMany(Read(z.start.mem, d.word), b.committed, b.stolen, z.call.op.expected);
    hide Staging, OnTrack, Block, InCall, Reached, WrapAdd, Tallied;
    var n := GoCommit(d, z, ls, m, m1, core, seen, k);
    ls2 := ls + [Step(z.t)];
    SnocSchedule(d, ls, Step(z.t));
    assert Schedule(d, ls) + [] == Schedule(d, ls);
    assert Read(n.mem, d.word) == z.call.op.update;
    StoryFails(d, z, ls2, done, n, todo);
  }

  lemma StagingParts(d: Target, z: Scene)
    requires Staging(d, z)
    ensures z.t == 1 && Bystander(z, 0) && d.word != d.stop && z.call.op.CompareExchangeIf? && z.call.key == Key(CpuIndex, d.cpu)
    ensures z.call.op.word == d.word && z.call.op.other == d.stop && z.call.op.otherExpected == 0
    ensures z.call.op.update == WrapAdd(z.call.op.expected, 1) && z.cpu == d.cpu && OnSite(z) && HomeOf(z) == z.call.key.id
  {
    hide AtRest, WrapAdd;
  }

  /** Memory after a drainer's action. */
  function Acted(d: Target, m: Mem, a: Action): Mem {
    match a
    case Stop(value) => m[d.stop := value]
    case Take(value) => m[d.word := value]
    case Fence => m
  }

  /** The drainer stores to one of its words. */
  lemma GoStore(d: Target, z: Scene, ls: seq<Label>, done: seq<Action>, m: Mem, cs: usize, ctx: Context, a: Action) returns (ls2: seq<Label>)
    requires Staging(d, z) && Story(d, z, ls, done, With(z, m, On(z.cpu), cs, ctx)) && d.word in m && d.stop in m && !a.Fence?
    ensures Story(d, z, ls2, done + [a], With(z, Acted(d, m, a), On(z.cpu), cs, ctx))
    ensures Even(d, z, ls, m) ==> (Even(d, z, ls2, Acted(d, m, a)) <==> !a.Take? || a.value == 0)
  {
    StagingParts(d, z);
    var addr, n := if a.Stop? then d.stop else d.word, With(z, m, On(z.cpu), cs, ctx);
    var l := Plain(0, addr, a.value);
    hide Staging, Reached, With, Bystander, Tallied, BumpCommits;
    ls2 := GoPlain(z, ls, m, On(z.cpu), cs, ctx, 0, addr, a.value);
    SnocSchedule(d, ls, l);
    PlainBooks(d, z, ls, m, cs, ctx, l);
    Shifted(d, m, a, Tallied(d, z, ls).stolen);
    hide WrapAdd;
  }

  lemma Shifted(d: Target, m: Mem, a: Action, stolen: usize)
    requires d.word != d.stop && !a.Fence?
    ensures
      var n := Acted(d, m, a);
      if a.Take? then
        WrapAdd(Read(n, d.word), WrapAdd(stolen, Read(m, d.word))) == WrapAdd(Read(m, d.word), stolen) <==> a.value == 0
      else Read(n, d.word) == Read(m, d.word)
  {
  }

  lemma PlainBooks(d: Target, z: Scene, ls: seq<Label>, m: Mem, cs: usize, ctx: Context, l: Label)
    requires l.Plain? && l.t == 0 && Bystander(z, 0) && l.addr in m && Reached(z, ls, With(z, m, On(z.cpu), cs, ctx))
    ensures
      var b, c := Tallied(d, z, ls), Tallied(d, z, ls + [l]);
      c.committed == b.committed && c.stolen == if l.addr == d.word then WrapAdd(b.stolen, Read(m, d.word)) else b.stolen
  {
    var n := With(z, m, On(z.cpu), cs, ctx);
    hide Reached, Tallied, WrapAdd;
    assert Enabled(z.cfg, n, l) && n.mem == m;
    hide Enabled, With;
    ReachedBooks(d, z, ls, n, l);
  }

  /** The updater has read a nonzero counter, and waits at `q`, believing memory to be `m1`. */
  predicate Paused(d: Target, z: Scene, ls: seq<Label>, done: seq<Action>, m: Mem, m1: Mem, core: Core, seen: Mem, q: nat) {
    && Staging(d, z) && Story(d, z, ls, done, InCall(z, m, z.site, core, seen)) && OnTrack(z, core, m1, {d.word, d.stop})
    && core.pc == q && d.word in m && d.stop in m && z.call.op.expected != 0 && Read(m1, d.stop) == 0
  }

  /** A take while the updater is about to commit, nothing but stop words being set before. */
  predicate TakeAhead(todo: seq<Action>)
    decreases |todo|
  {
    && todo != []
    && match todo[0]
       case Stop(value) => value != 0 && TakeAhead(todo[1..])
       case Take(value) => value == 0
       case Fence => false
  }

  /** A clear while the updater is about to read the stop word, nothing but takes and set stop words before. */
  predicate ClearAhead(todo: seq<Action>)
    decreases |todo|
  {
    && todo != []
    && match todo[0]
       case Stop(value) => value == 0 || ClearAhead(todo[1..])
       case Take(value) => value == 0 && ClearAhead(todo[1..])
       case Fence => false
  }

  lemma Onwards(done: seq<Action>, todo: seq<Action>)
    requires todo != []
    ensures (done + [todo[0]]) + todo[1..] == done + todo && done + [todo[0]] <= done + todo && done <= done + todo
  {
  }

  lemma PausedParts(d: Target, z: Scene, ls: seq<Label>, done: seq<Action>, m: Mem, m1: Mem, core: Core, seen: Mem, q: nat)
    requires Paused(d, z, ls, done, m, m1, core, seen, q)
    ensures Staging(d, z) && Story(d, z, ls, done, With(z, m, On(z.cpu), z.site, CtxOf(z, core, seen)))
    ensures OnTrack(z, core, m1, {d.word, d.stop}) && core.pc == q && d.word in m && d.stop in m
    ensures z.call.op.CompareExchangeIf? && z.call.op.expected != 0 && Read(m1, d.stop) == 0 && d.word != d.stop
  {
    StagingParts(d, z);
    B.InCallWith(z, m, z.site, core, seen);
    hide Staging, Story, OnTrack, Read, InCall;
  }

  lemma PausedAgain(d: Target, z: Scene, ls: seq<Label>, done: seq<Action>, m: Mem, m1: Mem, core: Core, seen: Mem, q: nat)
    requires Staging(d, z) && Story(d, z, ls, done, With(z, m, On(z.cpu), z.site, CtxOf(z, core, seen)))
    requires OnTrack(z, core, m1, {d.word, d.stop}) && core.pc == q && d.word in m && d.stop in m
    requires z.call.op.CompareExchangeIf? && z.call.op.expected != 0 && Read(m1, d.stop) == 0
    ensures Paused(d, z, ls, done, m, m1, core, seen, q)
  {
    B.InCallWith(z, m, z.site, core, seen);
    hide Staging, Story, OnTrack, Read, InCall;
  }

  lemma ActedKeeps(d: Target, m: Mem, a: Action)
    requires d.word != d.stop && d.word in m && d.stop in m
    ensures d.word in Acted(d, m, a) && d.stop in Acted(d, m, a)
    ensures Read(Acted(d, m, a), d.word) == if a.Take? then a.value else Read(m, d.word)
    ensures Read(Acted(d, m, a), d.stop) == if a.Stop? then a.value else Read(m, d.stop)
  {
  }

  /** The counter is taken while an increment is about to commit. */
  lemma {:induction false} TakenUnderIt(d: Target, z: Scene, ls: seq<Label>, done: seq<Action>, todo: seq<Action>, m: Mem, m1: Mem, core: Core, seen: Mem)
    returns (ls2: seq<Label>)
    requires Paused(d, z, ls, done, m, m1, core, seen, Prog(z).post - 1) && TakeAhead(todo)
    requires Protocol(Open, done) && (PhaseFrom(Open, done).Open? || PhaseFrom(Open, done).Stopped?)
    ensures Fails(d, z.cfg, z.start, ls2, done + todo)
    decreases |todo|
  {
    var a, ctx := todo[0], CtxOf(z, core, seen);
    PausedParts(d, z, ls, done, m, m1, core, seen, Prog(z).post - 1);
    ActedKeeps(d, m, a);
    ProtocolSnoc(Open, done, a);
    Onwards(done, todo);
    assert a.Take? ==> a.value == 0;
    assert a.Stop? ==> Keeps(PhaseFrom(Open, done), a) && PhaseNext(PhaseFrom(Open, done), a).Stopped? && TakeAhead(todo[1..]);
    assert !a.Fence?;
    hide *;
    var l1 := GoStore(d, z, ls, done, m, z.site, ctx, a);
    PausedAgain(d, z, l1, done + [a], Acted(d, m, a), m1, core, seen, Prog(z).post - 1);
    match a
    case Stop(_) => ls2 := TakenUnderIt(d, z, l1, done + [a], todo[1..], Acted(d, m, a), m1, core, seen);
    case Take(_) =>
      StoryEven(d, z, ls, done, With(z, m, On(z.cpu), z.site, ctx));
      WithMem(z, m, z.site, ctx);
      B.InCallWith(z, Acted(d, m, a), z.site, core, seen);
      ls2 := CommitBreaks(d, z, l1, done + [a], Acted(d, m, a), m1, core, seen, {d.word, d.stop}, done + todo);
  }

  lemma WithMem(z: Scene, m: Mem, cs: usize, ctx: Context)
    ensures With(z, m, On(z.cpu), cs, ctx).mem == m
  {
  }

  /** The stop word is cleared, after the counter has been taken, while an increment is about to read it. */
  lemma {:induction false} ClearedUnderIt(d: Target, z: Scene, ls: seq<Label>, done: seq<Action>, todo: seq<Action>, m: Mem, m1: Mem, core: Core, seen: Mem)
    returns (ls2: seq<Label>)
    requires Paused(d, z, ls, done, m, m1, core, seen, Prog(z).start + 6) && ClearAhead(todo) && Read(m, d.word) == 0
    requires Protocol(Open, done) && PhaseFrom(Open, done).Taken?
    ensures Fails(d, z.cfg, z.start, ls2, done + todo)
    decreases |todo|
  {
    var a, ctx, m2 := todo[0], CtxOf(z, core, seen), Acted(d, m, todo[0]);
    PausedParts(d, z, ls, done, m, m1, core, seen, Prog(z).start + 6);
    ActedKeeps(d, m, a);
    ProtocolSnoc(Open, done, a);
    Onwards(done, todo);
    assert !a.Fence?;
    StoryEven(d, z, ls, done, With(z, m, On(z.cpu), z.site, ctx));
    StagingParts(d, z);
    if a == Stop(0) {
      hide *;
      WithMem(z, m, z.site, ctx);
      var l1 := GoStore(d, z, ls, done, m, z.site, ctx, a);
      B.InCallWith(z, m2, z.site, core, seen);
      ls2 := ReadsCleared(d, z, l1, done + [a], m2, m1, core, seen, done + todo);
    } else {
      assert Keeps(PhaseFrom(Open, done), a) && PhaseNext(PhaseFrom(Open, done), a).Taken? && ClearAhead(todo[1..]) && Read(m2, d.word) == 0;
      hide *;
      var l1 := GoStore(d, z, ls, done, m, z.site, ctx, a);
      PausedAgain(d, z, l1, done + [a], m2, m1, core, seen, Prog(z).start + 6);
      ls2 := ClearedUnderIt(d, z, l1, done + [a], todo[1..], m2, m1, core, seen);
    }
  }

  lemma ReadsCleared(d: Target, z: Scene, ls: seq<Label>, done: seq<Action>, m: Mem, m1: Mem, core: Core, seen: Mem, todo: seq<Action>)
    returns (ls2: seq<Label>)
    requires Staging(d, z) && Story(d, z, ls, done, InCall(z, m, z.site, core, seen)) && done <= todo && Even(d, z, ls, m)
    requires OnTrack(z, core, m1, {d.word, d.stop}) && core.pc == Prog(z).start + 6 && d.word in m && d.stop in m
    requires Read(m, d.word) == 0 && Read(m, d.stop) == 0 && Read(m1, d.stop) == 0 && z.call.op.CompareExchangeIf? && z.call.op.expected != 0
    ensures Fails(d, z.cfg, z.start, ls2, todo)
  {
    StagingParts(d, z);
    BumpProg(z);
    BumpBlock(z.cfg, z.call.key.kind);
    NoEarlyStore(Prog(z), z.call.key.kind, Prog(z).start);
    var s := InCall(z, m, z.site, core, seen);
    assert Reached(z, ls, s) && Schedule(d, ls) == done && AllKnown(d, ls);
    hide Staging, Block, CompareExchangeIfShape, Reached, InCall, OnTrack, Onward, AllKnown, Schedule, Tallied, Story, Fails;
    var l1, core2, seen2 := BumpOnward(d, z, ls, m, m1, core, seen, {d.word, d.stop}, Prog(z).post - 1);
    OnwardSchedule(d, ls, l1, z.t);
    StoryOf(d, z, l1, done, InCall(z, m, z.site, core2, seen2));
    ls2 := CommitBreaks(d, z, l1, done, m, m1, core2, seen2, {d.word, d.stop}, todo);
  }

  lemma StoryOf(d: Target, z: Scene, ls: seq<Label>, done: seq<Action>, n: State)
    requires Reached(z, ls, n) && Schedule(d, ls) == done && AllKnown(d, ls)
    ensures Story(d, z, ls, done, n)
  {
  }

  /** Between calls it makes no difference what the next call will be. */
  lemma ForStory(d: Target, z: Scene, ls: seq<Label>, done: seq<Action>, m: Mem, cs: usize, v: usize)
    requires Staging(d, z) && Story(d, z, ls, done, Waiting(z, m, cs))
    ensures Staging(d, For(d, z, v)) && Story(d, For(d, z, v), ls, done, Waiting(For(d, z, v), m, cs))
    ensures For(d, z, v).call.op.CompareExchangeIf? && For(d, z, v).call.op.expected == v
    ensures For(d, z, v).cfg == z.cfg && For(d, z, v).start == z.start
  {
    SameRun(z, For(d, z, v), ls, Waiting(z, m, cs));
    hide Reached, AtRest;
  }

  /** The updater begins an increment. */
  lemma GoBegun(d: Target, z: Scene, ls: seq<Label>, done: seq<Action>, m: Mem, cs: usize) returns (ls2: seq<Label>)
    requires Staging(d, z) && Story(d, z, ls, done, Waiting(z, m, cs))
    ensures Story(d, z, ls2, done, InCall(z, m, cs, H.Entry(z.call, z.area), map[]))
    ensures Sound(z, H.Entry(z.call, z.area)) && H.Entry(z.call, z.area).pc < Prog(z).start
  {
    var regs := Threads.OperandsOf(z.call, z.area);
    StagingParts(d, z);
    H.EntrySound(z);
    var l := Begin(z.t, z.call, z.site, regs, false);
    assert KnownLabel(d, l);
    hide Staging, Waiting, InCall, Sound, Block, Threads.OperandsOf, Loaded, Reached, OnSite;
    ls2 := GoBegin(z, ls, m, cs, regs);
    SnocSchedule(d, ls, l);
    assert Schedule(d, ls) + [] == Schedule(d, ls);
  }

  /** What an increment of a counter that holds what it expects means, if the stop word is clear. */
  lemma BumpWould(d: Target, z: Scene, m: Mem)
    requires Staging(d, z) && z.call.op.CompareExchangeIf? && d.word in m && d.stop in m
    requires Read(m, d.word) == z.call.op.expected && Read(m, d.stop) == 0
    ensures
      var e := Meaning(z.call, HomeOf(z), m);
      e.attempt.Ok? && e.access == {d.word, d.stop} && e.access <= m.Keys && e.mem == m[d.word := WrapAdd(z.call.op.expected, 1)]
  {
    StagingParts(d, z);
    hide Staging, WrapAdd;
  }

  /** The updater runs as far as its read of the stop word, or, if that is clear, as its commit. */
  lemma GoPause(d: Target, z: Scene, ls: seq<Label>, done: seq<Action>, m: Mem, cs: usize, q: nat)
    returns (ls2: seq<Label>, core: Core, seen: Mem)
    requires Staging(d, z) && Story(d, z, ls, done, Waiting(z, m, cs)) && d.word in m && d.stop in m
    requires z.call.op.CompareExchangeIf? && z.call.op.expected == Read(m, d.word) != 0
    requires q == Prog(z).start + 6 || (q == Prog(z).post - 1 && Read(m, d.stop) == 0)
    ensures Paused(d, z, ls2, done, m, m[d.stop := 0], core, seen, q)
  {
    var m1 := m[d.stop := 0];
    StagingParts(d, z);
    BumpWould(d, z, m1);
    PauseSpot(z);
    var l1 := GoBegun(d, z, ls, done, m, cs);
    StoryParts(d, z, l1, done, InCall(z, m, cs, H.Entry(z.call, z.area), map[]));
    assert Read(m1, d.stop) == 0 && Read(m1, d.word) == Read(m, d.word);
    hide Staging, Story, Block, Reached, Meaning, Sound, H.Entry, InCall, Onward, OnTrack, Remaining, Within, Loaded, AllKnown, Schedule, Tallied;
    var l2, core1 := GoStart(z, l1, m, cs, H.Entry(z.call, z.area), map[]);
    EveryBlockFaithful(z.cfg.arch, Around(z), z.call, core1, m1);
    TrackStarts(z, core1, m1);
    var l3;
    l3, core, seen := BumpOnward(d, z, l2, m, m1, core1, map[], {d.word, d.stop}, q);
    OnwardTo(l1, l2, l3, z.t);
    OnwardSchedule(d, l1, l3, z.t);
    StoryOf(d, z, l3, done, InCall(z, m, z.site, core, seen));
    ls2 := l3;
  }

  lemma PauseSpot(z: Scene)
    requires z.call.op.CompareExchangeIf?
    ensures Prog(z).start + 10 == Prog(z).post
  {
    BumpProg(z);
    BumpBlock(z.cfg, z.call.key.kind);
    NoEarlyStore(Prog(z), z.call.key.kind, Prog(z).start);
    hide Block, CompareExchangeIfShape;
  }

  lemma StoryParts(d: Target, z: Scene, ls: seq<Label>, done: seq<Action>, n: State)
    requires Story(d, z, ls, done, n)
    ensures Reached(z, ls, n) && Schedule(d, ls) == done && AllKnown(d, ls)
  {
  }

  lemma TrackStarts(z: Scene, core: Core, m: Mem)
    requires Sound(z, core) && core.pc == Prog(z).start < Prog(z).post && Meaning(z.call, HomeOf(z), m).attempt.Ok?
    requires Remaining(Prog(z), Around(z), core, m) == Rest(Meaning(z.call, HomeOf(z), m).attempt, Meaning(z.call, HomeOf(z), m).mem)
    requires Within(Prog(z), Around(z), core, m, Meaning(z.call, HomeOf(z), m).access)
    ensures OnTrack(z, core, m, Meaning(z.call, HomeOf(z), m).access)
  {
    hide Block, Meaning, Sound, Remaining, Within;
  }

  /** A whole increment, with nobody interfering, and the return from it. */
  lemma GoBump(d: Target, z: Scene, ls: seq<Label>, done: seq<Action>, m: Mem, cs: usize) returns (ls2: seq<Label>)
    requires Staging(d, z) && Story(d, z, ls, done, Waiting(z, m, cs)) && d.word in m && d.stop in m
    requires z.call.op.CompareExchangeIf? && z.call.op.expected == Read(m, d.word) && Read(m, d.stop) == 0
    ensures Story(d, z, ls2, done, Waiting(z, m[d.word := WrapAdd(Read(m, d.word), 1)], z.site))
  {
    StagingParts(d, z);
    BumpWould(d, z, m);
    var l1 := GoBegun(d, z, ls, done, m, cs);
    StoryParts(d, z, l1, done, InCall(z, m, cs, H.Entry(z.call, z.area), map[]));
    hide Staging, Story, Block, Reached, Meaning, Sound, H.Entry, InCall, Onward, AllKnown, Schedule, Undisturbing, Finished, Answers, Waiting;
    var l2, n := GoPass(z, l1, m, cs, H.Entry(z.call, z.area), map[]);
    OnwardSchedule(d, l1, l2, z.t);
    GoReturn(z, l2, n, z.site);
    ls2 := l2 + [Return(z.t)];
    SnocSchedule(d, l2, Return(z.t));
    assert Schedule(d, l2) + [] == Schedule(d, l2);
    StoryOf(d, z, ls2, done, Waiting(z, n.mem, z.site));
  }

  /** The drainer fences the updater between its calls. */
  lemma GoFenced(d: Target, z: Scene, ls: seq<Label>, done: seq<Action>, m: Mem, cs: usize) returns (ls2: seq<Label>)
    requires Staging(d, z) && Story(d, z, ls, done, Waiting(z, m, cs))
    ensures Story(d, z, ls2, done + [Fence], Waiting(z, m, 0))
  {
    var l, n := FenceCpu(0, d.cpu), Waiting(z, m, cs);
    FencedWaiting(d, z, m, cs);
    hide Staging, Reached, AllKnown, Schedule, Waiting, Enabled, Next;
    Snoc(z, ls, n, l);
    ls2 := ls + [l];
    SnocSchedule(d, ls, l);
  }

  lemma FencedWaiting(d: Target, z: Scene, m: Mem, cs: usize)
    requires Staging(d, z)
    ensures
      var l, n := FenceCpu(0, d.cpu), Waiting(z, m, cs);
      Enabled(z.cfg, n, l) && Next(z.cfg, n, l) == Waiting(z, m, 0)
  {
    var l, n := FenceCpu(0, d.cpu), Waiting(z, m, cs);
    hide AtRest, OnSite, FixUp;
    KickIdle(z.cfg, n.threads[1]);
    assert !Hit(n, 0, Some(d.cpu), 0) && Hit(n, 0, Some(d.cpu), 1);
    hide Kick;
    assert Next(z.cfg, n, l).threads == Waiting(z, m, 0).threads;
  }

  lemma KickIdle(cfg: Config, th: Thread)
    requires th.stack == [Idle]
    ensures Kick(cfg, th) == th.(area := th.area.(cs := 0))
  {
    assert SetTop(th, Idle).stack == [Idle];
  }

  /** One action of the drainer between the updater's calls. */
  lemma GoAct(d: Target, z: Scene, ls: seq<Label>, done: seq<Action>, m: Mem, cs: usize, a: Action) returns (ls2: seq<Label>, cs2: usize)
    requires Staging(d, z) && Story(d, z, ls, done, Waiting(z, m, cs)) && d.word in m && d.stop in m
    ensures Story(d, z, ls2, done + [a], Waiting(z, Acted(d, m, a), cs2))
    ensures Even(d, z, ls, m) && !a.Fence? ==> (Even(d, z, ls2, Acted(d, m, a)) <==> !a.Take? || a.value == 0)
  {
    hide Staging, Story, Even, With;
    if a.Fence? {
      cs2 := 0;
      ls2 := GoFenced(d, z, ls, done, m, cs);
    } else {
      cs2 := cs;
      ls2 := GoStore(d, z, ls, done, m, cs, Idle, a);
    }
  }

  /** The phase and memory between the updater's calls: a counter that has not been taken is not zero. */
  predicate Fit(d: Target, phase: Phase, m: Mem) {
    && Tracked(d, phase, m) && d.word in m && d.stop in m
    && (phase.Open? || phase.Stopped? || phase.Held? ==> Read(m, d.word) != 0)
  }

  /** The chance to make the rest of the schedule fail has not been missed. */
  predicate Guarded(phase: Phase, todo: seq<Action>) {
    && (phase.Stopped? ==> !TakeAhead(todo))
    && (phase.Taken? ==> !ClearAhead(todo))
  }

  /** If it is not to be taken now, the next action keeps the protocol, and no chance is missed. */
  lemma NothingMissed(phase: Phase, todo: seq<Action>)
    requires todo != [] && Guarded(phase, todo) && !(phase.Open? && TakeAhead(todo))
    requires !(phase.Held? && todo[0].Take? && ClearAhead(todo[1..])) && (todo[0].Take? ==> todo[0].value == 0)
    ensures Keeps(phase, todo[0]) && Guarded(PhaseNext(phase, todo[0]), todo[1..])
  {
  }

  lemma FitNext(d: Target, phase: Phase, m: Mem, a: Action)
    requires d.word != d.stop && Fit(d, phase, m) && Keeps(phase, a)
    ensures
      var n := Acted(d, m, a);
      && Tracked(d, PhaseNext(phase, a), n) && d.word in n && d.stop in n
      && (Fit(d, PhaseNext(phase, a), n) || (PhaseNext(phase, a).Open? && Read(n, d.word) == 0 && Read(n, d.stop) == 0))
  {
  }

  /** After a drain, once the stop word is clear again, the updater refills the counter. */
  lemma Refill(d: Target, z: Scene, ls: seq<Label>, done: seq<Action>, phase: Phase, m: Mem, cs: usize)
    returns (y: Scene, ls2: seq<Label>, m2: Mem, cs2: usize)
    requires Staging(d, z) && Story(d, z, ls, done, Waiting(z, m, cs)) && d.word in m && d.stop in m
    requires Fit(d, phase, m) || (phase.Open? && Read(m, d.word) == 0 && Read(m, d.stop) == 0)
    ensures Staging(d, y) && Story(d, y, ls2, done, Waiting(y, m2, cs2)) && Fit(d, phase, m2)
    ensures y.cfg == z.cfg && y.start == z.start
  {
    if Fit(d, phase, m) {
      y, ls2, m2, cs2 := z, ls, m, cs;
    } else {
      y := For(d, z, 0);
      m2, cs2 := m[d.word := WrapAdd(Read(m, d.word), 1)], y.site;
      ForStory(d, z, ls, done, m, cs, 0);
      StagingParts(d, z);
      assert Fit(d, phase, m2);
      hide Staging, Story, Waiting, Fit;
      ls2 := GoBump(d, y, ls, done, m, cs);
    }
  }

  lemma FailOpen(d: Target, z: Scene, ls: seq<Label>, done: seq<Action>, todo: seq<Action>, m: Mem, cs: usize) returns (ls2: seq<Label>)
    requires Staging(d, z) && Story(d, z, ls, done, Waiting(z, m, cs)) && Protocol(Open, done) && TakeAhead(todo)
    requires PhaseFrom(Open, done).Open? && Fit(d, Open, m) && z.call.op.CompareExchangeIf? && z.call.op.expected == Read(m, d.word)
    ensures Fails(d, z.cfg, z.start, ls2, done + todo)
  {
    assert Read(m, d.stop) == 0 && Read(m, d.word) != 0 && d.word in m && d.stop in m;
    hide Staging, Story, Waiting, Fails, Paused, Fit, TakeAhead, Protocol, PhaseFrom;
    var l1, core, seen := GoPause(d, z, ls, done, m, cs, Prog(z).post - 1);
    ls2 := TakenUnderIt(d, z, l1, done, todo, m, m[d.stop := 0], core, seen);
  }

  lemma FailHeld(d: Target, z: Scene, ls: seq<Label>, done: seq<Action>, todo: seq<Action>, m: Mem, cs: usize) returns (ls2: seq<Label>)
    requires Staging(d, z) && Story(d, z, ls, done, Waiting(z, m, cs)) && Protocol(Open, done)
    requires todo != [] && todo[0] == Take(0) && ClearAhead(todo[1..])
    requires PhaseFrom(Open, done).Held? && Fit(d, Held, m) && z.call.op.CompareExchangeIf? && z.call.op.expected == Read(m, d.word)
    ensures Fails(d, z.cfg, z.start, ls2, done + todo)
  {
    var m1, m2 := m[d.stop := 0], Acted(d, m, Take(0));
    assert Read(m, d.word) != 0 && d.word in m && d.stop in m;
    ProtocolSnoc(Open, done, Take(0));
    Onwards(done, todo);
    assert Keeps(Held, Take(0)) && PhaseNext(Held, Take(0)) == Taken;
    hide *;
    var l1, core, seen := GoPause(d, z, ls, done, m, cs, Prog(z).start + 6);
    PausedParts(d, z, l1, done, m, m1, core, seen, Prog(z).start + 6);
    ActedKeeps(d, m, Take(0));
    var l2 := GoStore(d, z, l1, done, m, z.site, CtxOf(z, core, seen), Take(0));
    PausedAgain(d, z, l2, done + [Take(0)], m2, m1, core, seen, Prog(z).start + 6);
    ls2 := ClearedUnderIt(d, z, l2, done + [Take(0)], todo[1..], m2, m1, core, seen);
  }

  /** From between the updater's calls on, a schedule that breaks the protocol can be made to fail. */
  lemma {:induction false} Unfold(d: Target, z: Scene, ls: seq<Label>, done: seq<Action>, todo: seq<Action>, m: Mem, cs: usize)
    returns (ls2: seq<Label>)
    requires Staging(d, z) && Story(d, z, ls, done, Waiting(z, m, cs)) && Protocol(Open, done)
    requires Fit(d, PhaseFrom(Open, done), m) && Guarded(PhaseFrom(Open, done), todo) && !Protocol(PhaseFrom(Open, done), todo)
    ensures Fails(d, z.cfg, z.start, ls2, done + todo)
    decreases |todo|
  {
    var phase, a := PhaseFrom(Open, done), todo[0];
    var y := For(d, z, Read(m, d.word));
    Onwards(done, todo);
    ForStory(d, z, ls, done, m, cs, Read(m, d.word));
    StagingParts(d, z);
    if phase.Open? && TakeAhead(todo) {
      ls2 := FailOpen(d, y, ls, done, todo, m, cs);
    } else if phase.Held? && a.Take? && a.value == 0 && ClearAhead(todo[1..]) {
      ls2 := FailHeld(d, y, ls, done, todo, m, cs);
    } else {
      StoryEven(d, z, ls, done, Waiting(z, m, cs));
      hide Staging, Story, Even, Fails, Waiting;
      var l1, cs1 := GoAct(d, z, ls, done, m, cs, a);
      if a.Take? && a.value != 0 {
        StoryFails(d, z, l1, done + [a], Waiting(z, Acted(d, m, a), cs1), done + todo);
        ls2 := l1;
      } else {
        NothingMissed(phase, todo);
        ProtocolSnoc(Open, done, a);
        FitNext(d, phase, m, a);
        var x, l2, m2, cs2 := Refill(d, z, l1, done + [a], PhaseNext(phase, a), Acted(d, m, a), cs1);
        ls2 := Unfold(d, x, l2, done + [a], todo[1..], m2, cs2);
      }
    }
  }

  /** Thread 1 on the drained CPU, thread 0 on another one, a counter that holds one, and a clear stop word. */
  function Stage(arch: Arch, d: Target): Scene {
    var o, m := B.Other(d.cpu), map[d.stop := 0, d.word := 1];
    var z := Scene(Config(arch, map[B.SITE := Site(OpCompareExchangeIf, CpuIndex)]), State(m, map[]),
                   map[0 := Thread(On(o), Area(0, o, o, 0), [Idle])], 1, B.AREA, d.cpu, d.cpu, BumpCall(d, 1), B.SITE);
    z.(start := Waiting(z, m, 0))
  }

  lemma StageStarts(arch: Arch, d: Target)
    requires d.word != d.stop
    ensures
      var z, m := Stage(arch, d), map[d.stop := 0, d.word := 1];
      Staging(d, z) && Story(d, z, [], [], Waiting(z, m, 0)) && Fit(d, Open, m)
  {
    var z := Stage(arch, d);
    assert z.start.threads == z.others[1 := z.start.threads[1]];
  }

  /** A schedule that breaks the protocol fails, on either backend, whatever CPU and words it is for. */
  lemma Breaks(arch: Arch, d: Target, todo: seq<Action>) returns (cfg: Config, s: State, ls: seq<Label>)
    requires d.word != d.stop && !Protocol(Open, todo)
    ensures cfg.arch == arch && Fails(d, cfg, s, ls, todo)
  {
    var z, m := Stage(arch, d), map[d.stop := 0, d.word := 1];
    StageStarts(arch, d);
    cfg, s := z.cfg, z.start;
    assert PhaseFrom(Open, []) == Open && [] + todo == todo && cfg.arch == arch;
    hide Staging, Story, Fit, Waiting, Fails, Stage;
    ls := Unfold(d, z, [], [], todo, m, 0);
  }

  /** The books balance in every run in which drainers do no more than begin the schedule, at every moment. */
  ghost predicate Exact(d: Target, todo: seq<Action>) {
    forall cfg, s, ls | Drill(d, cfg, s, ls) && Schedule(d, ls) <= todo :: Balanced(d, cfg, s, ls)
  }

  /** A drain is exact if and only if it keeps the protocol: it takes only after setting the stop word and fencing,
      and clears the stop word after taking only when it has fenced once more. */
  lemma ExactIffKept(d: Target, todo: seq<Action>)
    requires d.word != d.stop
    ensures Exact(d, todo) <==> Protocol(Open, todo)
  {
    hide Drill, Balanced, Schedule;
    if Protocol(Open, todo) {
      forall cfg, s, ls | Drill(d, cfg, s, ls) && Schedule(d, ls) <= todo ensures Balanced(d, cfg, s, ls) {
        ProtocolExact(d, cfg, s, ls, todo);
      }
    } else {
      var cfg, s, ls := Breaks(Arm, d, todo);
    }
  }

  /** Setting the stop word, fencing, taking and clearing again is not exact, nor is fencing and taking with no stop
      word set; with one more fence before clearing it is. */
  lemma DrainOrders(d: Target, on: usize)
    requires d.word != d.stop && on != 0
    ensures !Exact(d, [Stop(on), Fence, Take(0), Stop(0)])
    ensures !Exact(d, [Fence, Take(0)])
    ensures Exact(d, [Stop(on), Fence, Take(0), Fence, Stop(0)])
  {
    hide Exact;
    ExactIffKept(d, [Stop(on), Fence, Take(0), Stop(0)]);
    ExactIffKept(d, [Fence, Take(0)]);
    ExactIffKept(d, [Stop(on), Fence, Take(0), Fence, Stop(0)]);
    OrdersKept(on);
  }

  lemma OrdersKept(on: usize)
    requires on != 0
    ensures !Protocol(Open, [Stop(on), Fence, Take(0), Stop(0)])
    ensures !Protocol(Open, [Fence, Take(0)])
    ensures Protocol(Open, [Stop(on), Fence, Take(0), Fence, Stop(0)])
  {
    var a, b, c := [Stop(on), Fence, Take(0), Stop(0)], [Fence, Take(0)], [Stop(on), Fence, Take(0), Fence, Stop(0)];
    assert a[1..] == [Fence, Take(0), Stop(0)] && a[1..][1..] == [Take(0), Stop(0)] && a[1..][1..][1..] == [Stop(0)];
    assert b[1..] == [Take(0)];
    assert c[1..] == [Fence, Take(0), Fence, Stop(0)] && c[1..][1..] == [Take(0), Fence, Stop(0)];
    assert c[1..][1..][1..] == [Fence, Stop(0)] && c[1..][1..][1..][1..] == [Stop(0)] && c[1..][1..][1..][1..][1..] == [];
    assert Protocol(Swept, [Stop(0)]) && Protocol(Taken, c[1..][1..][1..]) && Protocol(Held, c[1..][1..]) && Protocol(Stopped, c[1..]);
    assert !Protocol(Taken, [Stop(0)]) && !Protocol(Held, a[1..][1..]) && !Protocol(Stopped, a[1..]);
  }
}
