/** When an attempt fails: a loop that looks up its index anew aborts at most once for every move. */
module Attempts {
  import opened Bits
  import opened Ops
  import opened Machine
  import opened Sections
  import opened Atomic
  import opened Refinement
  import opened Calls
  import opened Operands
  import opened Blocks
  import opened Counts

  /** What a program at depth `i` of a thread's stack has done with one kind of key: the key it has picked and not
      used yet, the calls it has begun, those that aborted and those that answered anything else; and how often its
      thread has been given another index of that kind. */
  datatype Tally = Tally(kind: Kind, pick: Option<Key>, begun: nat, aborted: nat, answered: nat, moved: nat)

  function NoneYet(kind: Kind): Tally {
    Tally(kind, None, 0, 0, 0, 0)
  }

  /** The index of a kind that a thread is resumed with. */
  function Given(kind: Kind, cpu: u32, cid: u32): u32 {
    match kind case CpuIndex => cpu case CidIndex => cid
  }

  /** The program at depth `i` is the one that runs. */
  predicate Mine(a: AState, t: Tid, i: nat) {
    ARuns(a, t) && |a.threads[t].stack| == i + 1
  }

  function TallyNext(a: AState, o: ALabel, t: Tid, i: nat, y: Tally): Tally
    requires AEnabled(a, o)
  {
    match o
    case Invoke(u, _) => if u == t && Mine(a, t, i) then y.(pick := None, begun := y.begun + 1) else y
    case Commit(u) =>
      if u == t && Mine(a, t, i) then
        if EffectOf(a, t).attempt.Abort? then y.(aborted := y.aborted + 1) else y.(answered := y.answered + 1)
      else y
    case Pop(u) => if u == t && Mine(a, t, i) then y.(pick := None) else y
    case Arrive(u, cpu, cid) =>
      if u == t && Given(y.kind, cpu, cid) != AIndex(a.threads[t], y.kind) then y.(moved := y.moved + 1) else y
    case _ => y
  }

  /** A key that does not fit the thread's index. */
  predicate Wrong(th: AThread, key: Key) {
    AIndex(th, key.kind) != key.id
  }

  /** The key the program has picked, or is using, no longer fits. */
  predicate Stale(a: AState, t: Tid, i: nat, y: Tally) {
    && t in a.threads && i < |a.threads[t].stack|
    && match a.threads[t].stack[i]
       case Quiet => y.pick.Some? && Wrong(a.threads[t], y.pick.value)
       case Pending(call) => Wrong(a.threads[t], call.key)
       case Done(_, _) => false
  }

  function Ongoing(a: AState, t: Tid, i: nat): nat {
    if t in a.threads && i < |a.threads[t].stack| && a.threads[t].stack[i].Pending? then 1 else 0
  }

  /** Every abort has been paid for by a move, and so has a key that does not fit. */
  predicate Bounded(a: AState, t: Tid, i: nat, y: Tally) {
    && (y.pick.Some? ==> y.pick.value.kind == y.kind && t in a.threads && i < |a.threads[t].stack| && a.threads[t].stack[i].Quiet?)
    && (Ongoing(a, t, i) == 1 ==> a.threads[t].stack[i].call.key.kind == y.kind)
    && y.aborted + (if Stale(a, t, i, y) then 1 else 0) <= y.moved
    && y.begun == y.aborted + y.answered + Ongoing(a, t, i)
  }

  /** One step; a call begins with the key last picked. */
  lemma BoundedNext(a: AState, o: ALabel, t: Tid, i: nat, y: Tally)
    requires AEnabled(a, o) && Bounded(a, t, i, y)
    requires o.Invoke? && o.t == t && Mine(a, t, i) ==> y.pick == Some(o.call.key)
    ensures Bounded(ANext(a, o), t, i, TallyNext(a, o, t, i, y))
  {
    if o.Commit? && o.t == t && Mine(a, t, i) {
      CommitTally(a, t, i);
      hide Meaning, EffectOf;
    } else {
      hide EffectOf;
    }
  }

  /** A call aborts exactly if its key does not fit. */
  lemma CommitTally(a: AState, t: Tid, i: nat)
    requires IsPending(a, t) && Mine(a, t, i)
    ensures EffectOf(a, t).attempt.Abort? <==> Wrong(a.threads[t], CallOf(a, t).key)
  {
    hide WrapAdd;
  }

  /** What happens: a step of the machine, or a look of one program at an index of its thread. */
  datatype Act = Do(l: Label) | Look

  function Labels(acts: seq<Act>): seq<Label> {
    if acts == [] then []
    else Labels(acts[..|acts| - 1]) + match acts[|acts| - 1] case Do(l) => [l] case Look => []
  }

  lemma LabelsSnoc(cfg: Config, s: State, acts: seq<Act>)
    requires acts != [] && ValidRun(cfg, s, Labels(acts))
    ensures
      var front := Labels(acts[..|acts| - 1]);
      && ValidRun(cfg, s, front)
      && match acts[|acts| - 1]
         case Look => Labels(acts) == front
         case Do(l) => Labels(acts) == front + [l] && Enabled(cfg, StateAfter(cfg, s, front), l)
                       && StateAfter(cfg, s, Labels(acts)) == Next(cfg, StateAfter(cfg, s, front), l)
  {
    hide Enabled, Next;
    var front := Labels(acts[..|acts| - 1]);
    if acts[|acts| - 1].Do? {
      assert Labels(acts) == front + [acts[|acts| - 1].l];
      assert Labels(acts)[..|Labels(acts)| - 1] == front;
    } else {
      assert Labels(acts) == front;
    }
  }

  /** The tally along a run. A look counts if the program is running and between calls. */
  ghost function TallyAfter(cfg: Config, s: State, acts: seq<Act>, t: Tid, i: nat, y: Tally): Tally
    requires ValidRun(cfg, s, Labels(acts))
    decreases |acts|
  {
    if acts == [] then y
    else
      var front := acts[..|acts| - 1];
      LabelsSnoc(cfg, s, acts);
      var n, z := StateAfter(cfg, s, Labels(front)), TallyAfter(cfg, s, front, t, i, y);
      match acts[|acts| - 1]
      case Look =>
        if Resting(n, t) && |n.threads[t].stack| == i + 1 then z.(pick := Some(Key(z.kind, IndexOf(n.threads[t].area, z.kind)))) else z
      case Do(l) => if AEnabled(Abs(cfg, n), Observe(cfg, n, l)) then TallyNext(Abs(cfg, n), Observe(cfg, n, l), t, i, z) else z
  }

  /** The program begins every call with the key it has picked for it, looking again for every attempt. */
  ghost predicate LooksAnew(cfg: Config, s: State, acts: seq<Act>, t: Tid, i: nat, y: Tally)
    requires ValidRun(cfg, s, Labels(acts))
    decreases |acts|
  {
    acts != [] ==>
      var front := acts[..|acts| - 1];
      LabelsSnoc(cfg, s, acts);
      && LooksAnew(cfg, s, front, t, i, y)
      && match acts[|acts| - 1]
         case Look => true
         case Do(l) => l.Begin? && l.t == t && |StateAfter(cfg, s, Labels(front)).threads[t].stack| == i + 1 ==>
             TallyAfter(cfg, s, front, t, i, y).pick == Some(l.call.key)
  }

  /** The state that an act at a position finds. */
  ghost function Found(cfg: Config, s: State, acts: seq<Act>, k: nat): State
    requires ValidRun(cfg, s, Labels(acts)) && k < |acts|
  {
    ActsValid(cfg, s, acts, k);
    StateAfter(cfg, s, Labels(acts[..k]))
  }

  lemma {:induction false} ActsValid(cfg: Config, s: State, acts: seq<Act>, k: nat)
    requires ValidRun(cfg, s, Labels(acts)) && k <= |acts|
    ensures ValidRun(cfg, s, Labels(acts[..k]))
    decreases |acts|
  {
    hide ValidRun, StateAfter, Enabled, Next, Labels;
    if k == |acts| {
      assert acts[..k] == acts;
    } else {
      LabelsSnoc(cfg, s, acts);
      assert acts[..|acts| - 1][..k] == acts[..k];
      ActsValid(cfg, s, acts[..|acts| - 1], k);
    }
  }

  lemma FoundFront(cfg: Config, s: State, acts: seq<Act>)
    requires acts != [] && ValidRun(cfg, s, Labels(acts)) && ValidRun(cfg, s, Labels(acts[..|acts| - 1]))
    ensures Found(cfg, s, acts, |acts| - 1) == StateAfter(cfg, s, Labels(acts[..|acts| - 1]))
    ensures forall k: nat | k < |acts| - 1 :: Found(cfg, s, acts, k) == Found(cfg, s, acts[..|acts| - 1], k)
  {
    hide ValidRun, StateAfter, Enabled, Next, Labels;
    forall k: nat | k < |acts| - 1 ensures Found(cfg, s, acts, k) == Found(cfg, s, acts[..|acts| - 1], k) {
      assert acts[..|acts| - 1][..k] == acts[..k];
    }
  }

  /** The program begins a call. */
  predicate Begins(n: State, act: Act, t: Tid, i: nat) {
    act.Do? && act.l.Begin? && act.l.t == t && t in n.threads && |n.threads[t].stack| == i + 1
  }

  /** An instruction of the program settles its call, and it is on an index that is not the key's. */
  predicate Aborts(cfg: Config, n: State, act: Act, t: Tid, i: nat) {
    && act == Do(Step(t)) && Enabled(cfg, n, Step(t)) && |n.threads[t].stack| == i + 1
    && Observe(cfg, n, Step(t)) == Commit(t)
    && IndexOf(n.threads[t].area, Top(n.threads[t]).call.key.kind) != Top(n.threads[t]).call.key.id
  }

  /** The thread is put back on a CPU with another index. */
  predicate Moves(n: State, act: Act, t: Tid, kind: Kind) {
    && act.Do? && act.l.Resume? && act.l.t == t && t in n.threads
    && Given(kind, act.l.cpu, act.l.cid) != IndexOf(n.threads[t].area, kind)
  }

  lemma TallyStep(cfg: Config, n: State, l: Label, t: Tid, i: nat, z: Tally)
    requires Enabled(cfg, n, l) && AEnabled(Abs(cfg, n), Observe(cfg, n, l))
    ensures
      var y := TallyNext(Abs(cfg, n), Observe(cfg, n, l), t, i, z);
      && y.kind == z.kind
      && y.begun == z.begun + (if Begins(n, Do(l), t, i) then 1 else 0)
      && y.aborted == z.aborted + (if Aborts(cfg, n, Do(l), t, i) then 1 else 0)
      && y.moved == z.moved + (if Moves(n, Do(l), t, z.kind) then 1 else 0)
  {
    hide Block, Settled, Loaded, ExecTop, FixUp, EffectOf;
    if Observe(cfg, n, l) == Commit(t) && Mine(Abs(cfg, n), t, i) { CommitTally(Abs(cfg, n), t, i); }
  }

  /** A look at the index of the moment is never stale. */
  lemma LookBounded(cfg: Config, n: State, t: Tid, i: nat, y: Tally)
    requires Resting(n, t) && |n.threads[t].stack| == i + 1 && Bounded(Abs(cfg, n), t, i, y)
    ensures Bounded(Abs(cfg, n), t, i, y.(pick := Some(Key(y.kind, IndexOf(n.threads[t].area, y.kind)))))
  {
    hide Block, Settled;
  }

  /** Every abort of the program, in every disciplined run, has been paid for by a move of its thread. */
  lemma {:induction false} AttemptsRun(cfg: Config, s: State, acts: seq<Act>, t: Tid, i: nat, y: Tally)
    requires Inv(cfg, s) && ValidRun(cfg, s, Labels(acts)) && DisciplinedRun(cfg, s, Labels(acts))
    requires Bounded(Abs(cfg, s), t, i, y) && LooksAnew(cfg, s, acts, t, i, y)
    ensures Inv(cfg, StateAfter(cfg, s, Labels(acts)))
    ensures Bounded(Abs(cfg, StateAfter(cfg, s, Labels(acts))), t, i, TallyAfter(cfg, s, acts, t, i, y))
    decreases |acts|
  {
    hide Enabled, Next, ANext, AEnabled, Abs, Observe, Inv, Disciplined, Bounded, TallyNext, Mine;
    if acts != [] {
      var front, act := acts[..|acts| - 1], acts[|acts| - 1];
      LabelsSnoc(cfg, s, acts);
      if act.Do? { assert Labels(acts)[..|Labels(acts)| - 1] == Labels(front); }
      AttemptsRun(cfg, s, front, t, i, y);
      var n, z := StateAfter(cfg, s, Labels(front)), TallyAfter(cfg, s, front, t, i, y);
      match act
      case Look =>
        if Resting(n, t) && |n.threads[t].stack| == i + 1 { LookBounded(cfg, n, t, i, z); }
      case Do(l) =>
        StepSafe(cfg, n, l);
        BeginsMine(cfg, n, l, t, i);
        BoundedNext(Abs(cfg, n), Observe(cfg, n, l), t, i, z);
    }
  }

  lemma BeginsMine(cfg: Config, n: State, l: Label, t: Tid, i: nat)
    requires Enabled(cfg, n, l)
    ensures
      var o := Observe(cfg, n, l);
      o.Invoke? && o.t == t && Mine(Abs(cfg, n), t, i) ==> l.Begin? && l.t == t && t in n.threads && |n.threads[t].stack| == i + 1 && o.call == l.call
  {
    hide AbsContext;
  }

  /** The call at depth `i` aborts or has aborted exactly if its key does not fit the index, which is so or not. */
  predicate Decided(a: AState, t: Tid, i: nat, call: Call, fits: bool) {
    && t in a.threads && i < |a.threads[t].stack|
    && match a.threads[t].stack[i]
       case Quiet => false
       case Pending(c) => c == call && (Wrong(a.threads[t], call.key) <==> !fits)
       case Done(c, attempt) => c == call && (attempt.Abort? <==> !fits)
  }

  lemma DecidedNext(a: AState, o: ALabel, t: Tid, i: nat, call: Call, fits: bool)
    requires AEnabled(a, o) && Decided(a, t, i, call, fits)
    requires Wrong(ANext(a, o).threads[t], call.key) <==> Wrong(a.threads[t], call.key)
    requires i < |ANext(a, o).threads[t].stack| && !ANext(a, o).threads[t].stack[i].Quiet?
    ensures Decided(ANext(a, o), t, i, call, fits)
  {
    if o == Commit(t) && Mine(a, t, i) { CommitTally(a, t, i); }
    hide EffectOf;
  }

  lemma UnderwayAbove(cfg: Config, n: State, t: Tid, i: nat, call: Call)
    requires Underway(n, t, i, call)
    ensures
      var a := Abs(cfg, n);
      && t in a.threads && i < |a.threads[t].stack| && a.threads[t].stack[i] == AbsContext(cfg, ContextAt(n, t, i, call))
      && !a.threads[t].stack[i].Quiet? && a.threads[t].cpuId == n.threads[t].area.cpuId && a.threads[t].mmCid == n.threads[t].area.mmCid
  {
    hide Block, Settled;
  }

  /** Whenever the thread is put back on a CPU, it is with this index of that kind. */
  predicate KeepsIndex(ls: seq<Label>, t: Tid, kind: Kind, index: u32) {
    forall k | 0 <= k < |ls| && ls[k].Resume? && ls[k].t == t :: Given(kind, ls[k].cpu, ls[k].cid) == index
  }

  /** Nothing but a resumption changes an index. */
  lemma IndexNext(cfg: Config, s: State, l: Label, t: Tid, kind: Kind)
    requires Enabled(cfg, s, l) && t in s.threads
    ensures
      t in Next(cfg, s, l).threads && IndexOf(Next(cfg, s, l).threads[t].area, kind)
      == if l.Resume? && l.t == t then Given(kind, l.cpu, l.cid) else IndexOf(s.threads[t].area, kind)
  {
    hide Block, FixUp, Loaded, ExecTop;
  }

  /** A call whose thread is not moved answers Abort exactly if its key does not fit from the start. */
  lemma {:induction false} StaysDecided(cfg: Config, s: State, ls: seq<Label>, t: Tid, i: nat, call: Call, index: u32)
    requires Inv(cfg, s) && ValidRun(cfg, s, ls) && DisciplinedRun(cfg, s, ls) && Throughout(cfg, s, ls, t, i, call)
    requires Begun(s, t, i, call) && IndexOf(s.threads[t].area, call.key.kind) == index && KeepsIndex(ls, t, call.key.kind, index)
    ensures Inv(cfg, StateAfter(cfg, s, ls)) && Decided(Abs(cfg, StateAfter(cfg, s, ls)), t, i, call, index == call.key.id)
    ensures t in StateAfter(cfg, s, ls).threads && IndexOf(StateAfter(cfg, s, ls).threads[t].area, call.key.kind) == index
    decreases |ls|
  {
    if ls == [] {
      UnderwayAbove(cfg, s, t, i, call);
      BegunPending(cfg, s, t, i, call);
      hide Abs, AbsContext, Inv, Block;
    } else {
      hide Enabled, Next, ANext, AEnabled, Abs, Observe, Inv, Disciplined, Decided, Underway, Begun;
      var front, l := ls[..|ls| - 1], ls[|ls| - 1];
      StaysDecided(cfg, s, front, t, i, call, index);
      var n := StateAfter(cfg, s, front);
      StepSafe(cfg, n, l);
      IndexNext(cfg, n, l, t, call.key.kind);
      UnderwayAbove(cfg, n, t, i, call);
      UnderwayAbove(cfg, StateAfter(cfg, s, ls), t, i, call);
      DecidedNext(Abs(cfg, n), Observe(cfg, n, l), t, i, call, index == call.key.id);
    }
  }

  /** A call whose thread keeps its index while it is underway, whatever else interrupts it, aborts if and only if
      that index is not the key's. */
  lemma MoveDecides(cfg: Config, s: State, ls: seq<Label>, t: Tid, i: nat, call: Call)
    requires Inv(cfg, s) && ValidRun(cfg, s, ls) && DisciplinedRun(cfg, s, ls) && Throughout(cfg, s, ls, t, i, call)
    requires Begun(s, t, i, call) && KeepsIndex(ls, t, call.key.kind, IndexOf(s.threads[t].area, call.key.kind))
    ensures
      var ctx := ContextAt(StateAfter(cfg, s, ls), t, i, call);
      Answered(cfg, ctx) ==> (Settled(cfg, ctx).Abort? <==> IndexOf(s.threads[t].area, call.key.kind) != call.key.id)
  {
    assert t in s.threads;
    hide Abs, AbsContext, Inv, DisciplinedRun, ValidRun, StateAfter, Begun, Settled, Block, KeepsIndex;
    StaysDecided(cfg, s, ls, t, i, call, IndexOf(s.threads[t].area, call.key.kind));
    ThroughoutEnd(cfg, s, ls, t, i, call);
    UnderwayAbove(cfg, StateAfter(cfg, s, ls), t, i, call);
    AnsweredDone(cfg, ContextAt(StateAfter(cfg, s, ls), t, i, call));
  }

  lemma ThroughoutEnd(cfg: Config, s: State, ls: seq<Label>, t: Tid, i: nat, call: Call)
    requires ValidRun(cfg, s, ls) && Throughout(cfg, s, ls, t, i, call)
    ensures Underway(StateAfter(cfg, s, ls), t, i, call)
  {
  }

  lemma BegunPending(cfg: Config, s: State, t: Tid, i: nat, call: Call)
    requires Begun(s, t, i, call)
    ensures AbsContext(cfg, ContextAt(s, t, i, call)) == Pending(call)
  {
    EveryBlockWellFormed(cfg.arch, OpcodeOf(call.op), call.key.kind);
    Ranged(BlockOf(cfg.arch, call), OpcodeOf(call.op), call.key.kind);
    hide Block, WellFormed;
  }

  lemma AnsweredDone(cfg: Config, ctx: Context)
    ensures ctx.Active? && Answered(cfg, ctx) ==> AbsContext(cfg, ctx) == Done(ctx.call, Settled(cfg, ctx))
  {
    hide Block, Settled;
  }

  /** A retry loop with a fresh look for every attempt aborts at most as often as its thread is moved; so an add,
      which never misses and after which the loop ends, is begun at most once more than that. */
  lemma LoopAttempts(cfg: Config, s: State, acts: seq<Act>, t: Tid, i: nat, kind: Kind)
    requires Inv(cfg, s) && ValidRun(cfg, s, Labels(acts)) && DisciplinedRun(cfg, s, Labels(acts))
    requires t in s.threads && i < |s.threads[t].stack| && s.threads[t].stack[i].Idle?
    requires LooksAnew(cfg, s, acts, t, i, NoneYet(kind))
    ensures
      var y, n := TallyAfter(cfg, s, acts, t, i, NoneYet(kind)), Abs(cfg, StateAfter(cfg, s, Labels(acts)));
      && y.aborted <= y.moved && y.begun == y.aborted + y.answered + Ongoing(n, t, i)
      && (y.answered + Ongoing(n, t, i) <= 1 ==> y.begun <= y.moved + 1)
  {
    IdleAbove(cfg, s, t, i);
    hide Abs, Inv, DisciplinedRun, ValidRun, StateAfter, LooksAnew, TallyAfter, Labels;
    AttemptsRun(cfg, s, acts, t, i, NoneYet(kind));
  }

  /** The tally counts what it says, each once: calls begun, calls settled away from their index, and moves. */
  lemma {:induction false} TallyCounted(cfg: Config, s: State, acts: seq<Act>, t: Tid, i: nat, kind: Kind)
    requires Inv(cfg, s) && ValidRun(cfg, s, Labels(acts)) && DisciplinedRun(cfg, s, Labels(acts))
    ensures Inv(cfg, StateAfter(cfg, s, Labels(acts)))
    ensures
      var y := TallyAfter(cfg, s, acts, t, i, NoneYet(kind));
      && y.kind == kind
      && y.begun == |set k: nat | k < |acts| && Begins(Found(cfg, s, acts, k), acts[k], t, i)|
      && y.aborted == |set k: nat | k < |acts| && Aborts(cfg, Found(cfg, s, acts, k), acts[k], t, i)|
      && y.moved == |set k: nat | k < |acts| && Moves(Found(cfg, s, acts, k), acts[k], t, kind)|
    decreases |acts|
  {
    hide Enabled, Next, ANext, AEnabled, Abs, Observe, Inv, Disciplined, TallyNext, Mine, Begins, Aborts, Moves, Found;
    if acts != [] {
      var m, front, act := |acts| - 1, acts[..|acts| - 1], acts[|acts| - 1];
      LabelsSnoc(cfg, s, acts);
      if act.Do? { assert Labels(acts)[..|Labels(acts)| - 1] == Labels(front); }
      TallyCounted(cfg, s, front, t, i, kind);
      FoundFront(cfg, s, acts);
      var n, z := StateAfter(cfg, s, Labels(front)), TallyAfter(cfg, s, front, t, i, NoneYet(kind));
      match act {
        case Look => LooksOnly(cfg, n, t, i, kind);
        case Do(l) =>
          StepSafe(cfg, n, l);
          TallyStep(cfg, n, l, t, i, z);
      }
      OneMorePosition((set k: nat | k < m && Begins(Found(cfg, s, front, k), front[k], t, i)),
                      (set k: nat | k < |acts| && Begins(Found(cfg, s, acts, k), acts[k], t, i)), m, Begins(n, act, t, i));
      OneMorePosition((set k: nat | k < m && Aborts(cfg, Found(cfg, s, front, k), front[k], t, i)),
                      (set k: nat | k < |acts| && Aborts(cfg, Found(cfg, s, acts, k), acts[k], t, i)), m, Aborts(cfg, n, act, t, i));
      OneMorePosition((set k: nat | k < m && Moves(Found(cfg, s, front, k), front[k], t, kind)),
                      (set k: nat | k < |acts| && Moves(Found(cfg, s, acts, k), acts[k], t, kind)), m, Moves(n, act, t, kind));
    }
  }

  lemma LooksOnly(cfg: Config, n: State, t: Tid, i: nat, kind: Kind)
    ensures !Begins(n, Look, t, i) && !Aborts(cfg, n, Look, t, i) && !Moves(n, Look, t, kind)
  {
  }

  lemma IdleAbove(cfg: Config, s: State, t: Tid, i: nat)
    requires t in s.threads && i < |s.threads[t].stack| && s.threads[t].stack[i].Idle?
    ensures var a := Abs(cfg, s); t in a.threads && i < |a.threads[t].stack| && a.threads[t].stack[i].Quiet?
  {
  }
}
