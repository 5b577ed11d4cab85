/** The two backends compute the same, however often and wherever a call is interrupted. */
module Backends {
  import opened Bits
  import opened Ops
  import opened Isa
  import opened Operands
  import opened Blocks
  import opened Stepping
  import opened Semantics
  import opened Sections
  import opened Registers

  /** From anywhere before its range, a pass nobody disturbs does exactly what the call means. */
  lemma Undisturbed(arch: Arch, env: Env, call: Call, c: Core, m: Mem)
    requires (c.pc == 0 || 2 <= c.pc <= BlockOf(arch, call).start) && Loaded(call, env.area, c.regs)
    ensures
      var e := Meaning(call, Index(env, call.key.kind), m);
      Remaining(BlockOf(arch, call), env, c, m) == Rest(e.attempt, e.mem)
  {
    var p, opcode, kind := BlockOf(arch, call), OpcodeOf(call.op), call.key.kind;
    EveryBlockWellFormed(arch, opcode, kind);
    AbortInside(p, opcode, kind);
    AbortIsTwo(p, opcode, kind);
    hide Exec, Block, WellFormed, Meaning, Loaded;
    var d := Climb(p, opcode, kind, env, call, c, m);
    EveryBlockFaithful(arch, env, call, d, m);
  }

  /** The way up to the index check. */
  lemma Climb(p: Program, opcode: Opcode, kind: Kind, env: Env, call: Call, c: Core, m: Mem) returns (d: Core)
    requires WellFormed(p, opcode, kind) && (c.pc == 0 || p.abort <= c.pc <= p.start) && Loaded(call, env.area, c.regs)
    ensures d.pc == p.start && Loaded(call, env.area, d.regs)
    ensures Remaining(p, env, c, m) == Remaining(p, env, d, m)
    decreases p.start - c.pc
  {
    AbortInside(p, opcode, kind);
    if c.pc == p.start {
      d := c;
    } else {
      var e := Exec(p.code[c.pc], env, c, m);
      NextPc(p, opcode, kind, env, c, m, e);
      TargetOk(p, opcode, kind, c.pc);
      WritesTarget(p.code[c.pc], env, c, m, e);
      EntryQuiet(p, opcode, kind, env, c, m, e);
      hide Exec, WellFormed, Target, Sources;
      LoadedKept(call, env.area, c.regs, e.core.regs);
      hide Loaded;
      d := Climb(p, opcode, kind, env, call, e.core, m);
    }
  }

  lemma EntryQuiet(p: Program, opcode: Opcode, kind: Kind, env: Env, c: Core, m: Mem, e: Result)
    requires WellFormed(p, opcode, kind) && (c.pc == 0 || p.abort <= c.pc < p.start)
    requires e == Exec(p.code[c.pc], env, c, m)
    ensures e.store.None? && e.core.pc <= p.start
  {
    hide Checked, InstrOk, ScratchOk, Low32, PageOffset, WrapAdd;
  }

  /** An emitted block left alone ends as the block on its operands does. */
  lemma {:induction false} EmittedRemaining(p: Program, opcode: Opcode, kind: Kind, alloc: Alloc, env: Env, c: Core, d: Core, m: Mem)
    requires WellFormed(p, opcode, kind) && Allocates(p, alloc) && Alike(p, alloc, c, d)
    requires !IsInput(p.status) && !IsInput(p.value)
    ensures Remaining(Emitted(p, alloc), env, d, m) == Remaining(p, env, c, m)
    decreases |p.code| - c.pc
  {
    hide Exec, WellFormed, Renamed, Sources, Target;
    if c.pc < |p.code| {
      var e := Exec(p.code[c.pc], env, c, m);
      NextPc(p, opcode, kind, env, c, m, e);
      AlikeStep(p, opcode, kind, alloc, c, d, Tick(env, m));
      hide Allocates, Alike;
      EmittedRemaining(p, opcode, kind, alloc, env, e.core, Exec(Emitted(p, alloc).code[d.pc], env, d, m).core, After(m, e.store));
    }
  }

  /** A call that has been entered with its operands in the registers of an assignment. */
  predicate Entered(alloc: Alloc, call: Call, area: usize, d: Core) {
    d.pc == 0 && Loaded(call, area, Operand(alloc, d.regs))
  }

  /** However often and wherever a call is interrupted before it commits, whatever others do to memory
      meanwhile and wherever it is moved, what it does in the end is what its last pass alone would do. */
  lemma LastPassDecides(arch: Arch, call: Call, alloc: Alloc, area: usize, d: Core, evs: seq<Event>, env: Env, m: Mem)
    requires Allocates(BlockOf(arch, call), alloc) && Entered(alloc, call, area, d) && env.area == area
    requires CanRun(Emitted(BlockOf(arch, call), alloc), d, evs)
    requires End(Emitted(BlockOf(arch, call), alloc), d, evs).pc < BlockOf(arch, call).post
    ensures
      var q := Emitted(BlockOf(arch, call), alloc);
      var e := Meaning(call, Index(env, call.key.kind), m);
      Remaining(q, env, End(q, d, evs).(pc := q.abort), m) == Rest(e.attempt, e.mem)
  {
    var p, q, opcode, kind := BlockOf(arch, call), Emitted(BlockOf(arch, call), alloc), OpcodeOf(call.op), call.key.kind;
    var c := Core(0, Operand(alloc, d.regs), d.eq);
    EveryBlockWellFormed(arch, opcode, kind);
    EntryAlike(p, alloc, d);
    hide Block, Exec, Meaning, Loaded, Allocates, Alike, Remaining;
    AnyAllocation(arch, call, alloc, c, d, evs);
    InputsStay(p, opcode, kind, c, evs);
    var c2, d2 := End(p, c, evs), End(q, d, evs);
    assert InputsKept(c.regs, c2.regs) by { AlikePc(p, alloc, c2, d2); }
    LoadedKept(call, area, c.regs, c2.regs);
    var c3, d3 := c2.(pc := p.abort), d2.(pc := q.abort);
    Restarted(p, opcode, kind, alloc, c2, d2);
    EmittedRemaining(p, opcode, kind, alloc, env, c3, d3, m);
    AbortIsTwo(p, opcode, kind);
    AbortInside(p, opcode, kind);
    Undisturbed(arch, env, call, c3, m);
  }

  lemma AlikePc(p: Program, alloc: Alloc, c: Core, d: Core)
    requires Alike(p, alloc, c, d)
    ensures c.pc == d.pc
  {
  }

  lemma AbortIsTwo(p: Program, opcode: Opcode, kind: Kind)
    requires WellFormed(p, opcode, kind)
    ensures p.abort == 2 && !IsInput(p.status) && !IsInput(p.value)
  {
  }

  lemma Restarted(p: Program, opcode: Opcode, kind: Kind, alloc: Alloc, c: Core, d: Core)
    requires WellFormed(p, opcode, kind) && Alike(p, alloc, c, d) && c.pc < p.post
    ensures Alike(p, alloc, c.(pc := p.abort), d.(pc := p.abort)) && !IsInput(p.status) && !IsInput(p.value)
    ensures Emitted(p, alloc).abort == p.abort
  {
    AbortIsTwo(p, opcode, kind);
    AbortInside(p, opcode, kind);
    hide WellFormed;
  }

  /** So the x86_64 and the aarch64 block of a call give the same answer and leave the same memory, under
      any two register assignments and any two histories of interruptions. */
  lemma BackendsAgree(call: Call, area: usize, env: Env, m: Mem, alloc: Alloc, d: Core, evs: seq<Event>, alloc2: Alloc, d2: Core, evs2: seq<Event>)
    requires env.area == area
    requires Allocates(BlockOf(Arm, call), alloc) && Entered(alloc, call, area, d)
    requires CanRun(Emitted(BlockOf(Arm, call), alloc), d, evs)
    requires End(Emitted(BlockOf(Arm, call), alloc), d, evs).pc < BlockOf(Arm, call).post
    requires Allocates(BlockOf(Intel, call), alloc2) && Entered(alloc2, call, area, d2)
    requires CanRun(Emitted(BlockOf(Intel, call), alloc2), d2, evs2)
    requires End(Emitted(BlockOf(Intel, call), alloc2), d2, evs2).pc < BlockOf(Intel, call).post
    ensures
      var p, q := Emitted(BlockOf(Arm, call), alloc), Emitted(BlockOf(Intel, call), alloc2);
      Remaining(p, env, End(p, d, evs).(pc := p.abort), m) == Remaining(q, env, End(q, d2, evs2).(pc := q.abort), m)
  {
    hide *;
    LastPassDecides(Arm, call, alloc, area, d, evs, env, m);
    LastPassDecides(Intel, call, alloc2, area, d2, evs2, env, m);
  }

  function Ticks(evs: seq<Event>): nat {
    if evs == [] then 0 else (if evs[0].Tick? then 1 else 0) + Ticks(evs[1..])
  }

  function Restarts(evs: seq<Event>): nat {
    if evs == [] then 0 else (if evs[0].Restart? then 1 else 0) + Restarts(evs[1..])
  }

  /** Every event is an instruction or a restart, and counts once. */
  lemma {:induction false} EventsCounted(evs: seq<Event>, more: seq<Event>)
    ensures Ticks(evs) + Restarts(evs) == |evs|
    ensures Ticks(evs + more) == Ticks(evs) + Ticks(more) && Restarts(evs + more) == Restarts(evs) + Restarts(more)
    ensures |evs| == 1 ==> (Ticks(evs) == 1 <==> evs[0].Tick?)
  {
    if evs == [] {
      assert evs + more == more;
    } else {
      EventsCounted(evs[1..], more);
      assert (evs + more)[1..] == evs[1..] + more;
    }
  }

  /** What is left of a bound after one more event. */
  lemma OneMore(ticks: nat, restarts: nat, pc: nat, next: nat, size: nat, restart: bool)
    requires ticks + next <= (restarts + 1) * size && (if restart then pc <= size else pc < next)
    ensures if restart then ticks + pc <= (restarts + 2) * size else 1 + ticks + pc <= (restarts + 1) * size
  {
    assert (restarts + 2) * size == (restarts + 1) * size + size;
  }

  /** A call restarted `k` times executes at most `k + 1` times the length of its block. */
  lemma {:induction false} Terminates(p: Program, opcode: Opcode, kind: Kind, c: Core, evs: seq<Event>)
    requires WellFormed(p, opcode, kind) && (c.pc == 0 || p.abort <= c.pc <= |p.code|) && CanRun(p, c, evs)
    ensures Ticks(evs) + c.pc <= (Restarts(evs) + 1) * |p.code|
    decreases |evs|
  {
    hide Exec, WellFormed;
    AbortInside(p, opcode, kind);
    if evs == [] {
      assert (Restarts(evs) + 1) * |p.code| == |p.code|;
    } else {
      var d, rest := Happens(p, c, evs[0]), evs[1..];
      if evs[0].Tick? {
        NextPc(p, opcode, kind, evs[0].env, c, evs[0].m, Exec(p.code[c.pc], evs[0].env, c, evs[0].m));
      }
      Terminates(p, opcode, kind, d, rest);
      OneMore(Ticks(rest), Restarts(rest), c.pc, d.pc, |p.code|, evs[0].Restart?);
    }
  }
}
