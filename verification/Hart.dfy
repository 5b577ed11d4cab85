/** One thread executing a block in place, with a kernel that may take it away before any instruction. */
module Execution {
  import opened Bits
  import opened Ops
  import opened Isa
  import opened Operands
  import opened Blocks
  import opened Machine
  import opened Sections
  import opened Registers
  import opened Backends
  import opened Refinement

  /** What happens next to the thread: one instruction of it, or it is off its CPU for a while and comes
      back, restarted if it has to be, on another CPU and to a memory others have changed. */
  datatype Turn = Go | Away(mem: Mem, cpuId: u32, mmCid: u32)

  /** Where and when a call took effect: the memory and the index it found, the memory it left, how many turns had
      passed when the thread was last put on a CPU before that, and how many when the call was over. */
  datatype Pass = Pass(base: Mem, index: u32, committed: Mem, away: nat, spent: nat)

  /** The call took effect in one pass, undisturbed: on what the thread came back to, or on what it started with. */
  predicate Fits(pass: Pass, turns: seq<Turn>, m: Mem, index: u32, kind: Kind) {
    && pass.away <= pass.spent <= |turns|
    && if pass.away == 0 then pass.base == m && pass.index == index
       else
         var t := turns[pass.away - 1];
         t.Away? && pass.base == t.mem && pass.index == match kind case CpuIndex => t.cpuId case CidIndex => t.mmCid
  }

  predicate NeverAway(turns: seq<Turn>) {
    forall i | 0 <= i < |turns| :: turns[i].Go?
  }

  /** The last time the thread was away within some turns. */
  function Latest(turns: seq<Turn>): (t: Option<Turn>)
    ensures t.Some? ==> t.value.Away?
  {
    if turns == [] then None
    else if turns[|turns| - 1].Away? then Some(turns[|turns| - 1])
    else Latest(turns[..|turns| - 1])
  }

  lemma {:induction false} LatestNone(turns: seq<Turn>)
    ensures Latest(turns) == None <==> NeverAway(turns)
  {
    if turns != [] && turns[|turns| - 1].Go? {
      LatestNone(turns[..|turns| - 1]);
      assert turns == turns[..|turns| - 1] + [turns[|turns| - 1]];
    }
  }

  lemma {:induction false} LatestIsLast(turns: seq<Turn>, j: nat)
    requires j < |turns| && turns[j].Away? && NeverAway(turns[j + 1..])
    ensures Latest(turns) == Some(turns[j])
  {
    var n := |turns| - 1;
    if j < n {
      assert turns[n] == turns[j + 1..][n - j - 1];
      assert turns[..n][j + 1..] == turns[j + 1..][..n - j - 1];
      LatestIsLast(turns[..n], j);
    }
  }

  lemma LatestTurn(turns: seq<Turn>, from: nat, i: nat)
    requires from <= i < |turns|
    ensures Latest(turns[from..i + 1]) == if turns[i].Away? then Some(turns[i]) else Latest(turns[from..i])
  {
    assert turns[from..i + 1] == turns[from..i] + [turns[i]];
  }

  lemma LatestPart(turns: seq<Turn>, from: nat, to: nat)
    requires from <= to <= |turns| && NeverAway(turns)
    ensures Latest(turns[from..to]) == None
  {
    LatestNone(turns[from..to]);
  }

  /** The indices at the end: those the thread was last put on a CPU with. */
  predicate Indices(turns: seq<Turn>, spent: nat, before: Hold, after: Hold) {
    && spent <= |turns|
    && match Latest(turns[..spent])
       case None => after.cpuId == before.cpuId && after.mmCid == before.mmCid
       case Some(t) => after.cpuId == t.cpuId && after.mmCid == t.mmCid
  }

  /** Memory at the end: what the call has left, or what the thread has come back to since. */
  predicate Leaves(pass: Pass, turns: seq<Turn>, m: Mem) {
    && pass.away <= pass.spent <= |turns|
    && match Latest(turns[pass.away..pass.spent])
       case None => m == pass.committed
       case Some(t) => m == t.mem
  }

  /** The account of a call so far: where its pass began, what has changed on the way, and whether it has committed. */
  predicate Account(turns: seq<Turn>, before: Hold, kind: Kind, h: Hold, pass: Pass, done: bool) {
    && Fits(pass, turns, before.mem, IndexIn(before, kind), kind)
    && Indices(turns, pass.spent, before, h)
    && if done then Leaves(pass, turns, h.mem) else Latest(turns[pass.away..pass.spent]) == None
  }

  function IndexIn(h: Hold, kind: Kind): u32 {
    match kind case CpuIndex => h.cpuId case CidIndex => h.mmCid
  }

  lemma AccountStarts(turns: seq<Turn>, before: Hold, kind: Kind, h: Hold)
    requires h.cpuId == before.cpuId && h.mmCid == before.mmCid
    ensures Account(turns, before, kind, h, Pass(before.mem, IndexIn(before, kind), before.mem, 0, 0), false)
  {
  }

  /** Instructions change no index, and only those of a call that has not committed change memory. */
  lemma AccountKept(turns: seq<Turn>, before: Hold, kind: Kind, h: Hold, pass: Pass, done: bool, n: Hold)
    requires Account(turns, before, kind, h, pass, done)
    requires n.cpuId == h.cpuId && n.mmCid == h.mmCid && (done ==> n.mem == h.mem)
    ensures Account(turns, before, kind, n, pass, done)
    ensures !done ==> Account(turns, before, kind, n, pass.(committed := n.mem), true)
  {
  }

  lemma AccountGoes(turns: seq<Turn>, before: Hold, kind: Kind, h: Hold, pass: Pass, done: bool)
    requires Account(turns, before, kind, h, pass, done) && pass.spent < |turns| && turns[pass.spent].Go?
    ensures Account(turns, before, kind, h, pass.(spent := pass.spent + 1), done)
  {
    SpendTurn(turns, pass);
    hide Latest;
  }

  lemma AccountLeaves(turns: seq<Turn>, before: Hold, kind: Kind, h: Hold, pass: Pass, n: Hold)
    requires Account(turns, before, kind, h, pass, true) && pass.spent < |turns|
    requires turns[pass.spent] == Away(n.mem, n.cpuId, n.mmCid)
    ensures Account(turns, before, kind, n, pass.(spent := pass.spent + 1), true)
  {
    SpendTurn(turns, pass);
    hide Latest;
  }

  lemma AccountReturns(turns: seq<Turn>, before: Hold, kind: Kind, h: Hold, pass: Pass, n: Hold)
    requires Account(turns, before, kind, h, pass, false) && pass.spent < |turns|
    requires turns[pass.spent] == Away(n.mem, n.cpuId, n.mmCid)
    ensures Account(turns, before, kind, n, Pass(n.mem, IndexIn(n, kind), n.mem, pass.spent + 1, pass.spent + 1), false)
  {
    SpendTurn(turns, pass);
    assert Latest(turns[pass.spent + 1..pass.spent + 1]) == None;
    hide Latest;
  }

  lemma SpendTurn(turns: seq<Turn>, pass: Pass)
    requires pass.away <= pass.spent < |turns|
    ensures
      var t := turns[pass.spent];
      && Latest(turns[..pass.spent + 1]) == (if t.Away? then Some(t) else Latest(turns[..pass.spent]))
      && Latest(turns[pass.away..pass.spent + 1]) == if t.Away? then Some(t) else Latest(turns[pass.away..pass.spent])
  {
    LatestTurn(turns, 0, pass.spent);
    LatestTurn(turns, pass.away, pass.spent);
  }

  lemma AccountEnds(turns: seq<Turn>, before: Hold, kind: Kind, h: Hold, pass: Pass)
    requires Account(turns, before, kind, h, pass, true)
    ensures Fits(pass, turns, before.mem, IndexIn(before, kind), kind)
    ensures Leaves(pass, turns, h.mem) && Indices(turns, pass.spent, before, h)
    ensures NeverAway(turns) ==> pass.away == 0 && h.mem == pass.committed && h.cpuId == before.cpuId && h.mmCid == before.mmCid
  {
    if NeverAway(turns) {
      LatestPart(turns, 0, pass.spent);
      LatestPart(turns, pass.away, pass.spent);
    }
    hide Latest;
  }

  /** All of a thread and its memory. */
  datatype Hold = Hold(core: Core, mem: Mem, cs: usize, cpuId: u32, mmCid: u32)

  /** Back from being away: at the abort point, if it was in the range of the armed block. */
  function Returned(p: Program, site: usize, h: Hold, t: Turn): Hold
    requires t.Away?
  {
    var core := if h.cs == site && InRange(p, h.core.pc) then h.core.(pc := p.abort) else h.core;
    Hold(core, t.mem, 0, t.cpuId, t.mmCid)
  }

  function Executed(p: Program, site: usize, area: usize, h: Hold): Hold
    requires h.core.pc < |p.code|
  {
    var e := Exec(p.code[h.core.pc], Env(site, area, h.cpuId, h.mmCid), h.core, h.mem);
    Hold(e.core, After(h.mem, e.store), if e.cs.Some? then e.cs.value else h.cs, h.cpuId, h.mmCid)
  }

  /** Turn by turn to the end of the block; without further turns, instruction by instruction. */
  function Course(p: Program, site: usize, area: usize, h: Hold, turns: seq<Turn>): Hold
    decreases |turns|, |p.code| - h.core.pc
  {
    if h.core.pc >= |p.code| then h
    else if turns != [] && turns[0].Away? then Course(p, site, area, Returned(p, site, h, turns[0]), turns[1..])
    else
      var n := Executed(p, site, area, h);
      if n.core.pc <= h.core.pc then n
      else Course(p, site, area, n, if turns == [] then [] else turns[1..])
  }

  lemma CourseTurn(p: Program, site: usize, area: usize, h: Hold, turns: seq<Turn>, i: nat)
    requires h.core.pc < |p.code| && i <= |turns|
    ensures i < |turns| && turns[i].Away? ==>
              Course(p, site, area, h, turns[i..]) == Course(p, site, area, Returned(p, site, h, turns[i]), turns[i + 1..])
    ensures !(i < |turns| && turns[i].Away?) && h.core.pc < Executed(p, site, area, h).core.pc ==>
              Course(p, site, area, h, turns[i..])
              == Course(p, site, area, Executed(p, site, area, h), turns[if i < |turns| then i + 1 else i..])
  {
    hide Returned, Executed;
    if i < |turns| { assert turns[i..][1..] == turns[i + 1..]; } else { assert turns[i..] == []; }
  }

  lemma CourseEnds(p: Program, site: usize, area: usize, h: Hold, turns: seq<Turn>)
    requires h.core.pc >= |p.code|
    ensures Course(p, site, area, h, turns) == h
  {
  }

  /** A call that has not committed: left alone from here, it does what it means on `base`. */
  ghost predicate Ahead(cfg: Config, site: usize, call: Call, a: Area, c: Core, m: Mem, base: Mem) {
    var p := BlockOf(cfg.arch, call);
    var e := Meaning(call, IndexOf(a, call.key.kind), base);
    && ContextOk(cfg, a, Active(call, site, c, map[])) && c.pc < p.post && (InRange(p, c.pc) ==> a.cs == site)
    && Remaining(p, EnvOf(a, site), c, m) == Rest(e.attempt, e.mem)
  }

  /** A call that has: its answer is settled. */
  ghost predicate Behind(cfg: Config, site: usize, call: Call, a: Area, c: Core, answer: Attempt) {
    && ContextOk(cfg, a, Active(call, site, c, map[])) && BlockOf(cfg.arch, call).post <= c.pc
    && Settled(cfg, Active(call, site, c, map[])) == answer
  }

  lemma Starts(cfg: Config, site: usize, call: Call, a: Area, c: Core, m: Mem)
    requires site in cfg.sites && cfg.sites[site] == Site(OpcodeOf(call.op), call.key.kind)
    requires c.pc == 0 && Loaded(call, a.addr, c.regs)
    ensures Ahead(cfg, site, call, a, c, m, m)
  {
    EveryBlockWellFormed(cfg.arch, OpcodeOf(call.op), call.key.kind);
    AbortInside(BlockOf(cfg.arch, call), OpcodeOf(call.op), call.key.kind);
    IndexAgrees(a, site, call.key.kind);
    hide Block, WellFormed, Loaded, Meaning, Remaining;
    Undisturbed(cfg.arch, EnvOf(a, site), call, c, m);
  }

  /** Coming back from being away: the pass is abandoned, and its next one will see the new memory. */
  lemma ComesBack(cfg: Config, site: usize, call: Call, a: Area, c: Core, m: Mem, base: Mem, b: Area, n: Mem)
    requires Ahead(cfg, site, call, a, c, m, base) && b.addr == a.addr && b.cs == 0
    ensures
      var p := BlockOf(cfg.arch, call);
      Ahead(cfg, site, call, b, if a.cs == site && InRange(p, c.pc) then c.(pc := p.abort) else c, n, n)
  {
    var p := BlockOf(cfg.arch, call);
    var d := if a.cs == site && InRange(p, c.pc) then c.(pc := p.abort) else c;
    BackBefore(cfg, site, call, a, c, m, base, b, d);
    IndexAgrees(b, site, call.key.kind);
    hide Block, ContextOk, Loaded, Meaning, Remaining;
    Undisturbed(cfg.arch, EnvOf(b, site), call, d, n);
  }

  /** The pass is before its range, with its operands. */
  lemma BackBefore(cfg: Config, site: usize, call: Call, a: Area, c: Core, m: Mem, base: Mem, b: Area, d: Core)
    requires Ahead(cfg, site, call, a, c, m, base) && b.addr == a.addr
    requires var p := BlockOf(cfg.arch, call); d == if a.cs == site && InRange(p, c.pc) then c.(pc := p.abort) else c
    ensures ContextOk(cfg, b, Active(call, site, d, map[])) && Loaded(call, b.addr, d.regs)
    ensures (d.pc == 0 || 2 <= d.pc <= BlockOf(cfg.arch, call).start) && d.pc < BlockOf(cfg.arch, call).start < BlockOf(cfg.arch, call).post
  {
    var p, opcode, kind := BlockOf(cfg.arch, call), OpcodeOf(call.op), call.key.kind;
    EveryBlockWellFormed(cfg.arch, opcode, kind);
    AbortInside(p, opcode, kind);
    AbortIsTwo(p, opcode, kind);
    hide Block, WellFormed, Loaded, Meaning, Remaining, PageOffset;
  }

  /** An instruction on the way, or the committing one. */
  lemma Executes(cfg: Config, site: usize, call: Call, a: Area, c: Core, m: Mem, base: Mem, e: Result)
    requires Ahead(cfg, site, call, a, c, m, base) && c.pc < |BlockOf(cfg.arch, call).code|
    requires e == Exec(BlockOf(cfg.arch, call).code[c.pc], EnvOf(a, site), c, m)
    ensures
      var b := if e.cs.Some? then a.(cs := e.cs.value) else a;
      var effect := Meaning(call, IndexOf(a, call.key.kind), base);
      if e.core.pc < BlockOf(cfg.arch, call).post then Ahead(cfg, site, call, b, e.core, After(m, e.store), base)
      else Behind(cfg, site, call, b, e.core, effect.attempt) && After(m, e.store) == effect.mem
    ensures e.core.pc > c.pc
  {
    var p, opcode, kind := BlockOf(cfg.arch, call), OpcodeOf(call.op), call.key.kind;
    var ctx := Active(call, site, c, map[]);
    var b := if e.cs.Some? then a.(cs := e.cs.value) else a;
    EveryBlockWellFormed(cfg.arch, opcode, kind);
    AbortInside(p, opcode, kind);
    NextPc(p, opcode, kind, EnvOf(a, site), c, m, e);
    hide Block, WellFormed, Exec, Meaning, Loaded, TmpOk, PageOffset;
    assert Remaining(p, EnvOf(a, site), e.core, After(m, e.store)) == Remaining(p, EnvOf(a, site), c, m);
    if c.pc < p.start { EntryStep(cfg, a, ctx, m, e); } else { RangeStep(cfg, a, ctx, m, e); }
    SameContext(cfg, a, b, Active(call, site, e.core, map[]), Stepped(cfg, ctx, e, m));
    if p.post <= e.core.pc {
      TailSettled(p, opcode, kind, EnvOf(a, site), e.core, After(m, e.store));
    }
  }

  lemma SameContext(cfg: Config, a: Area, b: Area, x: Context, y: Context)
    requires x.Active? && y.Active? && x.call == y.call && x.site == y.site && x.core == y.core && b.addr == a.addr
    requires ContextOk(cfg, a, y)
    ensures ContextOk(cfg, b, x)
  {
    hide Block, Loaded;
  }

  lemma StaysBehind(cfg: Config, site: usize, call: Call, a: Area, c: Core, answer: Attempt, b: Area)
    requires Behind(cfg, site, call, a, c, answer) && b.addr == a.addr
    ensures Behind(cfg, site, call, b, c, answer) && !InRange(BlockOf(cfg.arch, call), c.pc)
  {
    hide Block, Loaded, Settled;
  }

  lemma Winds(cfg: Config, site: usize, call: Call, a: Area, c: Core, m: Mem, answer: Attempt, e: Result)
    requires Behind(cfg, site, call, a, c, answer) && c.pc < |BlockOf(cfg.arch, call).code|
    requires e == Exec(BlockOf(cfg.arch, call).code[c.pc], EnvOf(a, site), c, m)
    ensures e.cs.None? && e.store.None? && e.core.pc > c.pc && Behind(cfg, site, call, a, e.core, answer)
  {
    var p, opcode, kind := BlockOf(cfg.arch, call), OpcodeOf(call.op), call.key.kind;
    EveryBlockWellFormed(cfg.arch, opcode, kind);
    AbortInside(p, opcode, kind);
    hide Block, WellFormed, Exec, Loaded, PageOffset;
    TailExec(p, opcode, kind, EnvOf(a, site), c, m, e);
    assert Exec(p.code[c.pc], NOWHERE, c, map[]) == e;
    SettledStep(cfg, Active(call, site, c, map[]), m, e);
    SettledCore(cfg, Active(call, site, e.core, map[]), Stepped(cfg, Active(call, site, c, map[]), e, m));
  }

  class Hart {
    const area: usize
    var mem: Mem
    var cs: usize
    var cpuId: u32
    var mmCid: u32
    var core: Core

    constructor (area: usize, mem: Mem, cpuId: u32, mmCid: u32)
      ensures this.area == area && this.mem == mem && this.cs == 0 && this.cpuId == cpuId && this.mmCid == mmCid
    {
      this.area, this.mem, this.cs, this.cpuId, this.mmCid := area, mem, 0, cpuId, mmCid;
      this.core := Core(0, map[], false);
    }

    function Surroundings(site: usize): Env
      reads this
    {
      Env(site, area, cpuId, mmCid)
    }

    function Number(kind: Kind): u32
      reads this
    {
      match kind case CpuIndex => cpuId case CidIndex => mmCid
    }

    function Now(): Hold
      reads this
    {
      Hold(core, mem, cs, cpuId, mmCid)
    }

    /** How a call entered now will end. */
    function Ending(arch: Arch, call: Call, site: usize, regs: map<Reg, usize>, turns: seq<Turn>): Hold
      reads this
    {
      Course(BlockOf(arch, call), site, area, Now().(core := Core(0, regs, core.eq)), turns)
    }

    /** The kernel returns to user space. */
    method Resume(p: Program, site: usize, m: Mem, cpu: u32, cid: u32)
      modifies this
      ensures core == if old(cs) == site && InRange(p, old(core).pc) then old(core).(pc := p.abort) else old(core)
      ensures mem == m && cpuId == cpu && mmCid == cid && cs == 0
    {
      if cs == site && InRange(p, core.pc) { core := core.(pc := p.abort); }
      mem, cpuId, mmCid, cs := m, cpu, cid, 0;
    }

    /** One instruction. */
    method Execute(p: Program, site: usize)
      requires core.pc < |p.code|
      modifies this
      ensures var e := Exec(p.code[old(core).pc], old(Surroundings(site)), old(core), old(mem));
              core == e.core && mem == After(old(mem), e.store) && cs == if e.cs.Some? then e.cs.value else old(cs)
      ensures cpuId == old(cpuId) && mmCid == old(mmCid)
    {
      var e := Exec(p.code[core.pc], Surroundings(site), core, mem);
      core := e.core;
      if e.cs.Some? { cs := e.cs.value; }
      if e.store.Some? { mem := mem[e.store.value.addr := e.store.value.value]; }
    }

    function Rseq(): Area
      reads this
    {
      Area(area, cpuId, mmCid, cs)
    }

    /** One attempt of a word operation, whatever turns it takes: the answer and the memory at the commit are
        what the call means on one memory, at one place. */
    method Perform(arch: Arch, call: Call, site: usize, regs: map<Reg, usize>, turns: seq<Turn>)
      returns (answer: Attempt, ghost pass: Pass)
      requires Loaded(call, area, regs)
      modifies this
      ensures answer == Meaning(call, pass.index, pass.base).attempt
      ensures pass.committed == Meaning(call, pass.index, pass.base).mem
      ensures Fits(pass, turns, old(mem), old(Number(call.key.kind)), call.key.kind)
      ensures Leaves(pass, turns, mem) && Indices(turns, pass.spent, old(Now()), Now())
      ensures Now() == old(Ending(arch, call, site, regs, turns))
      ensures var p := BlockOf(arch, call); answer == FromStatus(Get(core.regs, p.status), Get(core.regs, p.value))
      ensures NeverAway(turns) ==> pass.away == 0 && mem == pass.committed && cpuId == old(cpuId) && mmCid == old(mmCid)
    {
      hide NeverAway, Ahead, Behind, Meaning, Exec, Loaded, Block, FromStatus, Course, Latest, Leaves, Indices, Fits, Account;
      ghost var before, course := Now(), Ending(arch, call, site, regs, turns);
      ghost var kind, cfg := call.key.kind, Config(arch, map[site := Site(OpcodeOf(call.op), call.key.kind)]);
      var p := BlockOf(arch, call);
      core := Core(0, regs, core.eq);
      Starts(cfg, site, call, Rseq(), core, mem);
      AccountStarts(turns, before, kind, Now());
      var i := 0;
      assert turns[i..] == turns;
      pass := Pass(mem, Number(kind), mem, 0, 0);
      answer := Abort;
      ghost var done, settled := false, Abort;
      while core.pc < |p.code|
        invariant i <= |turns| && i == pass.spent
        invariant Course(p, site, area, Now(), turns[i..]) == course
        invariant Account(turns, before, kind, Now(), pass, done)
        invariant if done then Behind(cfg, site, call, Rseq(), core, settled)
                               && settled == Meaning(call, pass.index, pass.base).attempt
                               && pass.committed == Meaning(call, pass.index, pass.base).mem
                  else Ahead(cfg, site, call, Rseq(), core, mem, pass.base) && pass.index == IndexOf(Rseq(), kind)
        decreases |turns| - i, |p.code| - core.pc
      {
        ghost var a, c, m, h := Rseq(), core, mem, Now();
        CourseTurn(p, site, area, h, turns, i);
        if i < |turns| && turns[i].Away? {
          Resume(p, site, turns[i].mem, turns[i].cpuId, turns[i].mmCid);
          if done {
            StaysBehind(cfg, site, call, a, c, settled, Rseq());
            AccountLeaves(turns, before, kind, h, pass, Now());
            pass := pass.(spent := i + 1);
          } else {
            ComesBack(cfg, site, call, a, c, m, pass.base, Rseq(), mem);
            AccountReturns(turns, before, kind, h, pass, Now());
            pass := Pass(mem, IndexOf(Rseq(), kind), mem, i + 1, i + 1);
          }
          i := i + 1;
        } else {
          Execute(p, site);
          ghost var e := Exec(p.code[c.pc], EnvOf(a, site), c, m);
          if done { Winds(cfg, site, call, a, c, m, settled, e); } else { Executes(cfg, site, call, a, c, m, pass.base, e); }
          AccountKept(turns, before, kind, h, pass, done, Now());
          if !done && p.post <= core.pc {
            done, settled, pass := true, Meaning(call, pass.index, pass.base).attempt, pass.(committed := mem);
          }
          if i < |turns| {
            AccountGoes(turns, before, kind, Now(), pass, done);
            i := i + 1;
            pass := pass.(spent := i);
          }
          assert Now() == Executed(p, site, area, h);
        }
      }
      answer := FromStatus(Get(core.regs, p.status), Get(core.regs, p.value));
      Finished(cfg, site, call, Rseq(), core, mem, pass.base, settled);
      assert done;
      CourseEnds(p, site, area, Now(), turns[i..]);
      AccountEnds(turns, before, kind, Now(), pass);
    }
  }

  /** At the end of the block the call has committed, and the outputs hold its answer. */
  lemma Finished(cfg: Config, site: usize, call: Call, a: Area, c: Core, m: Mem, base: Mem, settled: Attempt)
    requires c.pc >= |BlockOf(cfg.arch, call).code|
    ensures !Ahead(cfg, site, call, a, c, m, base)
    ensures
      var p := BlockOf(cfg.arch, call);
      Behind(cfg, site, call, a, c, settled) ==> settled == FromStatus(Get(c.regs, p.status), Get(c.regs, p.value))
  {
    EveryBlockWellFormed(cfg.arch, OpcodeOf(call.op), call.key.kind);
    AbortInside(BlockOf(cfg.arch, call), OpcodeOf(call.op), call.key.kind);
    hide Block, WellFormed, Loaded, Meaning, Exec;
  }
}
