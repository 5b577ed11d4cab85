/** Each block, run without interruption, does what its call means. */
module Semantics {
  import opened Bits
  import opened Ops
  import opened Isa
  import opened Operands
  import opened Blocks
  import opened Stepping

  lemma CompareExchangeFaithful(p: Program, env: Env, call: Call, c: Core, m: Mem)
    requires CompareExchangeShape(p, call.key.kind) && call.op.CompareExchange?
    requires c.pc == p.start && Loaded(call, env.area, c.regs)
    ensures Faithful(p, env, call, c, map[], m)
  {
    var e := Meaning(call, Index(env, call.key.kind), m);
    var g := Claim(p, env, e.access, Rest(e.attempt, e.mem));
    hide Holds, Low32, Armed, Checked, Exits, MissAt, FromStatus, WrapAdd, Index;
    var c3 := IndexChecked(g, call, c, m);
    if Index(env, call.key.kind) == call.key.id {
      var c4 := LoadStep(g, c3, m, Current, WordPtr);
      var c5 := CmpStep(g, c4, m, Current, Expected);
      var c6 := BranchStep(g, c5, m, !c5.eq, p.post + 2);
      if c5.eq {
        var c7, n := StoreStep(g, c6, m, Update, WordPtr);
        CommitExit(g, c7, n);
      } else {
        MissExit(g, c6, m);
      }
    }
  }

  lemma FetchAddFaithful(p: Program, env: Env, call: Call, c: Core, m: Mem)
    requires FetchAddShape(p, call.key.kind) && call.op.FetchAdd?
    requires c.pc == p.start && Loaded(call, env.area, c.regs)
    ensures Faithful(p, env, call, c, map[], m)
  {
    var e := Meaning(call, Index(env, call.key.kind), m);
    var g := Claim(p, env, e.access, Rest(e.attempt, e.mem));
    hide Holds, Low32, Armed, Checked, Exits, MissAt, FromStatus, WrapAdd, Index;
    var c3 := IndexChecked(g, call, c, m);
    if Index(env, call.key.kind) == call.key.id {
      if p.post == p.start + 6 {
        var c4 := LoadStep(g, c3, m, Prev, WordPtr);
        var c5 := AddStep(g, c4, m, Sum, Prev, Count);
        var c6, n := StoreStep(g, c5, m, Sum, WordPtr);
        CommitExit(g, c6, n);
      } else {
        var c4 := MovStep(g, c3, m, Prev, Count);
        var c5, n := XaddStep(g, c4, m, WordPtr, Prev);
        CommitExit(g, c5, n);
      }
    }
  }

  lemma StoreIfFaithful(p: Program, env: Env, call: Call, c: Core, m: Mem)
    requires StoreIfShape(p, call.key.kind) && call.op.StoreIf?
    requires c.pc == p.start && Loaded(call, env.area, c.regs)
    ensures Faithful(p, env, call, c, map[], m)
  {
    var e := Meaning(call, Index(env, call.key.kind), m);
    var g := Claim(p, env, e.access, Rest(e.attempt, e.mem));
    hide Holds, Low32, Armed, Checked, Exits, MissAt, FromStatus, WrapAdd, Index;
    var c3 := IndexChecked(g, call, c, m);
    if Index(env, call.key.kind) == call.key.id {
      var c4 := LoadStep(g, c3, m, Current, WordPtr);
      var c5 := CmpStep(g, c4, m, Current, Expected);
      var c6 := BranchStep(g, c5, m, !c5.eq, p.post + 2);
      if c5.eq {
        var c7, n := StoreStep(g, c6, m, SideUpdate, SidePtr);
        var c8, k := StoreStep(g, c7, n, Update, WordPtr);
        CommitExit(g, c8, k);
      } else {
        MissExit(g, c6, m);
      }
    }
  }

  /** The end of `compare_exchange_if`, once the first compare has passed. */
  lemma SecondCompare(g: Claim, kind: Kind, c: Core, m: Mem)
    requires CompareExchangeIfShape(g.p, kind) && c.pc == g.p.start + 6 && Get(c.regs, OtherPtr) in g.access
    requires
      var seen := Read(m, Get(c.regs, OtherPtr));
      if seen == Get(c.regs, OtherExpected) then
        && Get(c.regs, WordPtr) in g.access
        && g.rest == Rest(Ok(Get(c.regs, Current)), m[Get(c.regs, WordPtr) := Get(c.regs, Update)])
      else g.rest == Rest(Miss(seen), m)
    ensures Holds(g, c, m)
  {
    hide Holds, Armed, Checked, Exits, MissAt, FromStatus;
    var c7 := LoadStep(g, c, m, OtherVal, OtherPtr);
    var c8 := CmpStep(g, c7, m, OtherVal, OtherExpected);
    var c9 := BranchStep(g, c8, m, !c8.eq, g.p.post + 2);
    if c8.eq {
      var c10, n := StoreStep(g, c9, m, Update, WordPtr);
      CommitExit(g, c10, n);
    } else {
      var c10 := MovStep(g, c9, m, Current, OtherVal);
      MissExit(g, c10, m);
    }
  }

  lemma CompareExchangeIfFaithful(p: Program, env: Env, call: Call, c: Core, m: Mem)
    requires CompareExchangeIfShape(p, call.key.kind) && call.op.CompareExchangeIf?
    requires c.pc == p.start && Loaded(call, env.area, c.regs)
    ensures Faithful(p, env, call, c, map[], m)
  {
    var e := Meaning(call, Index(env, call.key.kind), m);
    var g := Claim(p, env, e.access, Rest(e.attempt, e.mem));
    hide Holds, Low32, Armed, Checked, Exits, MissAt, FromStatus, WrapAdd, Index;
    var c3 := IndexChecked(g, call, c, m);
    if Index(env, call.key.kind) == call.key.id {
      var c4 := LoadStep(g, c3, m, Current, WordPtr);
      var c5 := CmpStep(g, c4, m, Current, Expected);
      var c6 := BranchStep(g, c5, m, !c5.eq, p.post + 3);
      if c5.eq {
        SecondCompare(g, call.key.kind, c6, m);
      } else {
        MissExit(g, c6, m);
      }
    }
  }

  /** The end of `load_if_ne`, once the compare has passed: one instruction or two to get at the target. */
  lemma ChaseAndStore(g: Claim, kind: Kind, c: Core, m: Mem)
    requires LoadIfNeShape(g.p, kind) && c.pc == g.p.start + 6
    requires
      var chase := WrapAdd(Get(c.regs, Current), Get(c.regs, Offset));
      && chase in g.access && Get(c.regs, WordPtr) in g.access
      && g.rest == Rest(Ok(Get(c.regs, Current)), m[Get(c.regs, WordPtr) := Read(m, chase)])
    ensures Holds(g, c, m)
  {
    hide Holds, Armed, Checked, Exits, MissAt, FromStatus, WrapAdd;
    var c8;
    if g.p.post == g.p.start + 9 {
      c8 := AddStep(g, c, m, Chase, Current, Offset);
    } else {
      var c7 := MovStep(g, c, m, Chase, Current);
      c8 := AddStep(g, c7, m, Chase, Chase, Offset);
    }
    var c9 := LoadStep(g, c8, m, Chase, Chase);
    var c10, n := StoreStep(g, c9, m, Chase, WordPtr);
    CommitExit(g, c10, n);
  }

  lemma LoadIfNeFaithful(p: Program, env: Env, call: Call, c: Core, m: Mem)
    requires LoadIfNeShape(p, call.key.kind) && call.op.LoadIfNe?
    requires c.pc == p.start && Loaded(call, env.area, c.regs)
    ensures Faithful(p, env, call, c, map[], m)
  {
    var e := Meaning(call, Index(env, call.key.kind), m);
    var g := Claim(p, env, e.access, Rest(e.attempt, e.mem));
    hide Holds, Low32, Armed, Checked, Exits, MissAt, FromStatus, WrapAdd, Index;
    var c3 := IndexChecked(g, call, c, m);
    if Index(env, call.key.kind) == call.key.id {
      var c4 := LoadStep(g, c3, m, Current, WordPtr);
      var c5 := CmpStep(g, c4, m, Current, Avoided);
      var c6 := BranchStep(g, c5, m, c5.eq, p.post + 2);
      if c5.eq {
        MissExit(g, c6, m);
      } else {
        ChaseAndStore(g, call.key.kind, c6, m);
      }
    }
  }

  /** The end of `fetch_add_at`, once `Slot` holds the target: three instructions or two. */
  lemma AddThroughSlot(g: Claim, kind: Kind, c: Core, m: Mem)
    requires FetchAddAtShape(g.p, kind) && c.pc == g.p.start + 6
    requires
      var a := Get(c.regs, Slot);
      && a in g.access
      && g.rest == Rest(Ok(Read(m, a)), m[a := WrapAdd(Read(m, a), Get(c.regs, Count))])
    ensures Holds(g, c, m)
  {
    hide Holds, Armed, Checked, Exits, MissAt, FromStatus, WrapAdd;
    if g.p.post == g.p.start + 9 {
      var c7 := LoadStep(g, c, m, Prev, Slot);
      var c8 := AddStep(g, c7, m, Sum, Prev, Count);
      var c9, n := StoreStep(g, c8, m, Sum, Slot);
      CommitExit(g, c9, n);
    } else {
      var c7 := MovStep(g, c, m, Prev, Count);
      var c8, n := XaddStep(g, c7, m, Slot, Prev);
      CommitExit(g, c8, n);
    }
  }

  lemma FetchAddAtFaithful(p: Program, env: Env, call: Call, c: Core, m: Mem)
    requires FetchAddAtShape(p, call.key.kind) && call.op.FetchAddAt?
    requires c.pc == p.start && Loaded(call, env.area, c.regs)
    ensures Faithful(p, env, call, c, map[], m)
  {
    var e := Meaning(call, Index(env, call.key.kind), m);
    var g := Claim(p, env, e.access, Rest(e.attempt, e.mem));
    hide Holds, Low32, Armed, Checked, Exits, MissAt, FromStatus, WrapAdd, Index;
    var c3 := IndexChecked(g, call, c, m);
    if Index(env, call.key.kind) == call.key.id {
      var c4 := LoadStep(g, c3, m, Base, WordPtr);
      var c5 := AddStep(g, c4, m, Base, Base, Offset);
      var c6 := LoadStep(g, c5, m, Slot, Base);
      AddThroughSlot(g, call.key.kind, c6, m);
    }
  }

  lemma EveryCompareExchange(arch: Arch, env: Env, call: Call, c: Core, m: Mem)
    requires call.op.CompareExchange? && c.pc == BlockOf(arch, call).start && Loaded(call, env.area, c.regs)
    ensures Faithful(BlockOf(arch, call), env, call, c, map[], m)
  {
    hide Faithful, Loaded, CompareExchangeShape;
    var p, kind := BlockOf(arch, call), call.key.kind;
    if arch == Arm { ArmCompareExchange(kind); } else { IntelCompareExchange(kind); }
    CompareExchangeFaithful(p, env, call, c, m);
  }

  lemma EveryFetchAdd(arch: Arch, env: Env, call: Call, c: Core, m: Mem)
    requires call.op.FetchAdd? && c.pc == BlockOf(arch, call).start && Loaded(call, env.area, c.regs)
    ensures Faithful(BlockOf(arch, call), env, call, c, map[], m)
  {
    hide Faithful, Loaded, FetchAddShape;
    var p, kind := BlockOf(arch, call), call.key.kind;
    if arch == Arm { ArmFetchAdd(kind); } else { IntelFetchAdd(kind); }
    FetchAddFaithful(p, env, call, c, m);
  }

  lemma EveryStoreIf(arch: Arch, env: Env, call: Call, c: Core, m: Mem)
    requires call.op.StoreIf? && c.pc == BlockOf(arch, call).start && Loaded(call, env.area, c.regs)
    ensures Faithful(BlockOf(arch, call), env, call, c, map[], m)
  {
    hide Faithful, Loaded, StoreIfShape;
    var p, kind := BlockOf(arch, call), call.key.kind;
    if arch == Arm { ArmStoreIf(kind); } else { IntelStoreIf(kind); }
    StoreIfFaithful(p, env, call, c, m);
  }

  lemma EveryCompareExchangeIf(arch: Arch, env: Env, call: Call, c: Core, m: Mem)
    requires call.op.CompareExchangeIf? && c.pc == BlockOf(arch, call).start && Loaded(call, env.area, c.regs)
    ensures Faithful(BlockOf(arch, call), env, call, c, map[], m)
  {
    hide Faithful, Loaded, CompareExchangeIfShape;
    var p, kind := BlockOf(arch, call), call.key.kind;
    if arch == Arm { ArmCompareExchangeIf(kind); } else { IntelCompareExchangeIf(kind); }
    CompareExchangeIfFaithful(p, env, call, c, m);
  }

  lemma EveryLoadIfNe(arch: Arch, env: Env, call: Call, c: Core, m: Mem)
    requires call.op.LoadIfNe? && c.pc == BlockOf(arch, call).start && Loaded(call, env.area, c.regs)
    ensures Faithful(BlockOf(arch, call), env, call, c, map[], m)
  {
    hide Faithful, Loaded, LoadIfNeShape;
    var p, kind := BlockOf(arch, call), call.key.kind;
    if arch == Arm { ArmLoadIfNe(kind); } else { IntelLoadIfNe(kind); }
    LoadIfNeFaithful(p, env, call, c, m);
  }

  lemma EveryFetchAddAt(arch: Arch, env: Env, call: Call, c: Core, m: Mem)
    requires call.op.FetchAddAt? && c.pc == BlockOf(arch, call).start && Loaded(call, env.area, c.regs)
    ensures Faithful(BlockOf(arch, call), env, call, c, map[], m)
  {
    hide Faithful, Loaded, FetchAddAtShape;
    var p, kind := BlockOf(arch, call), call.key.kind;
    if arch == Arm { ArmFetchAddAt(kind); } else { IntelFetchAddAt(kind); }
    FetchAddAtFaithful(p, env, call, c, m);
  }

  /** Run undisturbed from its range start, any block of either backend does exactly what its call means. */
  lemma EveryBlockFaithful(arch: Arch, env: Env, call: Call, c: Core, m: Mem)
    requires c.pc == BlockOf(arch, call).start && Loaded(call, env.area, c.regs)
    ensures Faithful(BlockOf(arch, call), env, call, c, map[], m)
  {
    hide Block, Faithful, Loaded;
    match call.op
    case CompareExchange(_, _, _) => EveryCompareExchange(arch, env, call, c, m);
    case FetchAdd(_, _) => EveryFetchAdd(arch, env, call, c, m);
    case StoreIf(_, _, _, _, _) => EveryStoreIf(arch, env, call, c, m);
    case CompareExchangeIf(_, _, _, _, _) => EveryCompareExchangeIf(arch, env, call, c, m);
    case LoadIfNe(_, _, _) => EveryLoadIfNe(arch, env, call, c, m);
    case FetchAddAt(_, _, _) => EveryFetchAddAt(arch, env, call, c, m);
  }
}
