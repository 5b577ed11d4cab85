/** What a completed membarrier rules out, and what it does not. */
module Fences {
  import opened Bits
  import opened Ops
  import opened Isa
  import opened Operands
  import opened Blocks
  import opened Machine
  import opened Sections
  import opened Refinement
  import opened IndexCheck

  predicate Inside(cfg: Config, s: State, t: Tid) {
    t in s.threads && s.threads[t].stack != [] && InSection(cfg, Top(s.threads[t]))
  }

  /** `t` has been in one pass of one section from `s` to the end of the run. */
  ghost predicate SamePass(cfg: Config, s: State, ls: seq<Label>, t: Tid)
    requires ValidRun(cfg, s, ls)
    decreases |ls|
  {
    Inside(cfg, StateAfter(cfg, s, ls), t) && (ls != [] ==> SamePass(cfg, s, ls[..|ls| - 1], t))
  }

  /** A pass that survives a step was not moved by it. */
  lemma StaysPut(cfg: Config, s: State, l: Label, t: Tid)
    requires Enabled(cfg, s, l) && AllArmed(cfg, s) && Inside(cfg, s, t) && Inside(cfg, Next(cfg, s, l), t)
    ensures var th, next := s.threads[t], Next(cfg, s, l).threads[t]; next.place == th.place || next.place.Off?
  {
    hide Exec, Block, ContextOk, Loaded, Kick;
    KickLeavesSection(cfg, s.threads[t]);
  }

  /** Right after a membarrier, the siblings still in a section are those it did not interrupt. */
  lemma Survivor(cfg: Config, s: State, caller: Tid, cpu: Option<u32>, t: Tid)
    requires AllArmed(cfg, s) && t in s.threads
    ensures
      Inside(cfg, Fenced(cfg, s, caller, cpu), t) <==> Inside(cfg, s, t) && !Hit(s, caller, cpu, t)
    ensures Inside(cfg, s, t) && !Hit(s, caller, cpu, t) ==> Fenced(cfg, s, caller, cpu).threads[t] == s.threads[t]
    ensures Fenced(cfg, s, caller, cpu).threads[t].place == s.threads[t].place
  {
    assert ThreadArmed(cfg, s.threads[t]);
    KickLeavesSection(cfg, s.threads[t]);
    hide Block, ContextOk, Kick;
  }

  lemma FenceFrame(cfg: Config, s: State, caller: Tid, cpu: Option<u32>)
    ensures Fenced(cfg, s, caller, cpu).threads.Keys == s.threads.Keys
    ensures Fenced(cfg, s, caller, cpu).mem == s.mem
  {
    hide Kick;
  }

  /** After `fence(cpu)`, no pass begun before it runs on `cpu` any more, however the run goes on. */
  lemma {:induction false} FenceCpuCuts(cfg: Config, s: State, caller: Tid, cpu: u32, ls: seq<Label>, t: Tid)
    requires AllArmed(cfg, s) && Enabled(cfg, s, FenceCpu(caller, cpu)) && t != caller
    requires
      var s1 := Next(cfg, s, FenceCpu(caller, cpu));
      ValidRun(cfg, s1, ls) && SamePass(cfg, s1, ls, t)
    ensures StateAfter(cfg, Next(cfg, s, FenceCpu(caller, cpu)), ls).threads[t].place != On(cpu)
    decreases |ls|
  {
    hide Block, Fenced, AllArmed, InSection;
    var s1 := Next(cfg, s, FenceCpu(caller, cpu));
    ArmedNext(cfg, s, FenceCpu(caller, cpu));
    if ls == [] {
      assert s1.threads.Keys == s.threads.Keys by { FenceFrame(cfg, s, caller, Some(cpu)); }
      Survivor(cfg, s, caller, Some(cpu), t);
    } else {
      var front := ls[..|ls| - 1];
      FenceCpuCuts(cfg, s, caller, cpu, front, t);
      ArmedRun(cfg, s1, front);
      hide Next, Enabled;
      assert SamePass(cfg, s1, front, t);
      StaysPut(cfg, StateAfter(cfg, s1, front), ls[|ls| - 1], t);
    }
  }

  /** After `fence_all`, no pass begun before it runs anywhere. */
  lemma {:induction false} FenceAllCuts(cfg: Config, s: State, caller: Tid, ls: seq<Label>, t: Tid)
    requires AllArmed(cfg, s) && Enabled(cfg, s, FenceAll(caller)) && t != caller
    requires
      var s1 := Next(cfg, s, FenceAll(caller));
      ValidRun(cfg, s1, ls) && SamePass(cfg, s1, ls, t)
    ensures StateAfter(cfg, Next(cfg, s, FenceAll(caller)), ls).threads[t].place.Off?
    decreases |ls|
  {
    hide Block, Fenced, AllArmed, InSection;
    var s1 := Next(cfg, s, FenceAll(caller));
    ArmedNext(cfg, s, FenceAll(caller));
    if ls == [] {
      assert s1.threads.Keys == s.threads.Keys by { FenceFrame(cfg, s, caller, None); }
      Survivor(cfg, s, caller, None, t);
    } else {
      var front := ls[..|ls| - 1];
      FenceAllCuts(cfg, s, caller, front, t);
      ArmedRun(cfg, s1, front);
      hide Next, Enabled;
      assert SamePass(cfg, s1, front, t);
      StaysPut(cfg, StateAfter(cfg, s1, front), ls[|ls| - 1], t);
    }
  }

  /** So an old pass can never commit to a `CpuId` word of the fenced CPU, nor touch memory at all for such a
      call: it is not running, or the index it was checked against is no longer its own. */
  lemma NoOldCommit(cfg: Config, s: State, caller: Tid, cpu: u32, ls: seq<Label>, t: Tid)
    requires AllArmed(cfg, s) && AllChecked(cfg, s) && Placed(s) && Enabled(cfg, s, FenceCpu(caller, cpu)) && t != caller
    requires
      var s1 := Next(cfg, s, FenceCpu(caller, cpu));
      ValidRun(cfg, s1, ls) && SamePass(cfg, s1, ls, t)
    ensures
      var n := StateAfter(cfg, Next(cfg, s, FenceCpu(caller, cpu)), ls);
      Enabled(cfg, n, Step(t)) && Top(n.threads[t]).call.key == Key(CpuIndex, cpu) ==>
        ExecTop(cfg, n.threads[t], n.mem).store == None && ExecTop(cfg, n.threads[t], n.mem).load == None
  {
    var s1 := Next(cfg, s, FenceCpu(caller, cpu));
    FenceCpuCuts(cfg, s, caller, cpu, ls, t);
    ArmedNext(cfg, s, FenceCpu(caller, cpu));
    CheckedNext(cfg, s, FenceCpu(caller, cpu));
    PlacedNext(cfg, s, FenceCpu(caller, cpu));
    CheckedRun(cfg, s1, ls);
    var n := StateAfter(cfg, s1, ls);
    hide Block, Next, AllArmed, AllChecked, ExecTop, StateAfter;
    if Enabled(cfg, n, Step(t)) && Top(n.threads[t]).call.key == Key(CpuIndex, cpu) {
      AwayTouchesNothing(cfg, n, t);
    }
  }

  /** The same after `fence_all`, whatever the key: an old pass does not execute anything any more. */
  lemma NoOldStep(cfg: Config, s: State, caller: Tid, ls: seq<Label>, t: Tid)
    requires AllArmed(cfg, s) && Enabled(cfg, s, FenceAll(caller)) && t != caller
    requires
      var s1 := Next(cfg, s, FenceAll(caller));
      ValidRun(cfg, s1, ls) && SamePass(cfg, s1, ls, t)
    ensures !Enabled(cfg, StateAfter(cfg, Next(cfg, s, FenceAll(caller)), ls), Step(t))
  {
    FenceAllCuts(cfg, s, caller, ls, t);
    hide Next, AllArmed, SamePass, Inside, Block, Exec;
  }

  /** `fence(cpu)` does not drain a cid word: exactly the passes on other CPUs survive it, unchanged. */
  lemma FenceCpuSpares(cfg: Config, s: State, caller: Tid, cpu: u32, t: Tid)
    requires AllArmed(cfg, s) && Enabled(cfg, s, FenceCpu(caller, cpu)) && InLiveSection(cfg, s, t)
    ensures
      var n := Next(cfg, s, FenceCpu(caller, cpu));
      && (InLiveSection(cfg, n, t) <==> s.threads[t].place.cpu != cpu)
      && (InLiveSection(cfg, n, t) ==> n.threads[t] == s.threads[t] && n.mem == s.mem)
  {
    hide Block, Fenced, AllArmed, InSection, Kick;
    assert t != caller by { RestingOutside(cfg, s, caller); }
    Survivor(cfg, s, caller, Some(cpu), t);
    FenceFrame(cfg, s, caller, Some(cpu));
  }

  lemma RestingOutside(cfg: Config, s: State, t: Tid)
    requires Resting(s, t)
    ensures !InLiveSection(cfg, s, t)
  {
  }
}
