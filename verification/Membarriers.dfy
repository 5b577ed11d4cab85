/** The process-wide membarrier and what `fork` does to it: a child inherits the statics, not the kernel's
    registration of its memory map. */
module Membarriers {
  import opened Bits

  /** `READY` and `USED`, and whether the kernel has this memory map registered. */
  datatype Flags = Flags(ready: Option<bool>, used: bool, registered: bool)

  /** A command the kernel has carried out: in which memory map, and for one CPU or for all. */
  datatype Done = Done(mm: nat, cpu: Option<nat>)

  /** A process: its flags, its memory map, and what the kernel has carried out for it and its ancestors. */
  datatype State = State(flags: Flags, mm: nat, log: seq<Done>)

  datatype Errno = Eperm | OtherErrno

  /** How the kernel will answer during one call: whether registering works, the first time and on retry, and
      whether the command fails for a reason of its own, the first time and on retry. */
  datatype Kernel = Kernel(registers: bool, reregisters: bool, fault: bool, refault: bool)

  const WORKS: Kernel := Kernel(true, true, false, false)

  /** The kernel registers the memory map, or fails to. */
  function Registered(s: State, works: bool): State {
    if works then s.(flags := s.flags.(registered := true)) else s
  }

  /** What a command comes to: the kernel refuses a memory map it has not registered. */
  function Refusal(s: State, fault: bool): Option<Errno> {
    if !s.flags.registered then Some(Eperm) else if fault then Some(OtherErrno) else None
  }

  /** The kernel carries out a command it does not refuse. */
  function Commanded(s: State, cpu: Option<nat>, fault: bool): State {
    if Refusal(s, fault).None? then s.(log := s.log + [Done(s.mm, cpu)]) else s
  }

  /** The state after one `run`, and what it returns. */
  datatype Outcome = Outcome(state: State, ok: bool)

  function Run(s: State, cpu: Option<nat>, k: Kernel): Outcome {
    var r := if s.flags.ready.Some? then s else
      var g := Registered(s, k.registers); g.(flags := g.flags.(ready := Some(k.registers)));
    if !r.flags.ready.value then Outcome(r, false)
    else
      var c := Commanded(r, cpu, k.fault);
      match Refusal(r, k.fault)
      case None => Outcome(c.(flags := c.flags.(used := true)), true)
      case Some(OtherErrno) => Outcome(c, false)
      case Some(Eperm) =>
        var w := Registered(c.(flags := c.flags.(used := false)), r.flags.used && k.reregisters);
        if r.flags.used && k.reregisters then Outcome(Commanded(w, cpu, k.refault), Refusal(w, k.refault).None?)
        else Outcome(w, false)
  }

  class Membarrier {
    var ready: Option<bool>
    var used: bool
    var registered: bool
    var mm: nat
    ghost var log: seq<Done>

    constructor ()
      ensures Now() == FRESH
    {
      ready, used, registered, mm, log := None, false, false, 0, [];
    }

    ghost function Now(): State
      reads this
    {
      State(Flags(ready, used, registered), mm, log)
    }

    method Register(works: bool) returns (ok: bool)
      modifies this`registered
      ensures ok == works && Now() == Registered(old(Now()), works)
    {
      if works { registered := true; }
      ok := works;
    }

    /** The kernel refuses a memory map it has not registered, and otherwise does the command or fails. */
    method Command(cpu: Option<nat>, fault: bool) returns (error: Option<Errno>)
      modifies this`log
      ensures error == Refusal(old(Now()), fault)
      ensures log == if registered && !fault then old(log) + [Done(mm, cpu)] else old(log)
    {
      error := if !registered then Some(Eperm) else if fault then Some(OtherErrno) else None;
      if error.None? { log := log + [Done(mm, cpu)]; }
    }

    method Ready(works: bool) returns (ok: bool)
      modifies this
      ensures old(ready).Some? ==> Now() == old(Now())
      ensures old(ready).None? ==> Now() == State(Flags(Some(works), old(used), old(registered) || works), old(mm), old(log))
      ensures ready == Some(ok)
    {
      if ready.None? {
        var r := Register(works);
        ready := Some(r);
      }
      ok := ready.value;
    }

    /** One fence: the command, or one registration and one retry after a fork. It says true if and only if the
        kernel has carried out the command for this memory map, exactly once. */
    method Fence(cpu: Option<nat>, k: Kernel) returns (ok: bool)
      modifies this
      ensures Now() == Run(old(Now()), cpu, k).state && ok == Run(old(Now()), cpu, k).ok
      ensures ok <==> log == old(log) + [Done(mm, cpu)]
      ensures !ok <==> log == old(log)
      ensures mm == old(mm)
    {
      var up := Ready(k.registers);
      if !up { return false; }
      var error := Command(cpu, k.fault);
      if error.None? {
        used := true;
        return true;
      }
      if error == Some(Eperm) {
        var was := used;
        used := false;
        if was {
          var again := Register(k.reregisters);
          if again {
            var error2 := Command(cpu, k.refault);
            return error2.None?;
          }
        }
      }
      return false;
    }

    /** A fence of one CPU takes a number the kernel can be given, and gives it that number. */
    method FenceCpu(cpu: u32, cpus: u32, k: Kernel) returns (ok: bool)
      modifies this
      ensures cpu >= cpus || cpu >= 0x8000_0000 ==> !ok && Now() == old(Now())
      ensures cpu < cpus && cpu < 0x8000_0000 ==>
                Now() == Run(old(Now()), Some(cpu), k).state && ok == Run(old(Now()), Some(cpu), k).ok
      ensures ok <==> log == old(log) + [Done(mm, Some(cpu))]
    {
      if cpu >= cpus || cpu >= 0x8000_0000 { return false; }
      ok := Fence(Some(cpu), k);
    }

    /** In the child: a new memory map, the parent's statics. */
    method Fork()
      modifies this
      ensures Now() == After(old(Now()), Forked)
    {
      registered, mm := false, mm + 1;
    }
  }

  datatype Event = Fenced(cpu: Option<nat>, k: Kernel) | Forked

  function After(s: State, e: Event): State {
    match e
    case Fenced(cpu, k) => Run(s, cpu, k).state
    case Forked => State(s.flags.(registered := false), s.mm + 1, s.log)
  }

  function AfterAll(s: State, es: seq<Event>): State {
    if es == [] then s else After(AfterAll(s, es[..|es| - 1]), es[|es| - 1])
  }

  const FRESH: State := State(Flags(None, false, false), 0, [])

  /** What callers have been told is done: each fence that said true, in the process as many forks down. */
  function ToldDone(es: seq<Event>): seq<Done> {
    if es == [] then []
    else
      var front, e := es[..|es| - 1], es[|es| - 1];
      ToldDone(front) + if e.Fenced? && Run(AfterAll(FRESH, front), e.cpu, e.k).ok then [Done(Forks(front), e.cpu)] else []
  }

  function Forks(es: seq<Event>): nat {
    if es == [] then 0 else Forks(es[..|es| - 1]) + if es[|es| - 1].Forked? then 1 else 0
  }

  /** One call: true if and only if the kernel has carried out the command, once, in this memory map. */
  lemma TrueOnce(s: State, cpu: Option<nat>, k: Kernel)
    ensures
      var o := Run(s, cpu, k);
      o.state.mm == s.mm && o.state.log == if o.ok then s.log + [Done(s.mm, cpu)] else s.log
  {
  }

  /** A command that fails for a reason of its own, at once, after the first registration or after a renewed one,
      changes nothing but what the registrations have: the next fence succeeds unless it fails like that itself. */
  lemma FaultsPass(s: State, cpu: Option<nat>, k: Kernel, next: Kernel, c: Option<nat>)
    requires
      || (s.flags.ready == Some(true) && s.flags.registered && k.fault)
      || (s.flags.ready.None? && k.registers && k.fault)
      || (s.flags.ready == Some(true) && s.flags.used && !s.flags.registered && k.reregisters && k.refault)
    ensures !Run(s, cpu, k).ok && Run(s, cpu, k).state.log == s.log && Run(s, cpu, k).state.mm == s.mm
    ensures s.flags.ready.Some? && s.flags.registered ==> Run(s, cpu, k).state == s
    ensures s.flags.ready.None? ==> Run(s, cpu, k).state.flags == Flags(Some(true), s.flags.used, true)
    ensures s.flags.ready.Some? && !s.flags.registered ==> Run(s, cpu, k).state.flags == Flags(Some(true), false, true)
    ensures Run(Run(s, cpu, k).state, c, next).ok <==> !next.fault
  {
    var o := Run(s, cpu, k);
    assert o.state.flags.ready == Some(true) && o.state.flags.registered;
  }

  /** A first registration that fails is remembered, and one after a fork is not tried again: whatever the kernel
      does from then on, no fence succeeds, in that process or its children. */
  lemma {:induction false} FailedRegistrations(s: State, cpu: Option<nat>, k: Kernel, more: seq<Event>)
    requires
      || (s.flags.ready.None? && !k.registers && !s.flags.registered)
      || (s.flags.ready == Some(true) && s.flags.used && !s.flags.registered && !k.reregisters)
    ensures
      var o := Run(s, cpu, k);
      && o == Outcome(State(if s.flags.ready.None? then Flags(Some(false), s.flags.used, false)
                            else Flags(Some(true), false, false), s.mm, s.log), false)
      && (forall next: Kernel, c: Option<nat> :: !Run(AfterAll(o.state, more), c, next).ok)
      && AfterAll(o.state, more).flags == o.state.flags
    decreases |more|
  {
    if more != [] { FailedRegistrations(s, cpu, k, more[..|more| - 1]); }
  }

  /** Whatever the kernel does and however often the process forks: what fences have said is done, is what the
      kernel has carried out, command by command, each in the memory map of the process that was told. */
  lemma {:induction false} TrueMeansDone(es: seq<Event>)
    ensures AfterAll(FRESH, es).log == ToldDone(es) && AfterAll(FRESH, es).mm == Forks(es)
    ensures var g := AfterAll(FRESH, es).flags; (g.used ==> g.ready == Some(true)) && (g.registered ==> g.ready.Some?)
    decreases |es|
  {
    if es != [] {
      var front, e := es[..|es| - 1], es[|es| - 1];
      TrueMeansDone(front);
      if e.Fenced? { TrueOnce(AfterAll(FRESH, front), e.cpu, e.k); }
    }
  }

  /** What a process can count on when the kernel registers and completes whatever it is asked to. */
  predicate Working(es: seq<Event>) {
    forall i | 0 <= i < |es| :: es[i].Fenced? ==> es[i].k == WORKS
  }

  predicate HasFenced(es: seq<Event>) {
    exists i :: 0 <= i < |es| && es[i].Fenced?
  }

  predicate OneFenceAt(es: seq<Event>, i: nat) {
    i + 2 < |es| && es[i].Forked? && es[i + 1].Fenced? && es[i + 2].Forked? && HasFenced(es[..i])
  }

  /** After the first fence of all, some process was forked, fenced exactly once, and forked again. */
  ghost predicate OneFenceBetweenForks(es: seq<Event>) {
    exists i :: OneFenceAt(es, i)
  }

  /** Where a history leaves a process. `Renewed`: its one fence since the fork used up the retry. */
  datatype Standing = Fresh | Settled | Inherited | Renewed | Stuck

  function FlagsOf(g: Standing): Flags {
    match g
    case Fresh => Flags(None, false, false)
    case Settled => Flags(Some(true), true, true)
    case Inherited => Flags(Some(true), true, false)
    case Renewed => Flags(Some(true), false, true)
    case Stuck => Flags(Some(true), false, false)
  }

  function StandingOf(es: seq<Event>): Standing {
    if es == [] then Fresh
    else
      var g := StandingOf(es[..|es| - 1]);
      if es[|es| - 1].Forked? then
        match g
        case Settled => Inherited
        case Renewed => Stuck
        case _ => g
      else
        match g
        case Inherited => Renewed
        case Stuck => Stuck
        case _ => Settled
  }

  lemma {:induction false} Stands(es: seq<Event>)
    requires Working(es)
    ensures AfterAll(FRESH, es).flags == FlagsOf(StandingOf(es))
    decreases |es|
  {
    if es != [] {
      var front := es[..|es| - 1];
      assert forall i | 0 <= i < |front| :: front[i] == es[i];
      Stands(front);
    }
  }

  lemma HasFencedSnoc(es: seq<Event>)
    requires es != []
    ensures HasFenced(es) <==> HasFenced(es[..|es| - 1]) || es[|es| - 1].Fenced?
  {
    var front := es[..|es| - 1];
    if HasFenced(front) {
      var i :| 0 <= i < |front| && front[i].Fenced?;
      assert es[i].Fenced?;
    }
    if HasFenced(es) && es[|es| - 1].Forked? {
      var i :| 0 <= i < |es| && es[i].Fenced?;
      assert front[i].Fenced?;
    }
  }

  lemma OneFenceKept(es: seq<Event>, i: nat)
    requires es != []
    ensures OneFenceAt(es, i) <==> OneFenceAt(es[..|es| - 1], i) || (i + 3 == |es| && OneFenceAt(es, i))
  {
    if i <= |es| - 1 { assert es[..|es| - 1][..i] == es[..i]; }
  }

  lemma OneFenceSnoc(es: seq<Event>)
    requires es != []
    ensures OneFenceBetweenForks(es) <==>
              OneFenceBetweenForks(es[..|es| - 1]) || (|es| >= 3 && OneFenceAt(es, |es| - 3))
  {
    hide OneFenceAt;
    var front := es[..|es| - 1];
    if OneFenceBetweenForks(front) {
      var i: nat :| OneFenceAt(front, i);
      OneFenceKept(es, i);
    }
    if OneFenceBetweenForks(es) {
      var i: nat :| OneFenceAt(es, i);
      OneFenceKept(es, i);
    }
  }

  /** Standing, read off the history. */
  lemma {:induction false} StandingIs(es: seq<Event>)
    ensures StandingOf(es) == Fresh <==> !HasFenced(es)
    ensures StandingOf(es) == Stuck <==> OneFenceBetweenForks(es)
    ensures StandingOf(es) == Inherited ==> es[|es| - 1].Forked?
    ensures es != [] && es[|es| - 1].Forked? && HasFenced(es) && !OneFenceBetweenForks(es) ==> StandingOf(es) == Inherited
    ensures StandingOf(es) == Renewed <==>
              |es| >= 2 && es[|es| - 1].Fenced? && es[|es| - 2].Forked? && HasFenced(es[..|es| - 2]) && !OneFenceBetweenForks(es)
    decreases |es|
  {
    if es != [] {
      var n, front := |es|, es[..|es| - 1];
      StandingIs(front);
      HasFencedSnoc(es);
      OneFenceSnoc(es);
      hide HasFenced, OneFenceBetweenForks;
      if n >= 2 {
        HasFencedSnoc(front);
        assert front[..n - 2] == es[..n - 2];
        if n >= 3 { assert front[..n - 3] == es[..n - 3]; }
      }
    }
  }

  /** With a kernel that works, a fence succeeds if and only if no process of the line was forked after fencing
      exactly once since its own fork: the retry leaves `USED` false, and the grandchild has no retry left. */
  lemma FenceAfterForks(es: seq<Event>, cpu: Option<nat>)
    requires Working(es)
    ensures Run(AfterAll(FRESH, es), cpu, WORKS).ok <==> !OneFenceBetweenForks(es)
  {
    Stands(es);
    StandingIs(es);
    hide OneFenceBetweenForks, AfterAll, StandingOf;
  }

  /** And once it fails, it fails for good, in that process and all its children. */
  lemma {:induction false} FailsForGood(es: seq<Event>, more: seq<Event>, cpu: Option<nat>)
    requires Working(es) && Working(more) && !Run(AfterAll(FRESH, es), cpu, WORKS).ok
    ensures !Run(AfterAll(AfterAll(FRESH, es), more), cpu, WORKS).ok
    ensures AfterAll(AfterAll(FRESH, es), more).flags == FlagsOf(Stuck)
    decreases |more|
  {
    Stands(es);
    if more != [] {
      var front := more[..|more| - 1];
      assert forall i | 0 <= i < |front| :: front[i] == more[i];
      FailsForGood(es, front, cpu);
    }
  }
}
