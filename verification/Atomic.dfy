/** The machine callers reason about: every word operation is one indivisible step. */
module Atomic {
  import opened Bits
  import opened Ops
  import opened Machine

  /** A call is invoked, takes effect once, and responds. */
  datatype View = Quiet | Pending(call: Call) | Done(call: Call, attempt: Attempt)

  datatype AThread = AThread(place: Place, cpuId: u32, mmCid: u32, stack: seq<View>)

  datatype AState = AState(mem: Mem, threads: map<Tid, AThread>)

  datatype ALabel =
    | Invoke(t: Tid, call: Call)
    | Commit(t: Tid)
    | Scratch(t: Tid)
    | Respond(t: Tid)
    | Write(t: Tid, addr: usize, value: usize)
    | Depart(t: Tid)
    | Arrive(t: Tid, cpu: u32, cid: u32)
    | Push(t: Tid)
    | Pop(t: Tid)
    | Silent

  function ATop(th: AThread): View
    requires th.stack != []
  {
    th.stack[|th.stack| - 1]
  }

  function ASetTop(th: AThread, v: View): AThread
    requires th.stack != []
  {
    th.(stack := th.stack[..|th.stack| - 1] + [v])
  }

  function AIndex(th: AThread, kind: Kind): u32 {
    match kind case CpuIndex => th.cpuId case CidIndex => th.mmCid
  }

  predicate ARuns(a: AState, t: Tid) {
    t in a.threads && a.threads[t].place.On? && a.threads[t].stack != []
  }

  predicate IsPending(a: AState, t: Tid) {
    ARuns(a, t) && ATop(a.threads[t]).Pending?
  }

  function CallOf(a: AState, t: Tid): Call
    requires IsPending(a, t)
  {
    ATop(a.threads[t]).call
  }

  /** What the pending call of `t` would do if it took effect now. */
  function EffectOf(a: AState, t: Tid): Effect
    requires IsPending(a, t)
  {
    Meaning(CallOf(a, t), AIndex(a.threads[t], CallOf(a, t).key.kind), a.mem)
  }

  predicate AEnabled(a: AState, l: ALabel) {
    match l
    case Invoke(t, _) => ARuns(a, t) && ATop(a.threads[t]).Quiet?
    case Commit(t) => IsPending(a, t)
    case Scratch(t) =>
      && IsPending(a, t) && CallOf(a, t).op.StoreIf?
      && CallOf(a, t).op.side in EffectOf(a, t).writes && EffectOf(a, t).attempt.Ok?
    case Respond(t) => ARuns(a, t) && ATop(a.threads[t]).Done?
    case Write(t, _, _) => ARuns(a, t) && ATop(a.threads[t]).Quiet?
    case Depart(t) => ARuns(a, t)
    case Arrive(t, cpu, cid) =>
      && t in a.threads && a.threads[t].place.Off?
      && forall u | u in a.threads && a.threads[u].place.On? ::
           a.threads[u].place.cpu != cpu && a.threads[u].mmCid != cid
    case Push(t) => ARuns(a, t)
    case Pop(t) => ARuns(a, t) && |a.threads[t].stack| > 1 && ATop(a.threads[t]).Quiet?
    case Silent => true
  }

  function AUpdate(a: AState, t: Tid, th: AThread): AState {
    a.(threads := a.threads[t := th])
  }

  function ANext(a: AState, l: ALabel): AState
    requires AEnabled(a, l)
  {
    match l
    case Invoke(t, call) => AUpdate(a, t, ASetTop(a.threads[t], Pending(call)))
    case Commit(t) =>
      var e := EffectOf(a, t);
      AUpdate(a, t, ASetTop(a.threads[t], Done(CallOf(a, t), e.attempt))).(mem := e.mem)
    case Scratch(t) =>
      var op := CallOf(a, t).op;
      a.(mem := a.mem[op.side := op.sideUpdate])
    case Respond(t) => AUpdate(a, t, ASetTop(a.threads[t], Quiet))
    case Write(_, addr, value) => a.(mem := a.mem[addr := value])
    case Depart(t) => AUpdate(a, t, a.threads[t].(place := Off))
    case Arrive(t, cpu, cid) => AUpdate(a, t, a.threads[t].(place := On(cpu), cpuId := cpu, mmCid := cid))
    case Push(t) => AUpdate(a, t, a.threads[t].(stack := a.threads[t].stack + [Quiet]))
    case Pop(t) =>
      var st := a.threads[t].stack;
      AUpdate(a, t, a.threads[t].(stack := st[..|st| - 1]))
    case Silent => a
  }

  /** The addresses a step stores to. */
  function Stores(a: AState, l: ALabel): set<usize>
    requires AEnabled(a, l)
  {
    match l
    case Commit(t) => EffectOf(a, t).writes
    case Scratch(t) => {CallOf(a, t).op.side}
    case Write(_, addr, _) => {addr}
    case _ => {}
  }

  function Actor(l: ALabel): Tid {
    if l.Silent? then 0 else l.t
  }

  /** No store lands on what another running thread's pending call depends on. */
  ghost predicate RaceFree(a: AState, l: ALabel)
    requires AEnabled(a, l)
  {
    forall u | IsPending(a, u) && u != Actor(l) :: Stores(a, l) !! EffectOf(a, u).access
  }

  /** A sequence of atomic steps that can be taken one after the other from `a`. */
  predicate AValidRun(a: AState, os: seq<ALabel>)
    decreases |os|, 0
  {
    os != [] ==> AValidRun(a, os[..|os| - 1]) && AEnabled(AStateAfter(a, os[..|os| - 1]), os[|os| - 1])
  }

  function AStateAfter(a: AState, os: seq<ALabel>): AState
    requires AValidRun(a, os)
    decreases |os|, 1
  {
    if os == [] then a else ANext(AStateAfter(a, os[..|os| - 1]), os[|os| - 1])
  }

  lemma ASnoc(a: AState, os: seq<ALabel>, o: ALabel)
    requires AValidRun(a, os) && AEnabled(AStateAfter(a, os), o)
    ensures AValidRun(a, os + [o]) && AStateAfter(a, os + [o]) == ANext(AStateAfter(a, os), o)
  {
    assert (os + [o])[..|os + [o]| - 1] == os;
  }
}
