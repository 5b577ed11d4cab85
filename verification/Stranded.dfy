/** A retry loop that looks its word up once: one move and it may abort for ever. */
module Stranded {
  import opened Bits
  import opened Ops
  import opened Isa
  import opened Operands
  import opened Blocks
  import opened Machine
  import opened Refinement
  import opened Safety
  import opened Scenes
  import opened Attempts
  import opened Counts
  import B = BadRuns
  import H = Hazards
  import Threads

  /** What the calls of a thread have been answered, in order. */
  function Replies(cfg: Config, s: State, ls: seq<Label>, t: Tid): seq<Attempt>
    requires ValidRun(cfg, s, ls)
    decreases |ls|
  {
    if ls == [] then []
    else
      var front, l := ls[..|ls| - 1], ls[|ls| - 1];
      Replies(cfg, s, front, t) + if l == Return(t) then [Answer(cfg, Top(StateAfter(cfg, s, front).threads[t]))] else []
  }

  /** The caller of a thread is handed this answer. */
  predicate HandsOut(cfg: Config, n: State, l: Label, t: Tid, a: Attempt) {
    && l == Return(t) && t in n.threads && n.threads[t].stack != [] && Top(n.threads[t]).Active?
    && Answer(cfg, Top(n.threads[t])) == a
  }

  /** Every return gives one reply, the answer it hands out. */
  lemma {:induction false} RepliesCounted(cfg: Config, s: State, ls: seq<Label>, t: Tid)
    requires ValidRun(cfg, s, ls)
    ensures |Replies(cfg, s, ls, t)| == |set k: nat | k < |ls| && ls[k] == Return(t)|
    ensures forall k: nat | k < |ls| && ls[k] == Return(t) ::
              exists a :: a in Replies(cfg, s, ls, t) && HandsOut(cfg, Before(cfg, s, ls, k), ls[k], t, a)
    decreases |ls|
  {
    hide Enabled, Next, Before, HandsOut, Answer;
    if ls != [] {
      var n, front := |ls| - 1, ls[..|ls| - 1];
      RepliesCounted(cfg, s, front, t);
      BeforeFront(cfg, s, ls);
      OneMorePosition((set k: nat | k < |front| && front[k] == Return(t)), (set k: nat | k < |ls| && ls[k] == Return(t)), n,
                      ls[n] == Return(t));
      if ls[n] == Return(t) {
        var a := HandsOutNow(cfg, s, ls, t);
        assert Replies(cfg, s, ls, t)[|Replies(cfg, s, front, t)|] == a;
      }
      forall k: nat | k < |ls| && ls[k] == Return(t)
        ensures exists a :: a in Replies(cfg, s, ls, t) && HandsOut(cfg, Before(cfg, s, ls, k), ls[k], t, a)
      {
        if k < n {
          assert front[k] == ls[k];
          var a :| a in Replies(cfg, s, front, t) && HandsOut(cfg, Before(cfg, s, front, k), front[k], t, a);
          assert a in Replies(cfg, s, ls, t);
        }
      }
    }
  }

  lemma HandsOutNow(cfg: Config, s: State, ls: seq<Label>, t: Tid) returns (a: Attempt)
    requires ls != [] && ValidRun(cfg, s, ls) && ls[|ls| - 1] == Return(t)
    ensures Replies(cfg, s, ls, t) == Replies(cfg, s, ls[..|ls| - 1], t) + [a]
    ensures HandsOut(cfg, StateAfter(cfg, s, ls[..|ls| - 1]), Return(t), t, a)
  {
    a := Answer(cfg, Top(StateAfter(cfg, s, ls[..|ls| - 1]).threads[t]));
    hide Next, Answer;
  }

  function Aborts(n: nat): (aborts: seq<Attempt>)
    ensures |aborts| == n && forall a | a in aborts :: a == Abort
  {
    if n == 0 then [] else Aborts(n - 1) + [Abort]
  }

  /** More of the run: one and the same call, again and again, and nothing that interrupts it. */
  predicate Retries(ls: seq<Label>, more: seq<Label>, t: Tid, call: Call) {
    && ls <= more
    && forall i | |ls| <= i < |more| :: more[i] == Step(t) || more[i] == Return(t) || (more[i].Begin? && more[i].t == t && more[i].call == call)
  }

  predicate Stuck(z: Scene, ls: seq<Label>, m: Mem, cs: usize, n: nat) {
    Reached(z, ls, Waiting(z, m, cs)) && ValidRun(z.cfg, z.start, ls) && Replies(z.cfg, z.start, ls, z.t) == Aborts(n)
  }

  lemma {:induction false} OnwardReplies(cfg: Config, s: State, ls: seq<Label>, more: seq<Label>, t: Tid)
    requires ValidRun(cfg, s, ls) && ValidRun(cfg, s, more) && Onward(ls, more, t)
    ensures Replies(cfg, s, more, t) == Replies(cfg, s, ls, t)
    decreases |more|
  {
    hide Enabled, Next;
    if |more| > |ls| {
      var front := more[..|more| - 1];
      assert front[..|ls|] == more[..|ls|] && more[|more| - 1] == Step(t);
      OnwardReplies(cfg, s, ls, front, t);
    } else {
      assert more == ls;
    }
  }

  lemma RepliesSnoc(z: Scene, ls: seq<Label>, n: State, l: Label)
    requires Reached(z, ls, n) && ValidRun(z.cfg, z.start, ls + [l])
    ensures Replies(z.cfg, z.start, ls + [l], z.t)
         == Replies(z.cfg, z.start, ls, z.t) + if l == Return(z.t) then [Answer(z.cfg, Top(n.threads[z.t]))] else []
  {
    hide Enabled, Next;
    assert (ls + [l])[..|ls + [l]| - 1] == ls;
  }

  lemma AwayMeans(z: Scene, m: Mem)
    requires HomeOf(z) != z.call.key.id
    ensures Meaning(z.call, HomeOf(z), m) == Effect(Abort, m, {}, {})
  {
  }

  /** One more attempt away from home. */
  lemma Again(z: Scene, ls: seq<Label>, m: Mem, cs: usize, n: nat) returns (ls2: seq<Label>)
    requires Reached(z, ls, Waiting(z, m, cs)) && ValidRun(z.cfg, z.start, ls) && Replies(z.cfg, z.start, ls, z.t) == Aborts(n)
    requires OnSite(z) && HomeOf(z) != z.call.key.id
    ensures Stuck(z, ls2, m, z.site, n + 1) && Retries(ls, ls2, z.t, z.call)
  {
    var regs := Threads.OperandsOf(z.call, z.area);
    var l := Begin(z.t, z.call, z.site, regs, false);
    var s0 := InCall(z, m, cs, H.Entry(z.call, z.area), map[]);
    assert H.Entry(z.call, z.area) == Core(0, regs, false) && l != Return(z.t);
    assert {} <= m.Keys;
    AwayMeans(z, m);
    H.EntrySound(z);
    hide *;
    var l1 := GoBegin(z, ls, m, cs, regs);
    B.ReachedState(z, ls, Waiting(z, m, cs));
    B.ReachedState(z, l1, s0);
    RepliesSnoc(z, ls, Waiting(z, m, cs), l);
    var l2, k := GoPass(z, l1, m, cs, H.Entry(z.call, z.area), map[]);
    B.ReachedState(z, l2, k);
    OnwardReplies(z.cfg, z.start, l1, l2, z.t);
    AnswerIs(z, k);
    GoReturn(z, l2, k, z.site);
    ls2 := l2 + [Return(z.t)];
    B.ReachedState(z, ls2, Waiting(z, m, z.site));
    RepliesSnoc(z, l2, k, Return(z.t));
    OneRetry(ls, l, l2, z.t);
    OneMore(z, ls2, m, z.site, n);
  }

  lemma OneMore(z: Scene, ls: seq<Label>, m: Mem, cs: usize, n: nat)
    requires Reached(z, ls, Waiting(z, m, cs)) && ValidRun(z.cfg, z.start, ls)
    requires Replies(z.cfg, z.start, ls, z.t) == (Aborts(n) + []) + [Abort]
    ensures Stuck(z, ls, m, cs, n + 1)
  {
    assert Aborts(n) + [] == Aborts(n);
  }

  lemma AnswerIs(z: Scene, n: State)
    requires Answers(z.cfg, n, z.t, z.call, Abort)
    ensures z.t in n.threads && n.threads[z.t].stack != [] && Top(n.threads[z.t]).Active? && Answer(z.cfg, Top(n.threads[z.t])) == Abort
    ensures Enabled(z.cfg, n, Return(z.t))
  {
  }

  lemma OneRetry(ls: seq<Label>, l: Label, more: seq<Label>, t: Tid)
    requires l.Begin? && l.t == t && Onward(ls + [l], more, t)
    ensures Retries(ls, more + [Return(t)], t, l.call)
  {
    assert more[..|ls + [l]|][..|ls|] == ls;
    assert more[|ls|] == more[..|ls + [l]|][|ls|] == l;
  }

  lemma {:induction false} ManyAgain(z: Scene, ls: seq<Label>, m: Mem, cs: usize, n: nat) returns (ls2: seq<Label>, cs2: usize)
    requires Stuck(z, ls, m, cs, 0) && OnSite(z) && HomeOf(z) != z.call.key.id
    ensures Stuck(z, ls2, m, cs2, n) && Retries(ls, ls2, z.t, z.call)
    decreases n
  {
    hide OnSite, Reached, Waiting, Replies, ValidRun;
    if n == 0 {
      ls2, cs2 := ls, cs;
    } else {
      var l1, cs1 := ManyAgain(z, ls, m, cs, n - 1);
      ls2 := Again(z, l1, m, cs1, n - 1);
      cs2 := z.site;
      RetriesOn(ls, l1, ls2, z.t, z.call);
    }
  }

  lemma RetriesOn(ls: seq<Label>, more: seq<Label>, most: seq<Label>, t: Tid, call: Call)
    requires Retries(ls, more, t, call) && Retries(more, most, t, call)
    ensures Retries(ls, most, t, call)
  {
    forall i | |ls| <= i < |most|
      ensures most[i] == Step(t) || most[i] == Return(t) || (most[i].Begin? && most[i].t == t && most[i].call == call)
    {
      if i < |more| { assert most[i] == more[i]; }
    }
  }

  /** A thread alone, between calls, with the index of the call's key. */
  function AtHome(arch: Arch, call: Call, m: Mem): Scene {
    var id := call.key.id;
    var z := Scene(Config(arch, map[B.SITE := Site(OpcodeOf(call.op), call.key.kind)]), State(m, map[]), map[], 1, B.AREA, id, id, call, B.SITE);
    z.(start := Waiting(z, m, 0))
  }

  lemma AtHomeStarts(arch: Arch, call: Call, m: Mem, cpu: u32, cid: u32)
    ensures
      var z := AtHome(arch, call, m);
      && AtRest(z.start) && Reached(z, [], Waiting(z, m, 0)) && z.start == With(z, m, On(z.cpu), 0, Idle) && z.t == 1
      && OnSite(z.(cpu := cpu, cid := cid)) && OthersRest(z.(cpu := cpu, cid := cid)) && z.call == call && z.cfg.arch == arch
      && IndexOf(z.start.threads[1].area, call.key.kind) == call.key.id && z.start.mem == m
  {
  }

  /** For any call and any number of attempts: from rest at home, one move elsewhere, and every attempt aborts, with
      nothing interrupting any of them and no word changed. */
  lemma NeverAgain(arch: Arch, call: Call, m: Mem, cpu: u32, cid: u32, n: nat) returns (cfg: Config, s: State, ls: seq<Label>)
    requires Given(call.key.kind, cpu, cid) != call.key.id
    ensures cfg.arch == arch && AtRest(s) && 1 in s.threads && IndexOf(s.threads[1].area, call.key.kind) == call.key.id
    ensures Retries([Preempt(1), Resume(1, cpu, cid)], ls, 1, call) && ValidRun(cfg, s, ls)
    ensures Replies(cfg, s, ls, 1) == Aborts(n) && s.mem == m && StateAfter(cfg, s, ls).mem == m
    ensures |set k: nat | k < |ls| && ls[k] == Return(1)| == n
    ensures forall k: nat | k < |ls| && ls[k] == Return(1) :: HandsOut(cfg, Before(cfg, s, ls, k), ls[k], 1, Abort)
  {
    var z := AtHome(arch, call, m);
    var y := z.(cpu := cpu, cid := cid);
    cfg, s := z.cfg, z.start;
    AtHomeStarts(arch, call, m, cpu, cid);
    assert HomeOf(y) == Given(call.key.kind, cpu, cid);
    WaitingIs(z, m);
    WaitingIs(y, m);
    hide *;
    var l1 := GoPreempt(z, [], m, 0, Idle);
    B.ReachedState(z, l1, With(z, m, Off, 0, Idle));
    var l2 := GoResumeIdle(z, l1, m, 0, cpu, cid);
    B.ReachedState(y, l2, Waiting(y, m, 0));
    NothingYet(z, l1, l2, m, cpu, cid);
    assert l2 == [Preempt(1), Resume(1, cpu, cid)];
    StuckFrom(y, l2, m, 0);
    var cs;
    ls, cs := ManyAgain(y, l2, m, 0, n);
    StuckEnds(y, ls, m, cs, n);
    AllAbort(cfg, s, ls, 1, n);
  }

  lemma AllAbort(cfg: Config, s: State, ls: seq<Label>, t: Tid, n: nat)
    requires ValidRun(cfg, s, ls) && Replies(cfg, s, ls, t) == Aborts(n)
    ensures |set k: nat | k < |ls| && ls[k] == Return(t)| == n
    ensures forall k: nat | k < |ls| && ls[k] == Return(t) :: HandsOut(cfg, Before(cfg, s, ls, k), ls[k], t, Abort)
  {
    RepliesCounted(cfg, s, ls, t);
    hide Replies, Enabled, Next, Before, HandsOut;
  }

  lemma StuckFrom(z: Scene, ls: seq<Label>, m: Mem, cs: usize)
    requires Reached(z, ls, Waiting(z, m, cs)) && ValidRun(z.cfg, z.start, ls) && Replies(z.cfg, z.start, ls, z.t) == Aborts(0)
    ensures Stuck(z, ls, m, cs, 0)
  {
  }

  lemma WaitingIs(z: Scene, m: Mem)
    ensures forall cs :: Waiting(z, m, cs) == With(z, m, On(z.cpu), cs, Idle) && Waiting(z, m, cs).mem == m
  {
  }

  lemma NothingYet(z: Scene, l1: seq<Label>, l2: seq<Label>, m: Mem, cpu: u32, cid: u32)
    requires l1 == [Preempt(z.t)] && l2 == l1 + [Resume(z.t, cpu, cid)] && ValidRun(z.cfg, z.start, l1) && ValidRun(z.cfg, z.start, l2)
    ensures Replies(z.cfg, z.start, l2, z.t) == Aborts(0)
  {
    hide Enabled, Next;
    assert l2[..1] == l1 && l1[..0] == [];
    assert Replies(z.cfg, z.start, l1, z.t) == [];
  }

  lemma StuckEnds(z: Scene, ls: seq<Label>, m: Mem, cs: usize, n: nat)
    requires Stuck(z, ls, m, cs, n)
    ensures ValidRun(z.cfg, z.start, ls) && Replies(z.cfg, z.start, ls, z.t) == Aborts(n) && StateAfter(z.cfg, z.start, ls).mem == m
  {
  }
}
