/** One key for every word is what it takes: used under two keys, a word has runs that are not atomic. */
module OneKey {
  import opened Bits
  import opened Ops
  import opened Operands
  import opened Blocks
  import opened Machine
  import opened Sections
  import opened Atomic
  import opened Refinement
  import opened Safety
  import opened Keys
  import opened Scenes
  import H = Hazards

  /** The run is, from above, a run in which every call takes effect in one step. */
  predicate Refines(cfg: Config, s: State, ls: seq<Label>) {
    && ValidRun(cfg, s, ls) && AValidRun(Abs(cfg, s), ObserveRun(cfg, s, ls))
    && Abs(cfg, StateAfter(cfg, s, ls)) == AStateAfter(Abs(cfg, s), ObserveRun(cfg, s, ls))
  }

  /** One word is swapped under two keys, and everything else keeps the key discipline. */
  predicate SwapLabel(rest: Keying, word: usize, j: Key, k: Key, l: Label) {
    && (l.Begin? ==>
          || (l.call.op.CompareExchange? && l.call.op.word == word && (l.call.key == j || l.call.key == k))
          || Keyed(rest, l.call))
    && (l.Plain? ==> l.addr != word && l.addr !in rest.owner && l.addr !in rest.cells)
  }

  predicate SwapRun(rest: Keying, word: usize, j: Key, k: Key, cfg: Config, s: State, ls: seq<Label>) {
    && AtRest(s) && CellsHold(rest, s.mem) && ValidRun(cfg, s, ls)
    && forall i | 0 <= i < |ls| :: SwapLabel(rest, word, j, k, ls[i])
  }

  /** Every such run, on either backend, is atomic. */
  ghost predicate SwapsAtomic(rest: Keying, word: usize, j: Key, k: Key) {
    forall cfg, s, ls | SwapRun(rest, word, j, k, cfg, s, ls) :: Refines(cfg, s, ls)
  }

  /** The discipline with the word under one key. */
  function With(rest: Keying, word: usize, k: Key): Keying {
    Keying(rest.owner[word := k], rest.cells, rest.values)
  }

  predicate Unused(rest: Keying, word: usize) {
    Sorted(rest) && word !in rest.owner && word !in rest.cells
  }

  lemma StillKeyed(rest: Keying, word: usize, k: Key, call: Call)
    requires Unused(rest, word)
    ensures Keyed(rest, call) ==> Keyed(With(rest, word, k), call)
    ensures call.op.CompareExchange? && call.op.word == word && call.key == k ==> Keyed(With(rest, word, k), call)
  {
    hide WrapAdd;
    if Keyed(rest, call) && call.op.LoadIfNe? {
      forall v | v in rest.values[call.op.word] && v != call.op.avoided
        ensures Chased(With(rest, word, k), call.key, rest.values[call.op.word], WrapAdd(v, call.op.offset))
      {
        assert Chased(rest, call.key, rest.values[call.op.word], WrapAdd(v, call.op.offset));
      }
    }
  }

  lemma OneKeyAtomic(rest: Keying, word: usize, k: Key, cfg: Config, s: State, ls: seq<Label>)
    requires Unused(rest, word) && SwapRun(rest, word, k, k, cfg, s, ls)
    ensures Refines(cfg, s, ls)
  {
    forall i | 0 <= i < |ls| ensures KeyedLabel(With(rest, word, k), ls[i]) {
      assert SwapLabel(rest, word, k, k, ls[i]);
      if ls[i].Begin? { StillKeyed(rest, word, k, ls[i].call); }
    }
    assert CellsHold(With(rest, word, k), s.mem) && Sorted(With(rest, word, k)) && AllKeyed(With(rest, word, k), s);
    AtRestInv(cfg, s);
    hide Inv, AllKeyed, CellsHold, Sorted, ValidRun, StateAfter, Abs, SwapRun, AtRest, KeyedLabel;
    KeyedRunRefines(With(rest, word, k), cfg, s, ls);
  }

  /** An atomic swap of a word that holds something else does not come to succeed by its own instructions. */
  lemma {:induction false} NeverOk(cfg: Config, s: State, before: seq<Label>, ls: seq<Label>, a: Call)
    requires Onward(before, ls, 1) && ValidRun(cfg, s, ls) && a.op.CompareExchange?
    requires forall n | |before| <= n <= |ls| :: Refines(cfg, s, ls[..n])
    requires ValidRun(cfg, s, before) && Unlucky(Abs(cfg, StateAfter(cfg, s, before)), a)
    ensures Unlucky(Abs(cfg, StateAfter(cfg, s, ls)), a)
    decreases |ls|
  {
    hide Enabled, Next, ANext, AEnabled, Abs, Observe, Unlucky, Refines;
    if |ls| == |before| {
      assert ls == before;
    } else {
      var front := ls[..|ls| - 1];
      assert front[..|before|] == ls[..|before|];
      forall n | |before| <= n <= |front| ensures Refines(cfg, s, front[..n]) { assert front[..n] == ls[..n]; }
      NeverOk(cfg, s, before, front, a);
      assert ls[..|front|] == front && ls[..|ls|] == ls && ls[|front|] == Step(1);
      LastStep(cfg, s, ls);
      StaysUnlucky(cfg, StateAfter(cfg, s, front), a);
    }
  }

  /** Two prefixes that refine, one step apart: that step is an atomic one. */
  lemma LastStep(cfg: Config, s: State, ls: seq<Label>)
    requires ls != [] && Refines(cfg, s, ls) && Refines(cfg, s, ls[..|ls| - 1])
    ensures
      var n, l := StateAfter(cfg, s, ls[..|ls| - 1]), ls[|ls| - 1];
      Enabled(cfg, n, l) && AEnabled(Abs(cfg, n), Observe(cfg, n, l))
      && Abs(cfg, StateAfter(cfg, s, ls)) == ANext(Abs(cfg, n), Observe(cfg, n, l))
  {
    hide Enabled, Next, ANext, AEnabled, Abs, Observe;
    var front, l := ls[..|ls| - 1], ls[|ls| - 1];
    var os, o := ObserveRun(cfg, s, front), Observe(cfg, StateAfter(cfg, s, front), l);
    assert ObserveRun(cfg, s, ls) == os + [o];
    assert (os + [o])[..|os + [o]| - 1] == os;
  }

  /** Thread 1 is in the swap, or has answered it, but not with Ok; and if it is in it, the word holds another value
      than it expects. */
  predicate Unlucky(a: AState, call: Call)
    requires call.op.CompareExchange?
  {
    && 1 in a.threads && a.threads[1].stack != []
    && match ATop(a.threads[1])
       case Quiet => false
       case Pending(c) => c == call && Read(a.mem, call.op.word) != call.op.expected
       case Done(c, attempt) => c == call && !attempt.Ok?
  }

  lemma StaysUnlucky(cfg: Config, n: State, a: Call)
    requires a.op.CompareExchange? && Unlucky(Abs(cfg, n), a) && Enabled(cfg, n, Step(1))
    requires AEnabled(Abs(cfg, n), Observe(cfg, n, Step(1)))
    ensures Unlucky(ANext(Abs(cfg, n), Observe(cfg, n, Step(1))), a)
  {
    var o := Observe(cfg, n, Step(1));
    assert o == Commit(1) || o == Scratch(1) || o == Silent;
    hide Abs, Observe, Enabled;
    UnluckyNext(Abs(cfg, n), o, a);
  }

  lemma UnluckyNext(a: AState, o: ALabel, call: Call)
    requires call.op.CompareExchange? && Unlucky(a, call) && AEnabled(a, o) && (o == Commit(1) || o == Scratch(1) || o == Silent)
    ensures Unlucky(ANext(a, o), call)
  {
    hide WrapAdd;
  }

  lemma StillHolds(rest: Keying, word: usize, m: Mem, v: usize)
    requires Unused(rest, word) && CellsHold(rest, m)
    ensures CellsHold(rest, m[word := v])
  {
  }

  lemma TwoSwapsKeyed(rest: Keying, word: usize, before: seq<Label>, ls: seq<Label>, a: Call, b: Call)
    requires H.TwoSwaps(before, a, b) && Onward(before, ls, 1)
    requires a.op.CompareExchange? && a.op.word == word && b.op.CompareExchange? && b.op.word == word
    ensures forall i | 0 <= i < |ls| :: SwapLabel(rest, word, a.key, b.key, ls[i])
  {
    forall i | 0 <= i < |ls| ensures SwapLabel(rest, word, a.key, b.key, ls[i]) {
      if i < |before| { assert ls[i] == ls[..|before|][i] == before[i]; }
    }
  }

  lemma {:induction false} RunPrefix(cfg: Config, s: State, ls: seq<Label>, n: nat)
    requires ValidRun(cfg, s, ls) && n <= |ls|
    ensures ValidRun(cfg, s, ls[..n])
    decreases |ls|
  {
    hide Enabled, Next;
    if n == |ls| {
      assert ls[..n] == ls;
    } else {
      assert ls[..|ls| - 1][..n] == ls[..n];
      RunPrefix(cfg, s, ls[..|ls| - 1], n);
    }
  }

  lemma InsideUnlucky(cfg: Config, n: State, a: Call)
    requires a.op.CompareExchange? && InLiveSection(cfg, n, 1) && Top(n.threads[1]).call == a && Read(n.mem, a.op.word) != a.op.expected
    ensures Unlucky(Abs(cfg, n), a)
  {
    AbsSetTop(cfg, n.threads[1], Top(n.threads[1]));
    hide Block, Settled, SetTop, ASetTop;
  }

  lemma AnsweredLucky(cfg: Config, n: State, a: Call)
    requires a.op.CompareExchange? && Answers(cfg, n, 1, a, Ok(a.op.expected))
    ensures !Unlucky(Abs(cfg, n), a)
  {
    AbsSetTop(cfg, n.threads[1], Top(n.threads[1]));
    AnswerSettled(cfg, Top(n.threads[1]));
    EveryBlockWellFormed(cfg.arch, OpcodeOf(a.op), a.key.kind);
    Ranged(BlockOf(cfg.arch, a), OpcodeOf(a.op), a.key.kind);
    hide Block, Settled, SetTop, ASetTop, WellFormed;
  }

  /** Under two keys there is a run that is not atomic, on either backend. */
  lemma TwoKeysTorn(arch: Arch, rest: Keying, word: usize, j: Key, k: Key, m0: Mem) returns (cfg: Config, s: State, ls: seq<Label>)
    requires Unused(rest, word) && j != k && CellsHold(rest, m0)
    ensures cfg.arch == arch && SwapRun(rest, word, j, k, cfg, s, ls) && !Refines(cfg, s, ls)
  {
    var a, b := Call(CompareExchange(word, 0, 1), j), Call(CompareExchange(word, 0, 2), k);
    var m := m0[word := 0];
    var before, whole;
    StillHolds(rest, word, m0, 0);
    cfg, s, before, whole := H.TwoKeysRace(arch, a, b, m);
    TwoSwapsKeyed(rest, word, before, whole, a, b);
    assert Read(StateAfter(cfg, s, before).mem, word) == 2;
    hide Refines, SwapLabel, AtRest, ValidRun, StateAfter, CellsHold, InLiveSection, Answers, Abs, Unlucky, H.TwoSwaps, Onward;
    if n: nat :| |before| <= n <= |whole| && !Refines(cfg, s, whole[..n]) {
      ls := whole[..n];
      RunPrefix(cfg, s, whole, n);
      assert forall i | 0 <= i < n :: ls[i] == whole[i];
    } else {
      InsideUnlucky(cfg, StateAfter(cfg, s, before), a);
      NeverOk(cfg, s, before, whole, a);
      AnsweredLucky(cfg, StateAfter(cfg, s, whole), a);
      assert false;
    }
  }

  /** Swaps of one word, in otherwise keyed runs, are atomic if and only if they are made under one key. */
  lemma OneKeyIff(rest: Keying, word: usize, j: Key, k: Key, m: Mem)
    requires Unused(rest, word) && CellsHold(rest, m)
    ensures SwapsAtomic(rest, word, j, k) <==> j == k
  {
    hide SwapRun, Refines, CellsHold;
    if j == k {
      forall cfg, s, ls | SwapRun(rest, word, j, k, cfg, s, ls) ensures Refines(cfg, s, ls) {
        OneKeyAtomic(rest, word, k, cfg, s, ls);
      }
    } else {
      var cfg, s, ls := TwoKeysTorn(Arm, rest, word, j, k, m);
    }
  }
}
