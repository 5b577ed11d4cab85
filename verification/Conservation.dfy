/** Counters lose nothing: the words always sum to what was there plus what was committed. */
module Conservation {
  import opened Bits
  import opened Ops
  import opened Isa
  import opened Operands
  import opened Blocks
  import opened Machine
  import opened Sections
  import opened Atomic
  import opened Refinement
  import opened Safety
  import opened Keys

  /** `sum_words`: the sum of the words, modulo 2^64. */
  function SumWords(m: Mem, addrs: seq<usize>): usize {
    if addrs == [] then 0 else WrapAdd(Read(m, addrs[0]), SumWords(m, addrs[1..]))
  }

  /** One word sums to its value, and two lists to the sum of their sums. */
  lemma {:induction false} SumSplits(m: Mem, left: seq<usize>, right: seq<usize>)
    ensures SumWords(m, left + right) == WrapAdd(SumWords(m, left), SumWords(m, right))
    ensures |left| == 1 ==> SumWords(m, left) == Read(m, left[0])
  {
    if left == [] {
      assert left + right == right;
    } else {
      SumSplits(m, left[1..], right);
      assert (left + right)[1..] == left[1..] + right;
    }
  }

  /** Words that are all zero sum to zero; none at all, too. */
  lemma {:induction false} SumOfZeros(m: Mem, addrs: seq<usize>)
    requires forall i | 0 <= i < |addrs| :: Read(m, addrs[i]) == 0
    ensures SumWords(m, addrs) == 0
  {
    if addrs != [] { SumOfZeros(m, addrs[1..]); }
  }

  predicate Distinct(addrs: seq<usize>) {
    forall i, j | 0 <= i < j < |addrs| :: addrs[i] != addrs[j]
  }

  lemma {:induction false} SumElsewhere(m: Mem, addrs: seq<usize>, a: usize, v: usize)
    requires a !in addrs
    ensures SumWords(m[a := v], addrs) == SumWords(m, addrs)
  {
    hide WrapAdd;
    if addrs != [] { SumElsewhere(m, addrs[1..], a, v); }
  }

  lemma {:induction false} SumChange(m: Mem, addrs: seq<usize>, a: usize, d: usize)
    requires a in addrs && Distinct(addrs)
    ensures SumWords(m[a := WrapAdd(Read(m, a), d)], addrs) == WrapAdd(SumWords(m, addrs), d)
  {
    if addrs[0] == a {
      SumElsewhere(m, addrs[1..], a, WrapAdd(Read(m, a), d));
    } else {
      SumChange(m, addrs[1..], a, d);
    }
  }

  /** What a successful call adds to the words: to the word it names, or to the one its pointers lead to. */
  function Increment(addrs: seq<usize>, call: Call, m: Mem): usize {
    match call.op
    case CompareExchange(word, expected, update) => if word in addrs then WrapSub(update, expected) else 0
    case FetchAdd(word, count) => if word in addrs then count else 0
    case StoreIf(word, expected, update, _, _) => if word in addrs then WrapSub(update, expected) else 0
    case CompareExchangeIf(word, expected, update, _, _) => if word in addrs then WrapSub(update, expected) else 0
    case LoadIfNe(_, _, _) => 0
    case FetchAddAt(ptr, offset, count) => if Read(m, WrapAdd(Read(m, ptr), offset)) in addrs then count else 0
  }

  /** Any call but those that would put a value of their own in a counted word: on the side, or from a chase. */
  predicate Counting(addrs: seq<usize>, call: Call) {
    && (call.op.StoreIf? ==> call.op.side !in addrs)
    && (call.op.LoadIfNe? ==> call.op.word !in addrs)
  }

  predicate AllCounting(addrs: seq<usize>, s: State) {
    forall t, i | t in s.threads && 0 <= i < |s.threads[t].stack| && s.threads[t].stack[i].Active? ::
      Counting(addrs, s.threads[t].stack[i].call)
  }

  /** What this step commits: the increment of a call that takes effect with Ok, else nothing. */
  function Committed(addrs: seq<usize>, cfg: Config, s: State, l: Label): usize
    requires Enabled(cfg, s, l)
  {
    if l.Step? && Commits(cfg, s, l.t) && CommitEffect(cfg, s, l.t).attempt.Ok?
    then Increment(addrs, Top(s.threads[l.t]).call, s.mem) else 0
  }

  function TotalCommitted(addrs: seq<usize>, cfg: Config, s: State, ls: seq<Label>): usize
    requires ValidRun(cfg, s, ls)
    decreases |ls|
  {
    if ls == [] then 0
    else WrapAdd(TotalCommitted(addrs, cfg, s, ls[..|ls| - 1]),
                 Committed(addrs, cfg, StateAfter(cfg, s, ls[..|ls| - 1]), ls[|ls| - 1]))
  }

  /** A successful call adds its increment to one word of the sum, or stores elsewhere only. */
  lemma EffectCounts(addrs: seq<usize>, call: Call, index: u32, m: Mem)
    requires Proper(call) && Counting(addrs, call) && Distinct(addrs)
    ensures
      var e := Meaning(call, index, m);
      SumWords(e.mem, addrs) == WrapAdd(SumWords(m, addrs), if e.attempt.Ok? then Increment(addrs, call, m) else 0)
  {
    var e := Meaning(call, index, m);
    if e.attempt.Ok? {
      hide SumWords, Distinct, WrapAdd;
      match call.op
      case FetchAdd(word, count) => SumAt(m, addrs, word, count);
      case StoreIf(word, expected, update, side, sideUpdate) =>
        SumElsewhere(m, addrs, side, sideUpdate);
        SideApart(call, m);
        SumAt(m[side := sideUpdate], addrs, word, WrapSub(update, expected));
      case FetchAddAt(ptr, offset, count) => SumAt(m, addrs, Read(m, WrapAdd(Read(m, ptr), offset)), count);
      case LoadIfNe(word, _, offset) => SumElsewhere(m, addrs, word, Read(m, WrapAdd(Read(m, word), offset)));
      case _ => SumAt(m, addrs, call.op.word, WrapSub(call.op.update, call.op.expected));
    }
    AddZero(SumWords(m, addrs));
  }

  lemma AddZero(a: usize)
    ensures WrapAdd(a, 0) == a
  {
  }

  /** A successful `store_if` finds in its word what it compares with, or has just put it there. */
  lemma SideApart(call: Call, m: Mem)
    requires Proper(call) && call.op.StoreIf? && Read(m, call.op.word) == call.op.expected
    ensures Read(m[call.op.side := call.op.sideUpdate], call.op.word) == call.op.expected
  {
  }

  lemma SumAt(m: Mem, addrs: seq<usize>, a: usize, d: usize)
    requires Distinct(addrs)
    ensures SumWords(m[a := WrapAdd(Read(m, a), d)], addrs) == WrapAdd(SumWords(m, addrs), if a in addrs then d else 0)
  {
    hide SumWords, Distinct, WrapAdd;
    AddZero(SumWords(m, addrs));
    if a in addrs { SumChange(m, addrs, a, d); } else { SumElsewhere(m, addrs, a, WrapAdd(Read(m, a), d)); }
  }

  /** New calls count, and plain stores go to none of the words. */
  predicate CountingLabel(addrs: seq<usize>, l: Label) {
    (l.Begin? ==> Counting(addrs, l.call)) && (l.Plain? ==> l.addr !in addrs)
  }

  lemma CountingNext(addrs: seq<usize>, cfg: Config, s: State, l: Label)
    requires Enabled(cfg, s, l) && AllCounting(addrs, s) && (l.Begin? ==> Counting(addrs, l.call))
    ensures AllCounting(addrs, Next(cfg, s, l))
  {
    hide Exec, InRange, Counting, Loaded, Touches;
  }

  /** A step that is not an instruction. */
  lemma CountQuiet(addrs: seq<usize>, cfg: Config, s: State, l: Label)
    requires Enabled(cfg, s, l) && !l.Step? && (l.Plain? ==> l.addr !in addrs)
    ensures SumWords(Next(cfg, s, l).mem, addrs) == SumWords(s.mem, addrs) && Committed(addrs, cfg, s, l) == 0
  {
    hide Exec, Block, SumWords, Loaded, Kick, InSection, Touches, Increment;
    if l.Plain? { SumElsewhere(s.mem, addrs, l.addr, l.value); }
  }

  /** An instruction. */
  lemma CountInstruction(addrs: seq<usize>, cfg: Config, s: State, t: Tid)
    requires Enabled(cfg, s, Step(t)) && Inv(cfg, s) && Distinct(addrs) && Counting(addrs, Top(s.threads[t]).call)
    requires Proper(Top(s.threads[t]).call)
    ensures SumWords(Next(cfg, s, Step(t)).mem, addrs) == WrapAdd(SumWords(s.mem, addrs), Committed(addrs, cfg, s, Step(t)))
  {
    var th := s.threads[t];
    var call := Top(th).call;
    hide Exec, Block, Inv, Meaning, SumWords, Distinct, InSection, Next, Enabled, ExecTop, Proper, Increment;
    if Commits(cfg, s, t) {
      CommitIsAtomic(cfg, s, t);
      EffectCounts(addrs, call, IndexOf(th.area, call.key.kind), s.mem);
      hide Commits;
    } else {
      NonCommitStep(cfg, s, t);
      hide Commits;
      if call.op.StoreIf? { SumElsewhere(s.mem, addrs, call.op.side, call.op.sideUpdate); }
    }
  }

  /** One step changes the sum by exactly what it commits. */
  lemma CountStep(addrs: seq<usize>, cfg: Config, s: State, l: Label)
    requires Enabled(cfg, s, l) && Inv(cfg, s) && AllCounting(addrs, s) && Distinct(addrs) && CountingLabel(addrs, l)
    ensures SumWords(Next(cfg, s, l).mem, addrs) == WrapAdd(SumWords(s.mem, addrs), Committed(addrs, cfg, s, l))
  {
    InvLocal(cfg, s);
    hide Exec, Block, Inv, Meaning, SumWords, Distinct, Loaded, InSection, Next, ExecTop, Committed, Counting, Proper, ThreadOk, Placed;
    if l.Step? {
      CountInstruction(addrs, cfg, s, l.t);
    } else {
      CountQuiet(addrs, cfg, s, l);
    }
  }

  /** For every disciplined run, whatever other words its calls are about: final sum = initial sum + what was committed. */
  lemma {:induction false} Conserved(addrs: seq<usize>, cfg: Config, s: State, ls: seq<Label>)
    requires Inv(cfg, s) && AllCounting(addrs, s) && Distinct(addrs) && ValidRun(cfg, s, ls) && DisciplinedRun(cfg, s, ls)
    requires forall i | 0 <= i < |ls| :: CountingLabel(addrs, ls[i])
    ensures Inv(cfg, StateAfter(cfg, s, ls)) && AllCounting(addrs, StateAfter(cfg, s, ls))
    ensures SumWords(StateAfter(cfg, s, ls).mem, addrs) == WrapAdd(SumWords(s.mem, addrs), TotalCommitted(addrs, cfg, s, ls))
    decreases |ls|
  {
    hide Enabled, Next, Inv, AllCounting, Counting, SumWords, Committed, Distinct, Disciplined;
    if ls != [] {
      var front, l := ls[..|ls| - 1], ls[|ls| - 1];
      Conserved(addrs, cfg, s, front);
      StepSafe(cfg, StateAfter(cfg, s, front), l);
      CountStep(addrs, cfg, StateAfter(cfg, s, front), l);
      CountingNext(addrs, cfg, StateAfter(cfg, s, front), l);
    }
  }

  /** In particular for every run that keeps the key discipline. */
  lemma KeyedConserved(k: Keying, addrs: seq<usize>, cfg: Config, s: State, ls: seq<Label>)
    requires Inv(cfg, s) && Sorted(k) && AllKeyed(k, s) && CellsHold(k, s.mem) && AllCounting(addrs, s) && Distinct(addrs)
    requires ValidRun(cfg, s, ls) && forall i | 0 <= i < |ls| :: KeyedLabel(k, ls[i]) && CountingLabel(addrs, ls[i])
    ensures SumWords(StateAfter(cfg, s, ls).mem, addrs) == WrapAdd(SumWords(s.mem, addrs), TotalCommitted(addrs, cfg, s, ls))
  {
    hide Inv, AllKeyed, AllCounting, KeyedLabel, CountingLabel, SumWords, Distinct, CellsHold, Sorted, ValidRun, StateAfter;
    assert KeyedRun(k, ls);
    KeyedRunRefines(k, cfg, s, ls);
    Conserved(addrs, cfg, s, ls);
  }
}
