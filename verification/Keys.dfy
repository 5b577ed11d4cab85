/** One key at a time for every word: the discipline that makes every run of word operations atomic. */
module Keys {
  import opened Bits
  import opened Ops
  import opened Isa
  import opened Operands
  import opened Blocks
  import opened Machine
  import opened Sections
  import opened Atomic
  import opened Refinement

  predicate APlaced(a: AState) {
    && (forall t | t in a.threads && a.threads[t].place.On? :: a.threads[t].cpuId == a.threads[t].place.cpu)
    && (forall t, u | t in a.threads && u in a.threads && t != u && a.threads[t].place.On? && a.threads[u].place.On? ::
          a.threads[t].place.cpu != a.threads[u].place.cpu && a.threads[t].mmCid != a.threads[u].mmCid)
  }

  lemma PlacedAbove(cfg: Config, s: State)
    requires Placed(s)
    ensures APlaced(Abs(cfg, s))
  {
    hide AbsContext;
    assert forall t | t in s.threads :: Abs(cfg, s).threads[t] == AbsThread(cfg, s.threads[t]);
  }

  /** The thread's index field holds the key of its pending call: its index check passes. */
  predicate Confirmed(a: AState, t: Tid) {
    IsPending(a, t) && AIndex(a.threads[t], CallOf(a, t).key.kind) == CallOf(a, t).key.id
  }

  /** At most one running thread per key is past its index check. */
  lemma Exclusion(a: AState, t: Tid, u: Tid)
    requires APlaced(a) && t != u && Confirmed(a, t) && Confirmed(a, u)
    ensures CallOf(a, t).key != CallOf(a, u).key
  {
    hide CallOf;
  }

  /** One key at a time: of two running calls past their index checks, with different keys, neither would
      store to a word the other depends on, chased words included. */
  ghost predicate OneKeyAtATime(a: AState) {
    forall t, u | Confirmed(a, t) && Confirmed(a, u) && CallOf(a, t).key != CallOf(a, u).key ::
      EffectOf(a, t).writes !! EffectOf(a, u).access
  }

  /** A plain store lands on nothing another call past its index check depends on. */
  ghost predicate PlainApart(a: AState, l: ALabel) {
    l.Write? ==> forall u | Confirmed(a, u) && u != l.t :: l.addr !in EffectOf(a, u).access
  }

  lemma OnlyConfirmed(a: AState, t: Tid, x: usize)
    requires IsPending(a, t) && x in EffectOf(a, t).access
    ensures Confirmed(a, t)
  {
    hide WrapAdd;
  }

  lemma WritesInAccess(a: AState, t: Tid)
    requires IsPending(a, t)
    ensures EffectOf(a, t).writes <= EffectOf(a, t).access
  {
    hide WrapAdd;
  }

  lemma StoresAreWrites(a: AState, l: ALabel)
    requires AEnabled(a, l) && !l.Write? && Stores(a, l) != {}
    ensures !l.Silent? && Actor(l) == l.t && IsPending(a, l.t) && Stores(a, l) <= EffectOf(a, l.t).writes
  {
    hide Meaning;
  }

  lemma ApartRaceFree(a: AState, l: ALabel)
    requires APlaced(a) && AEnabled(a, l) && OneKeyAtATime(a) && PlainApart(a, l)
    ensures RaceFree(a, l)
  {
    forall u, x | IsPending(a, u) && u != Actor(l) && x in Stores(a, l) ensures x !in EffectOf(a, u).access {
      if x in EffectOf(a, u).access {
        OnlyConfirmed(a, u, x);
        if !l.Write? {
          StoresAreWrites(a, l);
          WritesInAccess(a, l.t);
          OnlyConfirmed(a, l.t, x);
          hide EffectOf, Confirmed, CallOf, APlaced, Stores;
          Exclusion(a, l.t, u);
        }
      }
    }
  }

  /** Every step of a run finds one key at a time, and begins only proper calls. */
  ghost predicate ApartRun(cfg: Config, s: State, ls: seq<Label>)
    requires ValidRun(cfg, s, ls)
    decreases |ls|
  {
    ls != [] ==>
      var front, l := ls[..|ls| - 1], ls[|ls| - 1];
      var n := StateAfter(cfg, s, front);
      && ApartRun(cfg, s, front)
      && (l.Begin? ==> Proper(l.call)) && OneKeyAtATime(Abs(cfg, n)) && PlainApart(Abs(cfg, n), Observe(cfg, n, l))
  }

  lemma ApartDisciplined(cfg: Config, s: State, l: Label)
    requires Enabled(cfg, s, l) && Inv(cfg, s) && (l.Begin? ==> Proper(l.call))
    requires OneKeyAtATime(Abs(cfg, s)) && PlainApart(Abs(cfg, s), Observe(cfg, s, l))
    ensures Disciplined(cfg, s, l)
  {
    InvLocal(cfg, s);
    PlacedAbove(cfg, s);
    hide Abs, Observe, OneKeyAtATime, PlainApart, RaceFree, APlaced, AEnabled, Enabled;
    if AEnabled(Abs(cfg, s), Observe(cfg, s, l)) { ApartRaceFree(Abs(cfg, s), Observe(cfg, s, l)); }
  }

  /** Linearizability of all six operations, chases included, whenever words are used under one key at a
      time: any threads, any CPUs, any interruptions. */
  lemma {:induction false} ApartRunRefines(cfg: Config, s: State, ls: seq<Label>)
    requires Inv(cfg, s) && ValidRun(cfg, s, ls) && ApartRun(cfg, s, ls)
    ensures DisciplinedRun(cfg, s, ls) && Inv(cfg, StateAfter(cfg, s, ls))
    ensures AValidRun(Abs(cfg, s), ObserveRun(cfg, s, ls))
    ensures Abs(cfg, StateAfter(cfg, s, ls)) == AStateAfter(Abs(cfg, s), ObserveRun(cfg, s, ls))
    decreases |ls|
  {
    hide Enabled, Next, ANext, AEnabled, Abs, Observe, Inv, Disciplined, OneKeyAtATime, PlainApart;
    if ls != [] {
      ApartRunRefines(cfg, s, ls[..|ls| - 1]);
      ApartDisciplined(cfg, StateAfter(cfg, s, ls[..|ls| - 1]), ls[|ls| - 1]);
    }
    RunRefines(cfg, s, ls);
  }

  /** A key for every word that is stored to, the values of the words nobody stores to, and for some of the former
      all values they ever hold. */
  datatype Keying = Keying(owner: map<usize, Key>, cells: map<usize, usize>, values: map<usize, set<usize>>)

  /** No word is both. */
  predicate Sorted(k: Keying) {
    k.owner.Keys !! k.cells.Keys && k.values.Keys <= k.owner.Keys
  }

  predicate Owned(k: Keying, key: Key, a: usize) {
    a in k.owner && k.owner[a] == key
  }

  /** A value the word may hold. */
  predicate Fits(k: Keying, a: usize, v: usize) {
    a in k.values ==> v in k.values[a]
  }

  /** Everything a pending call stores to belongs to its key, and everything it depends on does or is constant. */
  predicate Coloured(k: Keying, a: AState, t: Tid)
    requires IsPending(a, t)
  {
    && (forall x | x in EffectOf(a, t).writes :: Owned(k, CallOf(a, t).key, x))
    && (forall x | x in EffectOf(a, t).access :: Owned(k, CallOf(a, t).key, x) || x in k.cells)
  }

  lemma ColouredApart(k: Keying, a: AState, l: ALabel)
    requires Sorted(k) && forall t | IsPending(a, t) :: Coloured(k, a, t)
    requires l.Write? ==> l.addr !in k.owner && l.addr !in k.cells
    ensures OneKeyAtATime(a) && PlainApart(a, l)
  {
    forall t, u | Confirmed(a, t) && Confirmed(a, u) && CallOf(a, t).key != CallOf(a, u).key
      ensures EffectOf(a, t).writes !! EffectOf(a, u).access
    {
      assert Coloured(k, a, t) && Coloured(k, a, u);
    }
  }

  /** The words a call names belong to its key, or are constant where it only reads them. */
  predicate Keyed(k: Keying, call: Call) {
    && Proper(call) && Tame(k, call)
    && match call.op
       case CompareExchange(word, _, _) => Owned(k, call.key, word)
       case FetchAdd(word, _) => Owned(k, call.key, word)
       case StoreIf(word, _, _, side, _) => Owned(k, call.key, word) && Owned(k, call.key, side)
       case CompareExchangeIf(word, _, _, other, _) =>
         Owned(k, call.key, word) && (Owned(k, call.key, other) || other in k.cells)
       case LoadIfNe(word, _, _) => Owned(k, call.key, word)
       case FetchAddAt(ptr, offset, _) => Owned(k, call.key, SlotOf(k, ptr, offset))
  }

  /** It stores to words only what they may hold, and the pointers it chases lead where they should. Where nothing is
      said of the values of words, and nothing is chased, this is so. */
  predicate Tame(k: Keying, call: Call) {
    match call.op
    case CompareExchange(word, _, update) => Fits(k, word, update)
    case FetchAdd(word, _) => word !in k.values
    case StoreIf(word, _, update, side, sideUpdate) => Fits(k, word, update) && Fits(k, side, sideUpdate)
    case CompareExchangeIf(word, _, update, _, _) => Fits(k, word, update)
    case LoadIfNe(word, avoided, offset) => Chases(k, call.key, word, avoided, offset)
    case FetchAddAt(ptr, offset, _) => SlotOf(k, ptr, offset) !in k.values && Leads(k, ptr, offset)
  }

  /** Whatever pointer the word holds, it leads to a word of the same key or a constant one, which holds what the
      first word may hold. */
  predicate Chases(k: Keying, key: Key, word: usize, avoided: usize, offset: usize) {
    && word in k.values
    && forall v | v in k.values[word] && v != avoided :: Chased(k, key, k.values[word], WrapAdd(v, offset))
  }

  predicate Chased(k: Keying, key: Key, values: set<usize>, c: usize) {
    || (Owned(k, key, c) && c in k.values && k.values[c] <= values)
    || (c in k.cells && k.cells[c] in values)
  }

  /** Where a `fetch_add_at` adds: through a pointer and an entry of the table it points to. */
  function SlotOf(k: Keying, ptr: usize, offset: usize): usize {
    Read(k.cells, WrapAdd(Read(k.cells, ptr), offset))
  }

  predicate Leads(k: Keying, ptr: usize, offset: usize) {
    ptr in k.cells && WrapAdd(k.cells[ptr], offset) in k.cells
  }

  predicate AllKeyed(k: Keying, s: State) {
    forall t, i | t in s.threads && 0 <= i < |s.threads[t].stack| && s.threads[t].stack[i].Active? ::
      Keyed(k, s.threads[t].stack[i].call)
  }

  /** Memory holds what the words are said to hold. */
  predicate CellsHold(k: Keying, m: Mem) {
    (forall a | a in k.cells :: Read(m, a) == k.cells[a]) && (forall a | a in k.values :: Fits(k, a, Read(m, a)))
  }

  /** New calls are keyed; plain stores go elsewhere. */
  predicate KeyedLabel(k: Keying, l: Label) {
    (l.Begin? ==> Keyed(k, l.call)) && (l.Plain? ==> l.addr !in k.owner && l.addr !in k.cells)
  }

  /** A keyed call stores only to words of its key, and what they may hold, and depends on nothing but those and
      constants. */
  lemma KeyedEffect(k: Keying, call: Call, index: u32, m: Mem)
    requires Keyed(k, call) && CellsHold(k, m)
    ensures
      var e := Meaning(call, index, m);
      && (forall x | x in e.writes :: Owned(k, call.key, x) && Fits(k, x, Read(e.mem, x)))
      && (forall x | x in e.access :: Owned(k, call.key, x) || x in k.cells)
  {
    hide WrapAdd, Proper, Owned;
    if index == call.key.id && call.op.LoadIfNe? {
      var held := Read(m, call.op.word);
      assert Fits(k, call.op.word, held);
      if held != call.op.avoided {
        assert Chased(k, call.key, k.values[call.op.word], WrapAdd(held, call.op.offset));
      }
    }
  }

  lemma KeyedAbove(k: Keying, cfg: Config, s: State, t: Tid)
    requires AllKeyed(k, s) && IsPending(Abs(cfg, s), t)
    ensures Keyed(k, CallOf(Abs(cfg, s), t))
  {
    hide Block, Settled, Keyed;
    assert Keyed(k, Top(s.threads[t]).call);
  }

  lemma KeyedColoured(k: Keying, cfg: Config, s: State, t: Tid)
    requires AllKeyed(k, s) && CellsHold(k, s.mem) && IsPending(Abs(cfg, s), t)
    ensures Coloured(k, Abs(cfg, s), t)
  {
    KeyedAbove(k, cfg, s, t);
    var call := CallOf(Abs(cfg, s), t);
    hide Block, Settled, Proper, WrapAdd, Meaning, Keyed, CellsHold, Fits, Owned, AbsThread;
    KeyedEffect(k, call, AIndex(Abs(cfg, s).threads[t], call.key.kind), s.mem);
  }

  lemma KeyedNext(k: Keying, cfg: Config, s: State, l: Label)
    requires Enabled(cfg, s, l) && AllKeyed(k, s) && KeyedLabel(k, l)
    ensures AllKeyed(k, Next(cfg, s, l))
  {
    hide Exec, InRange, Keyed, Loaded, Touches;
  }

  lemma AllColoured(k: Keying, cfg: Config, s: State)
    requires AllKeyed(k, s) && CellsHold(k, s.mem)
    ensures forall t | IsPending(Abs(cfg, s), t) :: Coloured(k, Abs(cfg, s), t) && Keyed(k, CallOf(Abs(cfg, s), t))
  {
    forall t | IsPending(Abs(cfg, s), t) ensures Coloured(k, Abs(cfg, s), t) && Keyed(k, CallOf(Abs(cfg, s), t)) {
      KeyedAbove(k, cfg, s, t);
      KeyedColoured(k, cfg, s, t);
    }
  }

  /** One step of keyed calls is disciplined and leaves memory as it is said to be. */
  lemma KeyedStep(k: Keying, cfg: Config, s: State, l: Label)
    requires Enabled(cfg, s, l) && Inv(cfg, s) && Sorted(k) && AllKeyed(k, s) && CellsHold(k, s.mem) && KeyedLabel(k, l)
    ensures Disciplined(cfg, s, l) && CellsHold(k, Next(cfg, s, l).mem)
  {
    AllColoured(k, cfg, s);
    assert l.Begin? ==> Proper(l.call);
    StepRefines(cfg, s, l);
    PlainIsWrite(cfg, s, l);
    hide Exec, Block, EffectOf, AllKeyed, Enabled, ExecTop, Abs, Next, Observe, Inv, Keyed, AEnabled, CellsHold, Coloured, Sorted;
    ColouredApart(k, Abs(cfg, s), Observe(cfg, s, l));
    ApartDisciplined(cfg, s, l);
    CellsKept(k, Abs(cfg, s), Observe(cfg, s, l));
  }

  lemma PlainIsWrite(cfg: Config, s: State, l: Label)
    requires Enabled(cfg, s, l)
    ensures Abs(cfg, s).mem == s.mem && Abs(cfg, Next(cfg, s, l)).mem == Next(cfg, s, l).mem
    ensures Observe(cfg, s, l).Write? ==> l.Plain? && Observe(cfg, s, l).addr == l.addr
  {
    hide Exec, Block, Enabled, AbsThread;
  }

  /** What a keyed call stores is what the word may hold. */
  lemma StoresFit(k: Keying, a: AState, l: ALabel, x: usize)
    requires AEnabled(a, l) && !l.Write? && CellsHold(k, a.mem) && x in Stores(a, l)
    requires IsPending(a, l.t) ==> Keyed(k, CallOf(a, l.t))
    ensures IsPending(a, l.t) && Owned(k, CallOf(a, l.t).key, x) && Fits(k, x, Read(ANext(a, l).mem, x))
  {
    hide WrapAdd, Meaning, CellsHold, Fits, Owned, Proper, Chases;
    var call := CallOf(a, l.t);
    KeyedEffect(k, call, AIndex(a.threads[l.t], call.key.kind), a.mem);
  }

  lemma CellsKept(k: Keying, a: AState, l: ALabel)
    requires AEnabled(a, l) && Sorted(k) && CellsHold(k, a.mem)
    requires forall t | IsPending(a, t) :: Keyed(k, CallOf(a, t))
    requires l.Write? ==> l.addr !in k.cells && l.addr !in k.owner
    ensures CellsHold(k, ANext(a, l).mem)
  {
    hide AEnabled, ANext, EffectOf, Keyed, Fits, Stores;
    forall x | x in k.cells || x in k.values
      ensures (x in k.cells ==> Read(ANext(a, l).mem, x) == k.cells[x]) && (x in k.values ==> Fits(k, x, Read(ANext(a, l).mem, x)))
    {
      if x in Stores(a, l) {
        if l.Write? {
          OnlyThere(a, l, x);
        } else {
          StoresAreWrites(a, l);
          StoresFit(k, a, l, x);
        }
      } else {
        StoresOnly(a, l, x);
      }
    }
  }

  lemma OnlyThere(a: AState, l: ALabel, x: usize)
    requires AEnabled(a, l) && l.Write? && x in Stores(a, l)
    ensures x == l.addr
  {
  }

  predicate KeyedRun(k: Keying, ls: seq<Label>) {
    forall i | 0 <= i < |ls| :: KeyedLabel(k, ls[i])
  }

  /** Linearizability from the key discipline alone: any threads, any CPUs, any interruptions. */
  lemma {:induction false} KeyedRunRefines(k: Keying, cfg: Config, s: State, ls: seq<Label>)
    requires Inv(cfg, s) && Sorted(k) && AllKeyed(k, s) && CellsHold(k, s.mem) && ValidRun(cfg, s, ls) && KeyedRun(k, ls)
    ensures DisciplinedRun(cfg, s, ls) && Inv(cfg, StateAfter(cfg, s, ls))
    ensures AllKeyed(k, StateAfter(cfg, s, ls)) && CellsHold(k, StateAfter(cfg, s, ls).mem)
    ensures AValidRun(Abs(cfg, s), ObserveRun(cfg, s, ls))
    ensures Abs(cfg, StateAfter(cfg, s, ls)) == AStateAfter(Abs(cfg, s), ObserveRun(cfg, s, ls))
    decreases |ls|
  {
    hide Enabled, Next, ANext, AEnabled, Abs, Observe, Inv, Disciplined, AllKeyed, KeyedLabel, CellsHold, Sorted;
    if ls != [] {
      var front, l := ls[..|ls| - 1], ls[|ls| - 1];
      KeyedRunRefines(k, cfg, s, front);
      KeyedStep(k, cfg, StateAfter(cfg, s, front), l);
      KeyedNext(k, cfg, StateAfter(cfg, s, front), l);
    }
    RunRefines(cfg, s, ls);
  }
}
