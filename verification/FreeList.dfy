/** Per-CPU intrusive stacks: `store_if` pushes and `load_if_ne` pops, interleaved in any way. */
module FreeList {
  import opened Bits
  import opened Ops
  import opened Isa
  import opened Operands
  import opened Blocks
  import opened Machine
  import opened Sections
  import opened Atomic
  import opened Refinement
  import opened Safety
  import opened Keys
  import opened Conservation

  /** Node addresses, the head word of each CPU, the byte offset of a node's `next` field, the node each other
      word of a node belongs to, and the words that have nothing to do with the lists. */
  datatype Heap = Heap(nodes: set<usize>, heads: map<u32, usize>, off: usize, body: map<usize, usize>, rest: Keying)

  function Field(h: Heap, n: usize): usize {
    WrapAdd(n, h.off)
  }

  /** Neither a head nor a `next` field. */
  predicate OffLists(h: Heap, x: usize) {
    (forall c | c in h.heads :: h.heads[c] != x) && (forall n | n in h.nodes :: Field(h, n) != x)
  }

  /** No node is null, and no word is two things at a time. */
  predicate GoodHeap(h: Heap) {
    && 0 !in h.nodes
    && (forall c, d | c in h.heads && d in h.heads && c != d :: h.heads[c] != h.heads[d])
    && (forall c, n | c in h.heads && n in h.nodes :: h.heads[c] != Field(h, n))
    && (forall x | x in h.body :: OffLists(h, x) && h.body[x] in h.nodes)
    && (forall x | x in h.rest.owner || x in h.rest.cells :: OffLists(h, x) && x !in h.body)
    && Sorted(h.rest)
  }

  lemma FieldInjective(h: Heap, n: usize, k: usize)
    requires Field(h, n) == Field(h, k)
    ensures n == k
  {
  }

  /** Which nodes are on which list, in order, and which thread holds each of the others. */
  datatype Lists = Lists(on: map<u32, seq<usize>>, held: map<usize, Tid>)

  function PopCall(h: Heap, c: u32): Call
    requires c in h.heads
  {
    Call(LoadIfNe(h.heads[c], 0, h.off), Key(CpuIndex, c))
  }

  /** Push `n` over the head the caller last read, whatever that was. */
  function PushCall(h: Heap, c: u32, n: usize, head: usize): Call
    requires c in h.heads
  {
    Call(StoreIf(h.heads[c], head, n, Field(h, n), head), Key(CpuIndex, c))
  }

  predicate IsPop(h: Heap, call: Call) {
    call.key.id in h.heads && call == PopCall(h, call.key.id)
  }

  predicate IsPush(h: Heap, call: Call) {
    && call.op.StoreIf? && call.op.update in h.nodes
    && call.key.id in h.heads && call == PushCall(h, call.key.id, call.op.update, call.op.expected)
  }

  /** The words of one node as words of one key. */
  function NodeWords(h: Heap, n: usize, key: Key): Keying {
    Keying(map x | x in h.body && h.body[x] == n :: key, h.rest.cells, map[])
  }

  /** The node whose word a call is about. */
  function UsedNode(h: Heap, call: Call): usize {
    var w := if call.op.FetchAddAt? then SlotOf(h.rest, call.op.word, call.op.offset) else call.op.word;
    if w in h.body then h.body[w] else 0
  }

  /** A call on the words of one node, other than its `next` field, under any key. */
  predicate IsUse(h: Heap, call: Call) {
    Keyed(NodeWords(h, UsedNode(h, call), call.key), call)
  }

  /** A call that has nothing to do with the lists and keeps the key discipline. */
  predicate IsAside(h: Heap, call: Call) {
    Keyed(h.rest, call)
  }

  predicate Handles(h: Heap, call: Call) {
    IsPush(h, call) || IsUse(h, call)
  }

  function NodeIn(h: Heap, call: Call): usize {
    if IsPush(h, call) then call.op.update else UsedNode(h, call)
  }

  /** The lists and the held nodes partition the nodes. */
  ghost predicate Partition(h: Heap, fl: Lists) {
    && fl.on.Keys == h.heads.Keys
    && (forall c, i | c in fl.on && 0 <= i < |fl.on[c]| :: fl.on[c][i] in h.nodes && fl.on[c][i] !in fl.held)
    && (forall c, i, d, j | c in fl.on && d in fl.on && 0 <= i < |fl.on[c]| && 0 <= j < |fl.on[d]|
                            && fl.on[c][i] == fl.on[d][j] :: c == d && i == j)
    && fl.held.Keys <= h.nodes
    && (forall n | n in h.nodes && n !in fl.held :: exists c :: c in fl.on && n in fl.on[c])
  }

  /** The word that links to position `i`: the head, or the previous node's field. */
  function Link(h: Heap, c: u32, l: seq<usize>, i: nat): usize
    requires c in h.heads && i <= |l|
  {
    if i == 0 then h.heads[c] else Field(h, l[i - 1])
  }

  function At(l: seq<usize>, i: nat): usize {
    if i < |l| then l[i] else 0
  }

  /** Memory spells out the list from its head to a null link: it is acyclic and ends. */
  ghost predicate Chain(h: Heap, m: Mem, c: u32, l: seq<usize>)
    requires c in h.heads
  {
    forall i | 0 <= i <= |l| :: Read(m, Link(h, c, l, i)) == At(l, i)
  }

  ghost predicate Spelled(h: Heap, m: Mem, fl: Lists) {
    forall c | c in h.heads && c in fl.on :: Chain(h, m, c, fl.on[c])
  }

  predicate InStack(a: AState, t: Tid, i: nat) {
    t in a.threads && i < |a.threads[t].stack| && a.threads[t].stack[i].Pending?
  }

  function CallIn(a: AState, t: Tid, i: nat): Call
    requires InStack(a, t, i)
  {
    a.threads[t].stack[i].call
  }

  predicate HeldBy(fl: Lists, n: usize, t: Tid) {
    n in fl.held && fl.held[n] == t
  }

  /** One of the two is a push of the other's node. */
  predicate Clash(h: Heap, a: Call, b: Call) {
    Handles(h, a) && Handles(h, b) && (IsPush(h, a) || IsPush(h, b)) && NodeIn(h, a) == NodeIn(h, b)
  }

  /** What a thread may be doing: pop, work on nodes it holds or push them, or anything apart from the lists. */
  predicate Allowed(h: Heap, fl: Lists, call: Call, t: Tid) {
    IsPop(h, call) || IsAside(h, call) || (Handles(h, call) && HeldBy(fl, NodeIn(h, call), t))
  }

  /** Every pending call is allowed, and a node being pushed is being used for nothing else. */
  ghost predicate Owners(h: Heap, fl: Lists, a: AState) {
    && (forall t, i | InStack(a, t, i) :: Allowed(h, fl, CallIn(a, t, i), t))
    && (forall t, i, j | InStack(a, t, i) && InStack(a, t, j) && i != j :: !Clash(h, CallIn(a, t, i), CallIn(a, t, j)))
  }

  ghost predicate ListInv(h: Heap, fl: Lists, a: AState) {
    Partition(h, fl) && Spelled(h, a.mem, fl) && CellsHold(h.rest, a.mem) && Owners(h, fl, a)
  }

  /** The client's side: it pops at will, works on and pushes nodes it holds, one push a node, does anything
      keyed elsewhere, and stores plainly only to words of nodes it holds and to words that are nobody's. */
  ghost predicate ListLabel(h: Heap, fl: Lists, a: AState, l: ALabel) {
    && (l.Invoke? ==>
          && Allowed(h, fl, l.call, l.t)
          && forall i | InStack(a, l.t, i) :: !Clash(h, CallIn(a, l.t, i), l.call))
    && (l.Write? ==> OffLists(h, l.addr) && l.addr !in h.rest.owner && l.addr !in h.rest.cells
                     && (l.addr in h.body ==> HeldBy(fl, h.body[l.addr], l.t)))
  }

  /** A successful pop moves the first node to its thread; a successful push puts the node on top. */
  function ListsNext(h: Heap, fl: Lists, a: AState, l: ALabel): Lists {
    if l.Commit? && IsPending(a, l.t) && EffectOf(a, l.t).attempt.Ok? && CallOf(a, l.t).key.id in fl.on then
      var call := CallOf(a, l.t);
      var c := call.key.id;
      if IsPush(h, call) then
        Lists(fl.on[c := [call.op.update] + fl.on[c]], fl.held - {call.op.update})
      else if IsPop(h, call) && fl.on[c] != [] then
        Lists(fl.on[c := fl.on[c][1..]], fl.held[fl.on[c][0] := l.t])
      else fl
    else fl
  }

  /** What a confirmed pop would do now: take the first node of its own list, or miss on an empty one. */
  lemma PopEffect(h: Heap, fl: Lists, a: AState, t: Tid)
    requires GoodHeap(h) && Partition(h, fl) && Spelled(h, a.mem, fl) && Confirmed(a, t) && IsPop(h, CallOf(a, t))
    ensures
      var c := CallOf(a, t).key.id;
      var l := fl.on[c];
      EffectOf(a, t) ==
        if l == [] then Effect(Miss(0), a.mem, {}, {h.heads[c]})
        else Effect(Ok(l[0]), a.mem[h.heads[c] := At(l, 1)], {h.heads[c]}, {h.heads[c], Field(h, l[0])})
  {
    hide WrapAdd;
    var c := CallOf(a, t).key.id;
    var l := fl.on[c];
    assert Chain(h, a.mem, c, l);
    assert Read(a.mem, Link(h, c, l, 0)) == At(l, 0);
    if l != [] {
      assert Read(a.mem, Link(h, c, l, 1)) == At(l, 1);
      assert l[0] in h.nodes;
    }
  }

  /** What a confirmed push would do now: link its node in front, or miss on another head. */
  lemma PushEffect(h: Heap, fl: Lists, a: AState, t: Tid)
    requires Partition(h, fl) && Spelled(h, a.mem, fl) && Confirmed(a, t) && IsPush(h, CallOf(a, t))
    ensures
      var c, n := CallOf(a, t).key.id, CallOf(a, t).op.update;
      var first := At(fl.on[c], 0);
      EffectOf(a, t) ==
        if CallOf(a, t).op.expected == first then
          Effect(Ok(first), a.mem[Field(h, n) := first][h.heads[c] := n], {h.heads[c], Field(h, n)}, {h.heads[c], Field(h, n)})
        else Effect(Miss(first), a.mem, {}, {h.heads[c]})
  {
    hide WrapAdd;
    var c := CallOf(a, t).key.id;
    assert Chain(h, a.mem, c, fl.on[c]);
    assert Read(a.mem, Link(h, c, fl.on[c], 0)) == At(fl.on[c], 0);
  }

  lemma AllowedNow(h: Heap, fl: Lists, a: AState, t: Tid)
    requires Owners(h, fl, a) && IsPending(a, t)
    ensures Allowed(h, fl, CallOf(a, t), t)
  {
    hide Allowed, Clash;
    TopCall(a, t);
  }

  predicate IsList(h: Heap, call: Call) {
    IsPop(h, call) || IsPush(h, call)
  }

  /** A pending call touches, if it is a list call, its own head and one `next` field that is its own; if it
      is about a node, words of that node; if not, words of its key; and constants. */
  predicate Zone(h: Heap, fl: Lists, call: Call, t: Tid, x: usize) {
    if IsList(h, call) then
      var c := call.key.id;
      call.key.kind.CpuIndex? && c in h.heads && c in fl.on && (
      || x == h.heads[c]
      || (IsPop(h, call) && fl.on[c] != [] && x == Field(h, fl.on[c][0]))
      || (IsPush(h, call) && HeldBy(fl, call.op.update, t) && x == Field(h, call.op.update)))
    else
      || x in h.rest.cells
      || (x in h.body && HeldBy(fl, h.body[x], t))
      || Owned(h.rest, call.key, x)
  }

  lemma ListAccess(h: Heap, fl: Lists, a: AState, t: Tid, x: usize)
    requires GoodHeap(h) && ListInv(h, fl, a) && IsPending(a, t) && x in EffectOf(a, t).access
    ensures Confirmed(a, t) && Zone(h, fl, CallOf(a, t), t, x)
    ensures x in EffectOf(a, t).writes && !IsList(h, CallOf(a, t)) ==> x !in h.rest.cells
  {
    AllowedNow(h, fl, a, t);
    OnlyConfirmed(a, t, x);
    var call := CallOf(a, t);
    assert Partition(h, fl) && Spelled(h, a.mem, fl) && CellsHold(h.rest, a.mem);
    hide *;
    if IsList(h, call) {
      ListCallAccess(h, fl, a, t, x);
    } else {
      OffListAccess(h, fl, a, t, x);
      OffListZone(h, fl, call, t, x);
    }
  }

  lemma ListCallAccess(h: Heap, fl: Lists, a: AState, t: Tid, x: usize)
    requires GoodHeap(h) && Partition(h, fl) && Spelled(h, a.mem, fl) && Confirmed(a, t) && IsList(h, CallOf(a, t))
    requires Allowed(h, fl, CallOf(a, t), t) && x in EffectOf(a, t).access
    ensures Zone(h, fl, CallOf(a, t), t, x)
  {
    var call := CallOf(a, t);
    assert fl.on.Keys == h.heads.Keys;
    if IsPop(h, call) {
      hide WrapAdd, Spelled, GoodHeap, IsUse, IsAside, Meaning, Partition;
      PopEffect(h, fl, a, t);
    } else {
      PushIsHandled(h, fl, call, t);
      hide WrapAdd, Spelled, GoodHeap, IsUse, IsAside, Meaning, Partition, Allowed;
      PushEffect(h, fl, a, t);
    }
  }

  lemma OffListZone(h: Heap, fl: Lists, call: Call, t: Tid, x: usize)
    requires !IsList(h, call) && (x in h.rest.cells || (x in h.body && HeldBy(fl, h.body[x], t)) || Owned(h.rest, call.key, x))
    ensures Zone(h, fl, call, t, x)
  {
  }

  lemma OffListAccess(h: Heap, fl: Lists, a: AState, t: Tid, x: usize)
    requires GoodHeap(h) && CellsHold(h.rest, a.mem) && IsPending(a, t) && !IsList(h, CallOf(a, t))
    requires Allowed(h, fl, CallOf(a, t), t) && x in EffectOf(a, t).access
    ensures x in h.rest.cells || (x in h.body && HeldBy(fl, h.body[x], t)) || Owned(h.rest, CallOf(a, t).key, x)
    ensures x in EffectOf(a, t).writes ==> x !in h.rest.cells
  {
    hide WrapAdd, Keyed, IsPop, IsPush, Meaning;
    var call := CallOf(a, t);
    if IsAside(h, call) {
      KeyedEffect(h.rest, call, AIndex(a.threads[t], call.key.kind), a.mem);
    } else {
      KeyedEffect(NodeWords(h, UsedNode(h, call), call.key), call, AIndex(a.threads[t], call.key.kind), a.mem);
    }
  }

  /** No call stores to a word that another thread's pending call depends on. */
  lemma ListsApart(h: Heap, fl: Lists, a: AState, t: Tid, u: Tid, x: usize)
    requires GoodHeap(h) && APlaced(a) && ListInv(h, fl, a) && t != u && IsPending(a, t) && IsPending(a, u)
    requires x in EffectOf(a, t).writes
    ensures x !in EffectOf(a, u).access
  {
    WritesInAccess(a, t);
    hide EffectOf, WrapAdd, Spelled, Owners, APlaced;
    if x in EffectOf(a, u).access {
      ListAccess(h, fl, a, t, x);
      ListAccess(h, fl, a, u, x);
      Exclusion(a, t, u);
      hide CallOf, Confirmed;
      ZonesApart(h, fl, CallOf(a, t), t, CallOf(a, u), u, x);
    }
  }

  /** The node whose link a list call follows or sets. */
  function Linked(h: Heap, fl: Lists, call: Call): usize {
    if IsPush(h, call) then call.op.update else if call.key.id in fl.on then At(fl.on[call.key.id], 0) else 0
  }

  lemma ZonesApart(h: Heap, fl: Lists, call: Call, t: Tid, other: Call, u: Tid, x: usize)
    requires GoodHeap(h) && Partition(h, fl) && t != u && call.key != other.key
    requires Zone(h, fl, call, t, x) && (!IsList(h, call) ==> x !in h.rest.cells)
    ensures !Zone(h, fl, other, u, x)
  {
    hide Keyed;
    if IsList(h, call) && IsList(h, other) {
      if x == Field(h, Linked(h, fl, call)) && x == Field(h, Linked(h, fl, other)) {
        FieldInjective(h, Linked(h, fl, call), Linked(h, fl, other));
      }
    } else if IsList(h, call) {
      ListZone(h, fl, call, t, x);
    } else if IsList(h, other) {
      if Zone(h, fl, other, u, x) { ListZone(h, fl, other, u, x); }
    }
  }

  lemma ListZone(h: Heap, fl: Lists, call: Call, t: Tid, x: usize)
    requires Partition(h, fl) && IsList(h, call) && Zone(h, fl, call, t, x)
    ensures !OffLists(h, x)
  {
  }

  lemma ListsRaceFree(h: Heap, fl: Lists, a: AState, l: ALabel)
    requires GoodHeap(h) && APlaced(a) && ListInv(h, fl, a) && AEnabled(a, l) && ListLabel(h, fl, a, l)
    ensures RaceFree(a, l)
  {
    hide EffectOf, WrapAdd, ListInv, APlaced, GoodHeap, ListLabel, AEnabled;
    forall u | IsPending(a, u) && u != Actor(l) ensures Stores(a, l) !! EffectOf(a, u).access {
      forall x | x in Stores(a, l) ensures x !in EffectOf(a, u).access {
        if l.Write? {
          if x in EffectOf(a, u).access { WriteOutside(h, fl, a, l, u); }
        } else {
          StoresAreWrites(a, l);
          ListsApart(h, fl, a, l.t, u, x);
        }
      }
    }
  }

  lemma WriteOutside(h: Heap, fl: Lists, a: AState, l: ALabel, u: Tid)
    requires GoodHeap(h) && ListInv(h, fl, a) && ListLabel(h, fl, a, l) && l.Write? && u != l.t && IsPending(a, u)
    ensures l.addr !in EffectOf(a, u).access
  {
    hide EffectOf, WrapAdd, Spelled, Owners, Allowed, Clash;
    if l.addr in EffectOf(a, u).access {
      ListAccess(h, fl, a, u, l.addr);
      if IsList(h, CallOf(a, u)) { ListZone(h, fl, CallOf(a, u), u, l.addr); }
    }
  }

  /** Taking the first node of a list keeps lists and held nodes a partition. */
  lemma PopPartition(h: Heap, fl: Lists, c: u32, t: Tid)
    requires Partition(h, fl) && c in h.heads && fl.on[c] != []
    ensures Partition(h, Lists(fl.on[c := fl.on[c][1..]], fl.held[fl.on[c][0] := t]))
  {
    var l, n := fl.on[c], fl.on[c][0];
    var fl2 := Lists(fl.on[c := l[1..]], fl.held[n := t]);
    forall d, i | d in fl2.on && 0 <= i < |fl2.on[d]|
      ensures fl2.on[d][i] in h.nodes && fl2.on[d][i] !in fl2.held
    {
      assert fl2.on[d][i] == fl.on[d][if d == c then i + 1 else i];
    }
    forall d, i, e, j | d in fl2.on && e in fl2.on && 0 <= i < |fl2.on[d]| && 0 <= j < |fl2.on[e]|
                        && fl2.on[d][i] == fl2.on[e][j]
      ensures d == e && i == j
    {
      assert fl2.on[d][i] == fl.on[d][if d == c then i + 1 else i];
      assert fl2.on[e][j] == fl.on[e][if e == c then j + 1 else j];
    }
    forall k | k in h.nodes && k !in fl2.held ensures exists d :: d in fl2.on && k in fl2.on[d] {
      var d :| d in fl.on && k in fl.on[d];
      if d == c { assert l == [n] + l[1..]; }
      assert k in fl2.on[d];
    }
  }

  lemma PopSpelled(h: Heap, fl: Lists, m: Mem, c: u32, t: Tid)
    requires GoodHeap(h) && Partition(h, fl) && Spelled(h, m, fl) && c in h.heads && fl.on[c] != []
    ensures Spelled(h, m[h.heads[c] := At(fl.on[c], 1)], Lists(fl.on[c := fl.on[c][1..]], fl.held[fl.on[c][0] := t]))
  {
    hide WrapAdd;
    var l := fl.on[c];
    var m2 := m[h.heads[c] := At(l, 1)];
    forall d | d in h.heads && d in fl.on ensures Chain(h, m2, d, if d == c then l[1..] else fl.on[d]) {
      assert Chain(h, m, d, fl.on[d]);
      var k := if d == c then l[1..] else fl.on[d];
      forall i | 0 <= i <= |k| ensures Read(m2, Link(h, d, k, i)) == At(k, i) {
        var j := if d == c then i + 1 else i;
        assert Read(m, Link(h, d, fl.on[d], j)) == At(fl.on[d], j);
      }
    }
  }

  /** Linking a held node in front of a list keeps lists and held nodes a partition. */
  lemma PushPartition(h: Heap, fl: Lists, c: u32, n: usize)
    requires Partition(h, fl) && c in h.heads && n in fl.held
    ensures Partition(h, Lists(fl.on[c := [n] + fl.on[c]], fl.held - {n}))
  {
    var l := fl.on[c];
    var fl2 := Lists(fl.on[c := [n] + l], fl.held - {n});
    forall d, i | d in fl2.on && 0 <= i < |fl2.on[d]|
      ensures fl2.on[d][i] in h.nodes && fl2.on[d][i] !in fl2.held
    {
      if d != c || i > 0 { assert fl2.on[d][i] == fl.on[d][if d == c then i - 1 else i]; }
    }
    forall d, i, e, j | d in fl2.on && e in fl2.on && 0 <= i < |fl2.on[d]| && 0 <= j < |fl2.on[e]|
                        && fl2.on[d][i] == fl2.on[e][j]
      ensures d == e && i == j
    {
      if d != c || i > 0 { assert fl2.on[d][i] == fl.on[d][if d == c then i - 1 else i]; }
      if e != c || j > 0 { assert fl2.on[e][j] == fl.on[e][if e == c then j - 1 else j]; }
    }
    forall k | k in h.nodes && k !in fl2.held ensures exists d :: d in fl2.on && k in fl2.on[d] {
      if k == n {
        assert k in fl2.on[c];
      } else {
        var d :| d in fl.on && k in fl.on[d];
        assert k in fl2.on[d];
      }
    }
  }

  lemma PushSpelled(h: Heap, fl: Lists, m: Mem, c: u32, n: usize)
    requires GoodHeap(h) && Partition(h, fl) && Spelled(h, m, fl) && c in h.heads && n in fl.held
    ensures Spelled(h, m[Field(h, n) := At(fl.on[c], 0)][h.heads[c] := n], Lists(fl.on[c := [n] + fl.on[c]], fl.held - {n}))
  {
    var l := fl.on[c];
    assert fl.on.Keys == h.heads.Keys;
    hide Partition;
    var m1 := m[Field(h, n) := At(l, 0)];
    assert n in h.nodes && Spelled(h, m1, fl) by { HeldIsNode(h, fl, n); OffListKeeps(h, fl, m, Field(h, n), At(l, 0)); }
    hide WrapAdd;
    var m2 := m1[h.heads[c] := n];
    forall d | d in h.heads && d in fl.on ensures Chain(h, m2, d, if d == c then [n] + l else fl.on[d]) {
      assert Chain(h, m1, d, fl.on[d]);
      var k := if d == c then [n] + l else fl.on[d];
      forall i | 0 <= i <= |k| ensures Read(m2, Link(h, d, k, i)) == At(k, i) {
        if d != c || i > 0 {
          var j := if d == c then i - 1 else i;
          assert Read(m1, Link(h, d, fl.on[d], j)) == At(fl.on[d], j);
          LinkIsNode(h, fl, d);
        }
      }
    }
  }

  lemma HeldIsNode(h: Heap, fl: Lists, n: usize)
    requires Partition(h, fl) && n in fl.held
    ensures n in h.nodes
  {
  }

  lemma LinkIsNode(h: Heap, fl: Lists, d: u32)
    requires Partition(h, fl) && d in fl.on
    ensures forall i | 0 <= i < |fl.on[d]| :: fl.on[d][i] in h.nodes
  {
  }

  /** A store off the list words, or to the field of a held node, spoils no list. */
  lemma OffListKeeps(h: Heap, fl: Lists, m: Mem, x: usize, v: usize)
    requires GoodHeap(h) && Partition(h, fl) && Spelled(h, m, fl)
    requires forall c | c in h.heads :: h.heads[c] != x
    requires (forall n | n in h.nodes :: Field(h, n) != x) || (exists n :: n in fl.held && x == Field(h, n))
    ensures Spelled(h, m[x := v], fl)
  {
    hide WrapAdd;
    forall d | d in h.heads && d in fl.on ensures Chain(h, m[x := v], d, fl.on[d]) {
      var l := fl.on[d];
      assert Chain(h, m, d, l);
      forall i | 0 <= i <= |l| ensures Read(m[x := v], Link(h, d, l, i)) == At(l, i) {
        assert Read(m, Link(h, d, l, i)) == At(l, i);
        if i >= 1 && Field(h, l[i - 1]) == x && exists n :: n in fl.held && x == Field(h, n) {
          var n :| n in fl.held && x == Field(h, n);
          FieldInjective(h, l[i - 1], n);
        }
      }
    }
  }

  /** A pop or push that takes effect moves exactly one node, or none. */
  lemma CommitLists(h: Heap, fl: Lists, a: AState, t: Tid)
    requires GoodHeap(h) && ListInv(h, fl, a) && IsPending(a, t) && IsList(h, CallOf(a, t))
    ensures
      var fl2 := ListsNext(h, fl, a, Commit(t));
      && Partition(h, fl2) && Spelled(h, EffectOf(a, t).mem, fl2)
      && (Confirmed(a, t) && IsPop(h, CallOf(a, t)) && EffectOf(a, t).attempt.Ok? ==>
            var c, n := CallOf(a, t).key.id, EffectOf(a, t).attempt.value;
            n in h.nodes && n !in fl.held && fl.on[c] != [] && n == fl.on[c][0] && fl2.held == fl.held[n := t])
  {
    assert fl.on.Keys == h.heads.Keys;
    AllowedNow(h, fl, a, t);
    var call := CallOf(a, t);
    var c := call.key.id;
    if IsPush(h, call) { PushIsNothingElse(h, call); }
    hide WrapAdd, GoodHeap, Owners, Spelled, IsUse, IsAside;
    if !Confirmed(a, t) {
      assert EffectOf(a, t) == Effect(Abort, a.mem, {}, {});
    } else if IsPop(h, call) {
      PopEffect(h, fl, a, t);
      hide EffectOf;
      if fl.on[c] != [] {
        PopPartition(h, fl, c, t);
        PopSpelled(h, fl, a.mem, c, t);
      }
    } else {
      PushEffect(h, fl, a, t);
      hide EffectOf;
      if call.op.expected == At(fl.on[c], 0) {
        PushPartition(h, fl, c, call.op.update);
        PushSpelled(h, fl, a.mem, c, call.op.update);
      }
    }
  }

  /** A push stores to a head: it is no call on node words, and no call apart from the lists. */
  lemma PushIsNothingElse(h: Heap, call: Call)
    requires GoodHeap(h) && IsPush(h, call)
    ensures !IsUse(h, call) && !IsAside(h, call) && !IsPop(h, call)
  {
    hide WrapAdd, Proper;
  }

  /** A scratch store of a push goes to the field of a node its thread holds: no list sees it. */
  lemma ScratchKeeps(h: Heap, fl: Lists, a: AState, t: Tid)
    requires GoodHeap(h) && ListInv(h, fl, a) && AEnabled(a, Scratch(t)) && IsPush(h, CallOf(a, t))
    ensures Spelled(h, ANext(a, Scratch(t)).mem, fl)
  {
    AllowedNow(h, fl, a, t);
    PushIsNothingElse(h, CallOf(a, t));
    var op := CallOf(a, t).op;
    assert op.side == Field(h, op.update);
    hide EffectOf, WrapAdd, Spelled, Owners, IsUse, IsAside;
    OffListKeeps(h, fl, a.mem, op.side, op.sideUpdate);
  }

  /** What changes no word of the lists spoils none. */
  lemma SpelledKept(h: Heap, fl: Lists, m: Mem, n: Mem)
    requires Partition(h, fl) && Spelled(h, m, fl)
    requires forall x | !OffLists(h, x) :: Read(n, x) == Read(m, x)
    ensures Spelled(h, n, fl)
  {
    hide WrapAdd;
    forall d | d in h.heads && d in fl.on ensures Chain(h, n, d, fl.on[d]) {
      assert Chain(h, m, d, fl.on[d]);
      forall i | 0 <= i <= |fl.on[d]| ensures Read(n, Link(h, d, fl.on[d], i)) == At(fl.on[d], i) {
        assert Read(m, Link(h, d, fl.on[d], i)) == At(fl.on[d], i);
        assert !OffLists(h, Link(h, d, fl.on[d], i));
      }
    }
  }

  predicate ListStep(h: Heap, a: AState, l: ALabel) {
    (l.Commit? || l.Scratch?) && IsPending(a, l.t) && IsList(h, CallOf(a, l.t))
  }

  /** Steps of all other calls store off the lists, and no step stores to a constant. */
  lemma StoresOff(h: Heap, fl: Lists, a: AState, l: ALabel, x: usize)
    requires GoodHeap(h) && ListInv(h, fl, a) && AEnabled(a, l) && ListLabel(h, fl, a, l) && x in Stores(a, l)
    ensures !ListStep(h, a, l) ==> OffLists(h, x)
    ensures x !in h.rest.cells
  {
    hide EffectOf, WrapAdd, Spelled, Owners, Allowed, Clash;
    if !l.Write? {
      StoresAreWrites(a, l);
      WritesInAccess(a, l.t);
      ListAccess(h, fl, a, l.t, x);
      if IsList(h, CallOf(a, l.t)) { ListZone(h, fl, CallOf(a, l.t), l.t, x); }
    }
  }

  lemma OtherStep(h: Heap, fl: Lists, a: AState, l: ALabel)
    requires GoodHeap(h) && ListInv(h, fl, a) && AEnabled(a, l) && ListLabel(h, fl, a, l) && !ListStep(h, a, l)
    ensures ListsNext(h, fl, a, l) == fl && Spelled(h, ANext(a, l).mem, fl)
  {
    forall x | !OffLists(h, x) ensures Read(ANext(a, l).mem, x) == Read(a.mem, x) {
      if x in Stores(a, l) { StoresOff(h, fl, a, l, x); } else { StoresOnly(a, l, x); }
    }
    hide EffectOf, OffLists, GoodHeap, ANext, AEnabled, IsPop, IsPush, Owners, ListLabel;
    SpelledKept(h, fl, a.mem, ANext(a, l).mem);
  }

  /** Only calls apart from the lists store to words that are, and only what those may hold. */
  lemma StoresApart(h: Heap, fl: Lists, a: AState, l: ALabel, x: usize)
    requires GoodHeap(h) && ListInv(h, fl, a) && AEnabled(a, l) && ListLabel(h, fl, a, l) && x in Stores(a, l) && x in h.rest.values
    ensures Fits(h.rest, x, Read(ANext(a, l).mem, x))
  {
    assert x in h.rest.owner && OffLists(h, x) && x !in h.body;
    assert CellsHold(h.rest, a.mem);
    if !l.Write? {
      StoresAreWrites(a, l);
      AllowedNow(h, fl, a, l.t);
      var call := CallOf(a, l.t);
      if IsAside(h, call) {
        hide EffectOf, Keyed, GoodHeap, ListInv, CellsHold, Stores, ANext, Fits, CallOf, IsPending, AEnabled;
        StoresFit(h.rest, a, l, x);
      } else {
        hide WrapAdd, Spelled, Owners, Clash, Keyed, Meaning, CellsHold, GoodHeap, Fits, ANext, Stores;
        if IsList(h, call) {
          WritesInAccess(a, l.t);
          ListAccess(h, fl, a, l.t, x);
          ListZone(h, fl, call, l.t, x);
        } else {
          UseStores(h, a, l.t, x);
        }
      }
    }
  }

  /** A call on words of a node stores to no other word. */
  lemma UseStores(h: Heap, a: AState, t: Tid, x: usize)
    requires CellsHold(h.rest, a.mem) && IsPending(a, t) && IsUse(h, CallOf(a, t)) && x in EffectOf(a, t).writes
    ensures x in h.body
  {
    var call := CallOf(a, t);
    hide WrapAdd, Keyed, Meaning;
    KeyedEffect(NodeWords(h, UsedNode(h, call), call.key), call, AIndex(a.threads[t], call.key.kind), a.mem);
  }

  lemma ConstantsStay(h: Heap, fl: Lists, a: AState, l: ALabel)
    requires GoodHeap(h) && ListInv(h, fl, a) && AEnabled(a, l) && ListLabel(h, fl, a, l)
    ensures CellsHold(h.rest, ANext(a, l).mem)
  {
    hide EffectOf, GoodHeap, ANext, AEnabled, Owners, ListLabel, Partition, Spelled, Fits;
    forall x | x in h.rest.cells || x in h.rest.values
      ensures x in h.rest.cells ==> Read(ANext(a, l).mem, x) == h.rest.cells[x]
      ensures x in h.rest.values ==> Fits(h.rest, x, Read(ANext(a, l).mem, x))
    {
      if x in Stores(a, l) {
        StoresOff(h, fl, a, l, x);
        if x in h.rest.values { StoresApart(h, fl, a, l, x); }
      } else {
        StoresOnly(a, l, x);
      }
    }
  }

  /** Lists and held nodes stay a partition of the nodes, and memory spells the lists out. */
  lemma ListsStep(h: Heap, fl: Lists, a: AState, l: ALabel)
    requires GoodHeap(h) && ListInv(h, fl, a) && AEnabled(a, l) && ListLabel(h, fl, a, l)
    ensures Partition(h, ListsNext(h, fl, a, l)) && Spelled(h, ANext(a, l).mem, ListsNext(h, fl, a, l))
  {
    if ListStep(h, a, l) {
      if l.Commit? {
        CommitLists(h, fl, a, l.t);
      } else {
        ScratchKeeps(h, fl, a, l.t);
      }
    } else {
      OtherStep(h, fl, a, l);
    }
    hide EffectOf, WrapAdd, Partition, Spelled, GoodHeap, Owners, IsPop, IsPush, ListLabel;
  }

  /** A pending call after a step was pending before it in the same place, or has just been invoked. */
  lemma PendingBefore(a: AState, l: ALabel, t: Tid, i: nat)
    requires AEnabled(a, l) && InStack(ANext(a, l), t, i)
    ensures (InStack(a, t, i) && CallIn(a, t, i) == CallIn(ANext(a, l), t, i) && !(l.Commit? && l.t == t && i == |a.threads[t].stack| - 1))
         || (l.Invoke? && l.t == t && i == |a.threads[t].stack| - 1 && CallIn(ANext(a, l), t, i) == l.call && !InStack(a, t, i))
  {
    hide EffectOf;
  }

  /** Which nodes stay held by whom over a step. */
  lemma HeldNext(h: Heap, fl: Lists, a: AState, l: ALabel, n: usize)
    requires GoodHeap(h) && ListInv(h, fl, a) && AEnabled(a, l) && n in fl.held
    requires !(l.Commit? && IsPush(h, CallOf(a, l.t)) && CallOf(a, l.t).op.update == n)
    ensures var fl2 := ListsNext(h, fl, a, l); n in fl2.held && fl2.held[n] == fl.held[n]
  {
    hide EffectOf, Spelled, Owners, AEnabled, IsPop, GoodHeap, CellsHold;
  }

  lemma AllowedNext(h: Heap, fl: Lists, a: AState, l: ALabel, t: Tid, i: nat, call: Call)
    requires GoodHeap(h) && ListInv(h, fl, a) && AEnabled(a, l) && Allowed(h, fl, call, t)
    requires InStack(a, t, i) && CallIn(a, t, i) == call && !(l.Commit? && l.t == t && i == |a.threads[t].stack| - 1)
    ensures Allowed(h, ListsNext(h, fl, a, l), call, t)
  {
    if Handles(h, call) && HeldBy(fl, NodeIn(h, call), t) {
      if l.Commit? && IsPush(h, CallOf(a, l.t)) { OtherNode(h, fl, a, l.t, t, i); }
      hide EffectOf, Partition, Spelled, GoodHeap, ListsNext, IsPop, IsPush, IsUse, IsAside, CellsHold, InStack, CallIn, AEnabled, Owners;
      HeldNext(h, fl, a, l, NodeIn(h, call));
    }
  }

  /** A node whose push takes effect is in no other pending call's hands. */
  lemma OtherNode(h: Heap, fl: Lists, a: AState, u: Tid, t: Tid, i: nat)
    requires GoodHeap(h) && Owners(h, fl, a) && IsPending(a, u) && IsPush(h, CallOf(a, u))
    requires InStack(a, t, i) && !(u == t && i == |a.threads[t].stack| - 1)
    requires Handles(h, CallIn(a, t, i)) && HeldBy(fl, NodeIn(h, CallIn(a, t, i)), t)
    ensures CallOf(a, u).op.update != NodeIn(h, CallIn(a, t, i))
  {
    TopCall(a, u);
    AllowedNow(h, fl, a, u);
    PushIsHandled(h, fl, CallOf(a, u), u);
    var k := |a.threads[u].stack| - 1;
    if u == t { assert !Clash(h, CallIn(a, u, k), CallIn(a, u, i)); }
    hide GoodHeap, Owners, IsUse, Allowed, IsPop, IsPush;
  }

  lemma PushIsHandled(h: Heap, fl: Lists, call: Call, t: Tid)
    requires GoodHeap(h) && IsPush(h, call) && Allowed(h, fl, call, t)
    ensures HeldBy(fl, call.op.update, t)
  {
    PushIsNothingElse(h, call);
    hide GoodHeap, IsUse, IsAside, IsPop;
  }

  /** Nodes being worked on stay held, and nodes being pushed are pushed once. */
  lemma OwnersStep(h: Heap, fl: Lists, a: AState, l: ALabel)
    requires GoodHeap(h) && ListInv(h, fl, a) && AEnabled(a, l) && ListLabel(h, fl, a, l)
    ensures Owners(h, ListsNext(h, fl, a, l), ANext(a, l))
  {
    hide EffectOf, ANext, Partition, Spelled, ListsNext, CallIn, InStack, GoodHeap, Clash, Allowed, CellsHold;
    var fl2, n := ListsNext(h, fl, a, l), ANext(a, l);
    forall t, i | InStack(n, t, i) ensures Allowed(h, fl2, CallIn(n, t, i), t) {
      PendingBefore(a, l, t, i);
      if InStack(a, t, i) {
        AllowedNext(h, fl, a, l, t, i, CallIn(n, t, i));
      } else {
        assert fl2 == fl by { InvokeMovesNothing(h, fl, a, l); }
      }
    }
    forall t, i, j | InStack(n, t, i) && InStack(n, t, j) && i != j ensures !Clash(h, CallIn(n, t, i), CallIn(n, t, j)) {
      PendingBefore(a, l, t, i);
      PendingBefore(a, l, t, j);
      ClashBothWays(h, CallIn(n, t, i), CallIn(n, t, j));
    }
  }

  lemma ClashBothWays(h: Heap, a: Call, b: Call)
    ensures Clash(h, a, b) <==> Clash(h, b, a)
  {
    hide IsPush, IsUse;
  }

  lemma InvokeMovesNothing(h: Heap, fl: Lists, a: AState, l: ALabel)
    requires l.Invoke?
    ensures ListsNext(h, fl, a, l) == fl
  {
  }

  lemma TopCall(a: AState, t: Tid)
    requires IsPending(a, t)
    ensures InStack(a, t, |a.threads[t].stack| - 1) && CallIn(a, t, |a.threads[t].stack| - 1) == CallOf(a, t)
  {
  }

  /** The lists along a run of the instruction machine. */
  function ListsAfter(h: Heap, fl: Lists, cfg: Config, s: State, ls: seq<Label>): Lists
    requires ValidRun(cfg, s, ls)
    decreases |ls|
  {
    if ls == [] then fl
    else
      var front := ls[..|ls| - 1];
      var n := StateAfter(cfg, s, front);
      ListsNext(h, ListsAfter(h, fl, cfg, s, front), Abs(cfg, n), Observe(cfg, n, ls[|ls| - 1]))
  }

  /** A run that keeps the client's side at every step. */
  ghost predicate ListRun(h: Heap, fl: Lists, cfg: Config, s: State, ls: seq<Label>)
    requires ValidRun(cfg, s, ls)
    decreases |ls|
  {
    ls != [] ==>
      var front := ls[..|ls| - 1];
      var n := StateAfter(cfg, s, front);
      && ListRun(h, fl, cfg, s, front)
      && ListLabel(h, ListsAfter(h, fl, cfg, s, front), Abs(cfg, n), Observe(cfg, n, ls[|ls| - 1]))
  }

  lemma ListCallProper(h: Heap, fl: Lists, cfg: Config, s: State, l: Label)
    requires GoodHeap(h) && Enabled(cfg, s, l) && ListLabel(h, fl, Abs(cfg, s), Observe(cfg, s, l)) && l.Begin?
    ensures Proper(l.call)
  {
    hide Abs, Enabled, WrapAdd, Clash;
  }

  /** One instruction, interruption or fence of a list run: disciplined, and the lists stay sound. */
  lemma ListStepSafe(h: Heap, fl: Lists, cfg: Config, s: State, l: Label)
    requires GoodHeap(h) && Inv(cfg, s) && ListInv(h, fl, Abs(cfg, s)) && Enabled(cfg, s, l)
    requires ListLabel(h, fl, Abs(cfg, s), Observe(cfg, s, l))
    ensures Disciplined(cfg, s, l) && Inv(cfg, Next(cfg, s, l))
    ensures ListInv(h, ListsNext(h, fl, Abs(cfg, s), Observe(cfg, s, l)), Abs(cfg, Next(cfg, s, l)))
  {
    hide Enabled, Next, ANext, Abs, Observe, GoodHeap, Inv, ListLabel, RaceFree, Proper, APlaced, Local, Placed;
    if l.Begin? { ListCallProper(h, fl, cfg, s, l); }
    StepRefines(cfg, s, l);
    assert APlaced(Abs(cfg, s)) by { InvPlaced(cfg, s); }
    ListsRaceFree(h, fl, Abs(cfg, s), Observe(cfg, s, l));
    StepSafe(cfg, s, l);
    ListsStep(h, fl, Abs(cfg, s), Observe(cfg, s, l));
    ConstantsStay(h, fl, Abs(cfg, s), Observe(cfg, s, l));
    OwnersStep(h, fl, Abs(cfg, s), Observe(cfg, s, l));
    hide Partition, Spelled, Owners, CellsHold, ListsNext, AEnabled;
  }

  lemma InvPlaced(cfg: Config, s: State)
    requires Inv(cfg, s)
    ensures APlaced(Abs(cfg, s))
  {
    InvLocal(cfg, s);
    PlacedAbove(cfg, s);
  }

  /** Free-list integrity: however pushes and pops interleave across threads, CPUs and migrations,
      every list stays acyclic and disjoint from the others, and lists plus held nodes are all the nodes. */
  lemma {:induction false} FreeListRun(h: Heap, fl: Lists, cfg: Config, s: State, ls: seq<Label>)
    requires GoodHeap(h) && Inv(cfg, s) && ListInv(h, fl, Abs(cfg, s)) && ValidRun(cfg, s, ls) && ListRun(h, fl, cfg, s, ls)
    ensures DisciplinedRun(cfg, s, ls) && Inv(cfg, StateAfter(cfg, s, ls))
    ensures ListInv(h, ListsAfter(h, fl, cfg, s, ls), Abs(cfg, StateAfter(cfg, s, ls)))
    decreases |ls|
  {
    hide Enabled, Next, Abs, Observe, GoodHeap, Inv, ListLabel, ListInv, ListsNext, Disciplined;
    if ls != [] {
      var front := ls[..|ls| - 1];
      FreeListRun(h, fl, cfg, s, front);
      ListStepSafe(h, ListsAfter(h, fl, cfg, s, front), cfg, StateAfter(cfg, s, front), ls[|ls| - 1]);
    }
  }

  /** A pop never chases through a freed or foreign node: only through the first node of its own list. */
  lemma ListChase(h: Heap, fl: Lists, cfg: Config, s: State, t: Tid, x: usize)
    requires GoodHeap(h) && Inv(cfg, s) && ListInv(h, fl, Abs(cfg, s)) && InLiveSection(cfg, s, t) && Executing(cfg, s, t)
    requires IsPop(h, Top(s.threads[t]).call) && ExecTop(cfg, s.threads[t], s.mem).load == Some(x)
    ensures
      var c := Top(s.threads[t]).call.key.id;
      && s.threads[t].area.cpuId == c && c in fl.on
      && (x == h.heads[c] || (fl.on[c] != [] && x == Field(h, fl.on[c][0])))
  {
    var c := Top(s.threads[t]).call.key.id;
    ChaseSafe(cfg, s, t, x);
    assert Chain(h, s.mem, c, fl.on[c]) && fl.on.Keys == h.heads.Keys;
    assert Read(s.mem, Link(h, c, fl.on[c], 0)) == At(fl.on[c], 0);
    hide Inv, ListInv, ExecTop, WrapAdd, Block;
  }

  /** The node a step hands to its thread, if it is a successful pop. */
  function PoppedBy(h: Heap, cfg: Config, s: State, l: Label): seq<usize>
    requires Enabled(cfg, s, l)
  {
    if l.Step? && Commits(cfg, s, l.t) && IsPop(h, Top(s.threads[l.t]).call) && CommitEffect(cfg, s, l.t).attempt.Ok?
    then [CommitEffect(cfg, s, l.t).attempt.value] else []
  }

  function Popped(h: Heap, cfg: Config, s: State, ls: seq<Label>): seq<usize>
    requires ValidRun(cfg, s, ls)
    decreases |ls|
  {
    if ls == [] then []
    else Popped(h, cfg, s, ls[..|ls| - 1]) + PoppedBy(h, cfg, StateAfter(cfg, s, ls[..|ls| - 1]), ls[|ls| - 1])
  }

  ghost predicate NoPushes(h: Heap, a: AState) {
    forall t, i | InStack(a, t, i) :: !IsPush(h, CallIn(a, t, i))
  }

  lemma NoPushesStep(h: Heap, a: AState, l: ALabel)
    requires AEnabled(a, l) && NoPushes(h, a) && (l.Invoke? ==> !IsPush(h, l.call))
    ensures NoPushes(h, ANext(a, l))
  {
    hide IsPush, AEnabled, ANext, CallIn, InStack;
    forall t, i | InStack(ANext(a, l), t, i) ensures !IsPush(h, CallIn(ANext(a, l), t, i)) {
      PendingBefore(a, l, t, i);
    }
  }

  lemma PopOk(h: Heap, fl: Lists, a: AState, t: Tid)
    requires ListInv(h, fl, a) && IsPending(a, t) && IsPop(h, CallOf(a, t))
    ensures EffectOf(a, t).attempt.Ok? ==> Confirmed(a, t)
    ensures !EffectOf(a, t).attempt.Ok? ==> ListsNext(h, fl, a, Commit(t)) == fl
  {
    hide Partition, Spelled, Owners;
  }

  /** A pop that takes effect moves the node it answers to its thread, or moves nothing. */
  lemma PopCommit(h: Heap, fl: Lists, a: AState, t: Tid)
    requires GoodHeap(h) && ListInv(h, fl, a) && IsPending(a, t) && IsPop(h, CallOf(a, t))
    ensures
      var e, fl2 := EffectOf(a, t), ListsNext(h, fl, a, Commit(t));
      if e.attempt.Ok? then
        e.attempt.value in h.nodes && e.attempt.value !in fl.held && fl2.held.Keys == fl.held.Keys + {e.attempt.value}
      else fl2 == fl
  {
    PopOk(h, fl, a, t);
    CommitLists(h, fl, a, t);
    hide ListsNext, EffectOf, GoodHeap, ListInv, Partition, Spelled;
  }

  /** Other steps hand out nothing, and unless they commit a push they move nothing. */
  lemma OnlyPopsMove(h: Heap, fl: Lists, cfg: Config, s: State, l: Label)
    requires Enabled(cfg, s, l) && !(Observe(cfg, s, l).Commit? && IsPop(h, Top(s.threads[l.t]).call))
    requires Observe(cfg, s, l).Commit? ==> !IsPush(h, Top(s.threads[l.t]).call)
    ensures PoppedBy(h, cfg, s, l) == [] && ListsNext(h, fl, Abs(cfg, s), Observe(cfg, s, l)) == fl
  {
    if Observe(cfg, s, l).Commit? {
      CommitStep(cfg, s, l);
      CommitView(cfg, s, l.t);
    }
    hide Abs, Enabled, CommitEffect, EffectOf, IsPop, IsPush, CallOf, IsPending;
  }

  /** Where nothing is pushed, a step that hands out a node takes it from the lists, and none gives one back. */
  lemma PopStep(h: Heap, fl: Lists, cfg: Config, s: State, l: Label)
    requires GoodHeap(h) && Inv(cfg, s) && ListInv(h, fl, Abs(cfg, s)) && NoPushes(h, Abs(cfg, s)) && Enabled(cfg, s, l)
    ensures
      var out := PoppedBy(h, cfg, s, l);
      var fl2 := ListsNext(h, fl, Abs(cfg, s), Observe(cfg, s, l));
      if out == [] then fl2.held == fl.held
      else |out| == 1 && out[0] in h.nodes && out[0] !in fl.held && fl2.held.Keys == fl.held.Keys + {out[0]}
  {
    var a, o := Abs(cfg, s), Observe(cfg, s, l);
    hide Abs, Inv, GoodHeap, ListInv, CommitEffect, ListsNext, EffectOf, IsPop, IsPush, CallIn, CallOf, InStack, IsPending;
    if o.Commit? {
      CommitStep(cfg, s, l);
      CommitView(cfg, s, l.t);
      TopCall(a, l.t);
      hide Commits, Observe, Enabled;
      if IsPop(h, CallOf(a, l.t)) {
        PopCommit(h, fl, a, l.t);
      } else {
        OnlyPopsMove(h, fl, cfg, s, l);
      }
    } else {
      OnlyPopsMove(h, fl, cfg, s, l);
      hide Observe, PoppedBy;
    }
  }

  lemma CommitStep(cfg: Config, s: State, l: Label)
    requires Enabled(cfg, s, l) && Observe(cfg, s, l).Commit?
    ensures l.Step? && Commits(cfg, s, l.t) && Observe(cfg, s, l) == Commit(l.t)
  {
    hide Enabled;
  }

  /** The committing step and its effect are the same seen from below and from above. */
  lemma CommitView(cfg: Config, s: State, t: Tid)
    requires Commits(cfg, s, t)
    ensures IsPending(Abs(cfg, s), t)
    ensures CallOf(Abs(cfg, s), t) == Top(s.threads[t]).call && EffectOf(Abs(cfg, s), t) == CommitEffect(cfg, s, t)
  {
    AbsSetTop(cfg, s.threads[t], Top(s.threads[t]));
    hide Block, Exec, Settled, Meaning, ASetTop, SetTop;
  }

  /** Handing out a node that is not held yet keeps what has been handed out apart. */
  lemma HandedOut(held: set<usize>, before: seq<usize>, mid: set<usize>, out: seq<usize>, end: set<usize>)
    requires mid == held + (set n | n in before)
    requires forall i | 0 <= i < |before| :: before[i] !in held
    requires forall i, j | 0 <= i < j < |before| :: before[i] != before[j]
    requires if out == [] then end == mid else |out| == 1 && out[0] !in mid && end == mid + {out[0]}
    ensures end == held + (set n | n in before + out)
    ensures forall i | 0 <= i < |before + out| :: (before + out)[i] !in held
    ensures forall i, j | 0 <= i < j < |before + out| :: (before + out)[i] != (before + out)[j]
  {
    if out == [] { assert before + out == before; }
  }

  /** As long as nothing is pushed, every node is handed out at most once, whatever is done with those handed out. */
  lemma {:induction false} PopsUnique(h: Heap, fl: Lists, cfg: Config, s: State, ls: seq<Label>)
    requires GoodHeap(h) && Inv(cfg, s) && ListInv(h, fl, Abs(cfg, s)) && ValidRun(cfg, s, ls) && ListRun(h, fl, cfg, s, ls)
    requires NoPushes(h, Abs(cfg, s)) && forall i | 0 <= i < |ls| && ls[i].Begin? :: !IsPush(h, ls[i].call)
    ensures NoPushes(h, Abs(cfg, StateAfter(cfg, s, ls)))
    ensures ListsAfter(h, fl, cfg, s, ls).held.Keys == fl.held.Keys + (set n | n in Popped(h, cfg, s, ls))
    ensures forall i | 0 <= i < |Popped(h, cfg, s, ls)| :: Popped(h, cfg, s, ls)[i] !in fl.held
    ensures forall i, j | 0 <= i < j < |Popped(h, cfg, s, ls)| :: Popped(h, cfg, s, ls)[i] != Popped(h, cfg, s, ls)[j]
    decreases |ls|
  {
    hide Enabled, Next, Abs, GoodHeap, Inv, ListLabel, ListInv, ListsNext, PoppedBy, NoPushes, AEnabled, ANext;
    if ls != [] {
      var front, l := ls[..|ls| - 1], ls[|ls| - 1];
      PopsUnique(h, fl, cfg, s, front);
      FreeListRun(h, fl, cfg, s, front);
      var n := StateAfter(cfg, s, front);
      StepRefines(cfg, n, l);
      NoPushesStep(h, Abs(cfg, n), Observe(cfg, n, l));
      PopStep(h, ListsAfter(h, fl, cfg, s, front), cfg, n, l);
      HandedOut(fl.held.Keys, Popped(h, cfg, s, front), ListsAfter(h, fl, cfg, s, front).held.Keys, PoppedBy(h, cfg, n, l),
                ListsAfter(h, fl, cfg, s, ls).held.Keys);
    } else {
      assert (set n: usize | n in Popped(h, cfg, s, ls)) == {};
    }
  }

  /** Adding to a word of a node one holds, under the key of whatever CPU one is on, is a call on that node. */
  lemma TagIsUse(h: Heap, n: usize, tag: usize, count: usize, key: Key)
    requires tag in h.body && h.body[tag] == n
    ensures var call := Call(FetchAdd(tag, count), key); IsUse(h, call) && UsedNode(h, call) == n && Counting([tag], call)
  {
  }

  /** So what is added to words of nodes, or anywhere else, while they are popped, is all there at the end. */
  lemma TagsConserved(h: Heap, fl: Lists, addrs: seq<usize>, cfg: Config, s: State, ls: seq<Label>)
    requires GoodHeap(h) && Inv(cfg, s) && ListInv(h, fl, Abs(cfg, s)) && ValidRun(cfg, s, ls) && ListRun(h, fl, cfg, s, ls)
    requires AllCounting(addrs, s) && Distinct(addrs) && forall i | 0 <= i < |ls| :: CountingLabel(addrs, ls[i])
    ensures SumWords(StateAfter(cfg, s, ls).mem, addrs) == WrapAdd(SumWords(s.mem, addrs), TotalCommitted(addrs, cfg, s, ls))
  {
    hide GoodHeap, Inv, ListInv, ValidRun, ListRun, StateAfter, AllCounting, Distinct, CountingLabel, SumWords, Abs;
    FreeListRun(h, fl, cfg, s, ls);
    Conserved(addrs, cfg, s, ls);
  }
}
