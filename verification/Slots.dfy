/** Per-CPU words: a page-rounded region, one slot a number, and the keys that go with them. */
module Slots {
  import opened Bits
  import opened Ops
  import opened Threads
  import opened Sections
  import opened Keys
  import Cpus

  /** The target's address space: its size, and the size of a word, which divides a page. */
  datatype Target = Target(limit: nat, size: nat)

  predicate GoodTarget(x: Target) {
    0 < x.size && PAGE % x.size == 0 && PAGE <= x.limit <= WORD
  }

  function DivCeil(a: nat, b: nat): nat
    requires 0 < b
  {
    a / b + if a % b == 0 then 0 else 1
  }

  /** The length of the mapping for so many words, unless it does not fit. */
  function MapLength(x: Target, cpus: u32): Option<nat>
    requires GoodTarget(x)
  {
    if cpus >= x.limit || cpus * x.size >= x.limit then None
    else
      var len := DivCeil(cpus * x.size, PAGE) * PAGE;
      if len >= x.limit || len == 0 then None else Some(len)
  }

  /** A region of words: mapped, or a slice of the caller's. */
  datatype Words = Words(base: nat, len: nat, cpus: u32)

  /** Where `mmap` may put a mapping: on a page boundary, inside the address space, and not at null. */
  predicate Mappable(x: Target, base: nat, len: nat) {
    0 < base && base % PAGE == 0 && base + len <= x.limit
  }

  /** Allocate words; `place` is where the kernel puts the mapping, if it does, and is not null. */
  function New(x: Target, cpus: u32, place: Option<nat>): Option<Words>
    requires GoodTarget(x)
  {
    if cpus == 0 || MapLength(x, cpus).None? || place.None? || place.value == 0 then None
    else Some(Words(place.value, MapLength(x, cpus).value, cpus))
  }

  /** Words of the caller's own: a slice of that many at that address. */
  function FromStatic(x: Target, base: nat, count: nat): Option<Words> {
    if count >= HALF || count == 0 then None else Some(Words(base, count * x.size, count))
  }

  /** The address of a slot, computed with wrap-around. */
  function Address(x: Target, w: Words, id: u32): nat
    requires GoodTarget(x)
  {
    (w.base + (id % x.limit) * x.size % x.limit) % x.limit
  }

  function Lookup(x: Target, w: Words, key: Key): Option<nat>
    requires GoodTarget(x)
  {
    if key.id >= w.cpus then None else Some(Address(x, w, key.id))
  }

  /** A region that is really there: aligned, in the address space, and long enough for its words. */
  predicate Backed(x: Target, w: Words) {
    && 0 < x.size && w.base % x.size == 0 && w.base + w.len <= x.limit
    && w.cpus * x.size <= w.len
  }

  lemma Ceiling(a: nat, b: nat)
    requires 0 < b
    ensures a <= DivCeil(a, b) * b < a + b
  {
    assert a == a / b * b + a % b;
    assert (a / b + 1) * b == a / b * b + b;
  }

  lemma Grows(a: nat, b: nat)
    requires 0 < b
    ensures a <= a * b
  {
    if a > 0 {
      Grows(a - 1, b);
      assert a * b == (a - 1) * b + b;
    }
  }

  lemma Exact(a: nat, q: int, c: nat)
    requires 0 < c && a == q * c
    ensures a % c == 0
  {
    var d := q - a / c;
    assert a % c == a - a / c * c == d * c;
    if d > 0 {
      Grows(c, d);
    } else if d < 0 {
      Grows(c, -d);
      assert (-d) * c == -(d * c);
    }
  }

  lemma Divides(a: nat, b: nat, c: nat)
    requires 0 < b && 0 < c && b % c == 0 && a % b == 0
    ensures a % c == 0
  {
    var k, j := b / c, a / b;
    assert b == k * c && a == j * b;
    assert a == (j * k) * c;
    Exact(a, j * k, c);
  }

  lemma SumExact(a: nat, b: nat, c: nat)
    requires 0 < c && a % c == 0
    ensures (a + b * c) % c == 0
  {
    var i := a / c;
    assert a == i * c;
    assert a + b * c == (i + b) * c;
    Exact(a + b * c, i + b, c);
  }

  lemma SmallMod(a: nat, m: nat)
    requires a < m
    ensures a % m == a
  {
  }

  /** The mapping covers the words, rounded up to whole pages and no further. */
  lemma MappingCovers(x: Target, cpus: u32)
    requires GoodTarget(x) && MapLength(x, cpus).Some?
    ensures
      var len := MapLength(x, cpus).value;
      cpus * x.size <= len < cpus * x.size + PAGE && len % PAGE == 0 && len < x.limit
  {
    Ceiling(cpus * x.size, PAGE);
    Exact(DivCeil(cpus * x.size, PAGE) * PAGE, DivCeil(cpus * x.size, PAGE), PAGE);
  }

  lemma NewBacked(x: Target, cpus: u32, place: nat)
    requires GoodTarget(x) && New(x, cpus, Some(place)).Some?
    requires Mappable(x, place, MapLength(x, cpus).value)
    ensures Backed(x, New(x, cpus, Some(place)).value)
  {
    MappingCovers(x, cpus);
    Divides(place, PAGE, x.size);
  }

  lemma Ordered(i: nat, j: nat, size: nat)
    requires i < j
    ensures i * size + size <= j * size
    decreases j
  {
    assert j * size == (j - 1) * size + size;
    if i < j - 1 { Ordered(i, j - 1, size); }
  }

  /** Slot addresses never wrap: each in-range number gets its aligned word, wholly inside the region. */
  lemma SlotInside(x: Target, w: Words, id: u32)
    requires GoodTarget(x) && Backed(x, w) && id < w.cpus
    ensures Address(x, w, id) == w.base + id * x.size
    ensures Address(x, w, id) % x.size == 0 && w.base <= Address(x, w, id) && Address(x, w, id) + x.size <= w.base + w.len
  {
    Ordered(id, w.cpus, x.size);
    Grows(id, x.size);
    var off := id * x.size;
    assert off + x.size <= w.len && id <= off;
    SmallMod(id, x.limit);
    SmallMod(off, x.limit);
    SmallMod(w.base + off, x.limit);
    assert Address(x, w, id) == (w.base + (id % x.limit) * x.size % x.limit) % x.limit;
    SumExact(w.base, id, x.size);
  }

  lemma RoundsUp(a: nat)
    ensures DivCeil(a, PAGE) * PAGE == (a + 4095) / 4096 * 4096
  {
  }

  /** The length of the mapping, and when there is one. */
  lemma MapLengthIs(x: Target, cpus: u32)
    requires GoodTarget(x)
    ensures MapLength(x, cpus).Some? <==> 0 < cpus && (cpus * x.size + 4095) / 4096 * 4096 < x.limit
    ensures MapLength(x, cpus).Some? ==> MapLength(x, cpus).value == (cpus * x.size + 4095) / 4096 * 4096
  {
    Grows(cpus, x.size);
    Ceiling(cpus * x.size, PAGE);
    RoundsUp(cpus * x.size);
  }

  /** Words are allocated exactly if there are some, they fit, and the kernel maps them; then every number below
      the one asked for has its own, in order, and no other number has one. */
  lemma NewSlots(x: Target, cpus: u32, place: Option<nat>, key: Key)
    requires GoodTarget(x)
    requires place.Some? && 0 < place.value ==> place.value % 4096 == 0 && place.value + (cpus * x.size + 4095) / 4096 * 4096 <= x.limit
    ensures New(x, cpus, place).Some? <==>
              0 < cpus && (cpus * x.size + 4095) / 4096 * 4096 < x.limit && place.Some? && 0 < place.value
    ensures New(x, cpus, place).Some? ==>
              var w := New(x, cpus, place).value;
              && w == Words(place.value, (cpus * x.size + 4095) / 4096 * 4096, cpus)
              && Lookup(x, w, key) == if key.id < cpus then Some(place.value + key.id * x.size) else None
  {
    MapLengthIs(x, cpus);
    if New(x, cpus, place).Some? {
      NewBacked(x, cpus, place.value);
      if key.id < cpus { SlotInside(x, New(x, cpus, place).value, key.id); }
    }
  }

  /** Words of the caller's own: one for every number below the length of the slice, in order. */
  lemma StaticSlots(x: Target, base: nat, count: nat, key: Key)
    requires GoodTarget(x) && base % x.size == 0 && base + count * x.size <= x.limit
    ensures FromStatic(x, base, count).Some? <==> 0 < count < 0x1_0000_0000
    ensures FromStatic(x, base, count).Some? ==>
              Lookup(x, FromStatic(x, base, count).value, key) == if key.id < count then Some(base + key.id * x.size) else None
  {
    StaticBacked(x, base, count);
    if key.id < count < HALF { SlotInside(x, FromStatic(x, base, count).value, key.id); }
  }

  /** `Rseq::words`: for what the kernel lists, every listed CPU really has a word, and numbers beyond the highest
      have none. */
  method WordsForAll(x: Target, rs: seq<Cpus.Range>, newline: bool, place: Option<nat>, ghost top: u32)
    returns (words: Option<Words>)
    requires GoodTarget(x)
    requires rs != [] && (forall i | 0 <= i < |rs| :: rs[i].lo <= rs[i].hi < 0xFFFF_FFFF) && Cpus.IsHighest(rs, top)
    requires |Cpus.Listed(rs)| + (if newline then 1 else 0) <= 256
    requires place.Some? && 0 < place.value ==>
               place.value % 4096 == 0 && place.value + ((top + 1) * x.size + 4095) / 4096 * 4096 <= x.limit
    ensures words.Some? <==> place.Some? && 0 < place.value && ((top + 1) * x.size + 4095) / 4096 * 4096 < x.limit
    ensures words.Some? ==>
              && (forall c: u32 | Cpus.Lists(rs, c) :: Lookup(x, words.value, Key(CpuIndex, c)) == Some(place.value + c * x.size))
              && forall key: Key :: Lookup(x, words.value, key) == if key.id <= top then Some(place.value + key.id * x.size) else None
  {
    var count := Cpus.EveryCpuHasASlot(rs, newline);
    Cpus.HighestUnique(rs, top, count.value - 1);
    words := New(x, count.value, place);
    hide New, Lookup, Cpus.Lists, Cpus.IsHighest, GoodTarget, Cpus.Listed;
    forall key: Key ensures words.Some? ==> Lookup(x, words.value, key) == if key.id <= top then Some(place.value + key.id * x.size) else None {
      NewSlots(x, count.value, place, key);
    }
    NewSlots(x, count.value, place, Key(CpuIndex, 0));
  }

  /** Distinct in-range numbers get disjoint words; a number out of range gets none. */
  lemma SlotMap(x: Target, w: Words, k: Key, l: Key)
    requires GoodTarget(x) && Backed(x, w)
    ensures Lookup(x, w, k).Some? <==> k.id < w.cpus
    ensures Lookup(x, w, k).Some? && Lookup(x, w, l).Some? && k.id < l.id ==>
              Lookup(x, w, k).value + x.size <= Lookup(x, w, l).value
    ensures Lookup(x, w, k).Some? && Lookup(x, w, l).Some? ==> (Lookup(x, w, k) == Lookup(x, w, l) <==> k.id == l.id)
  {
    if k.id < w.cpus && l.id < w.cpus {
      SlotInside(x, w, k.id);
      SlotInside(x, w, l.id);
      if k.id < l.id { Ordered(k.id, l.id, x.size); }
      if l.id < k.id { Ordered(l.id, k.id, x.size); }
    }
  }

  /** A caller's slice of words is aligned and in memory, so it needs no more than its length. */
  lemma StaticBacked(x: Target, base: nat, count: nat)
    requires GoodTarget(x) && base % x.size == 0 && base + count * x.size <= x.limit
    ensures FromStatic(x, base, count).Some? <==> 0 < count < HALF
    ensures FromStatic(x, base, count).Some? ==> Backed(x, FromStatic(x, base, count).value)
  {
  }

  /** The key of each of the first `n` words, in a region used with one kind of key. */
  function Owners(x: Target, w: Words, kind: Kind, n: u32): map<usize, Key>
    requires GoodTarget(x)
    decreases n
  {
    if n == 0 then map[] else Owners(x, w, kind, n - 1)[Address(x, w, n - 1) := Key(kind, n - 1)]
  }

  lemma {:induction false} OwnersKnow(x: Target, w: Words, kind: Kind, n: u32, id: u32)
    requires GoodTarget(x) && Backed(x, w) && id < n <= w.cpus
    ensures Address(x, w, id) in Owners(x, w, kind, n) && Owners(x, w, kind, n)[Address(x, w, id)] == Key(kind, id)
    decreases n
  {
    hide Address;
    if id < n - 1 {
      OwnersKnow(x, w, kind, n - 1, id);
      SlotMap(x, w, Key(kind, id), Key(kind, n - 1));
    }
  }

  lemma {:induction false} OwnersInside(x: Target, w: Words, kind: Kind, n: u32)
    requires GoodTarget(x) && Backed(x, w) && n <= w.cpus
    ensures forall a | a in Owners(x, w, kind, n) :: w.base <= a < w.base + w.len
    decreases n
  {
    if n > 0 {
      OwnersInside(x, w, kind, n - 1);
      SlotInside(x, w, n - 1);
      hide Address;
    }
  }

  /** A region and the kind of key its words are looked up with. */
  datatype Pool = Pool(words: Words, kind: Kind)

  predicate Overlap(v: Words, w: Words) {
    v.base < w.base + w.len && w.base < v.base + v.len
  }

  /** Regions that are really there and do not overlap. */
  predicate GoodPools(x: Target, pools: seq<Pool>) {
    && GoodTarget(x)
    && (forall i | 0 <= i < |pools| :: Backed(x, pools[i].words))
    && (forall i, j | 0 <= i < j < |pools| :: !Overlap(pools[i].words, pools[j].words))
  }

  /** The key of every word of every region. */
  function PoolOwners(x: Target, pools: seq<Pool>): map<usize, Key>
    requires GoodTarget(x)
  {
    if pools == [] then map[]
    else
      var last := pools[|pools| - 1];
      PoolOwners(x, pools[..|pools| - 1]) + Owners(x, last.words, last.kind, last.words.cpus)
  }

  /** The address is what some region gives for the key. */
  predicate FromPool(x: Target, pools: seq<Pool>, key: Key, a: usize)
    requires GoodTarget(x)
  {
    exists i :: 0 <= i < |pools| && pools[i].kind == key.kind && Lookup(x, pools[i].words, key) == Some(a)
  }

  lemma {:induction false} PoolOwnersKnow(x: Target, pools: seq<Pool>, i: nat, id: u32)
    requires GoodPools(x, pools) && i < |pools| && id < pools[i].words.cpus
    ensures Address(x, pools[i].words, id) in PoolOwners(x, pools)
    ensures PoolOwners(x, pools)[Address(x, pools[i].words, id)] == Key(pools[i].kind, id)
    decreases |pools|
  {
    var front, last := pools[..|pools| - 1], pools[|pools| - 1];
    SlotInside(x, pools[i].words, id);
    OwnersInside(x, last.words, last.kind, last.words.cpus);
    hide Address, Owners;
    if i == |pools| - 1 {
      OwnersKnow(x, last.words, last.kind, last.words.cpus, id);
    } else {
      PoolOwnersKnow(x, front, i, id);
      assert front[i] == pools[i] && !Overlap(pools[i].words, last.words);
      assert 0 < x.size;
    }
  }

  /** Every word of the regions under its key, with whatever is known of constant words and of values. */
  function PoolKeying(x: Target, pools: seq<Pool>, cells: map<usize, usize>, values: map<usize, set<usize>>): Keying
    requires GoodTarget(x)
  {
    Keying(PoolOwners(x, pools), cells, values)
  }

  lemma Drawn(x: Target, pools: seq<Pool>, k: Keying, key: Key, a: usize)
    requires GoodPools(x, pools) && FromPool(x, pools, key, a) && k.owner == PoolOwners(x, pools)
    ensures Owned(k, key, a)
  {
    var i :| 0 <= i < |pools| && pools[i].kind == key.kind && Lookup(x, pools[i].words, key) == Some(a);
    hide Address, PoolOwners;
    PoolOwnersKnow(x, pools, i, key.id);
  }

  /** The words a call compares or stores to, the last pointers of a `fetch_add_at` being constant. */
  function Named(k: Keying, call: Call): set<usize> {
    match call.op
    case CompareExchange(word, _, _) => {word}
    case FetchAdd(word, _) => {word}
    case StoreIf(word, _, _, side, _) => {word, side}
    case CompareExchangeIf(word, _, _, other, _) => {word, other}
    case LoadIfNe(word, _, _) => {word}
    case FetchAddAt(ptr, offset, _) => {SlotOf(k, ptr, offset)}
  }

  /** Regions used with one kind of key each give every word one key at a time: any proper call on words that
      come from them under its key keeps the discipline, be they one word, two, or the same one twice. */
  lemma OneKindIsKeyed(x: Target, pools: seq<Pool>, cells: map<usize, usize>, values: map<usize, set<usize>>, call: Call)
    requires GoodPools(x, pools) && Proper(call) && Tame(PoolKeying(x, pools, cells, values), call)
    requires forall a | a in Named(PoolKeying(x, pools, cells, values), call) :: FromPool(x, pools, call.key, a)
    ensures Keyed(PoolKeying(x, pools, cells, values), call)
  {
    var k := PoolKeying(x, pools, cells, values);
    hide FromPool, PoolOwners, Proper, Tame, Owned;
    forall a | a in Named(k, call) ensures Owned(k, call.key, a) {
      Drawn(x, pools, k, call.key, a);
    }
  }

  /** A CPU and a concurrency id with the same number share a word: used with both kinds of key, no region
      keeps the discipline, whatever key its words are given. */
  lemma MixedKindsShare(x: Target, w: Words, id: u32, count: usize, k: Keying)
    requires GoodTarget(x) && Backed(x, w) && Lookup(x, w, Key(CpuIndex, id)).Some?
    ensures Lookup(x, w, Key(CpuIndex, id)) == Lookup(x, w, Key(CidIndex, id))
    ensures
      var a: usize := Lookup(x, w, Key(CpuIndex, id)).value;
      !(Keyed(k, Call(FetchAdd(a, count), Key(CpuIndex, id))) && Keyed(k, Call(FetchAdd(a, count), Key(CidIndex, id))))
  {
    SlotInside(x, w, id);
  }
}
