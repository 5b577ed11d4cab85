/** The retry loops around the word operations, attempt by attempt. */
module Clients {
  import opened Bits
  import opened Ops
  import opened Threads
  import opened FreeList
  import opened Conservation

  /** What one attempt meets: the CPU number the thread reads, the one the section confirms, the head word a
      push reads before entering, and memory when the attempt takes effect. */
  datatype Look = Look(read: u32, confirm: u32, head: usize, mem: Mem)

  /** A CPU number, and not one of the two values the kernel puts in its place. */
  predicate Valid(id: u32): (valid: bool)
    ensures valid <==> id < 0xFFFF_FFFE
  {
    id != CPU_UNINIT && id != CPU_REG_FAILED
  }

  /** The attempt finds a word and is still on its CPU when the section asks. */
  predicate Lands(words: map<u32, usize>, look: Look) {
    Valid(look.read) && look.read in words && look.confirm == look.read
  }

  predicate NoneLands(words: map<u32, usize>, looks: seq<Look>) {
    forall i | 0 <= i < |looks| :: !Lands(words, looks[i])
  }

  /** How often the CPU number has changed between one look at it and the next. */
  function Moves(looks: seq<Look>): nat {
    if looks == [] then 0
    else
      var n := |looks| - 1;
      Moves(looks[..n])
      + (if n > 0 && looks[n].read != looks[n - 1].confirm then 1 else 0)
      + (if looks[n].confirm != looks[n].read then 1 else 0)
  }

  /** Every attempt that does not land, in a region that covers the CPUs, has been moved. */
  lemma {:induction false} EveryFailureIsAMove(words: map<u32, usize>, looks: seq<Look>)
    requires NoneLands(words, looks) && forall i | 0 <= i < |looks| :: Valid(looks[i].read) && looks[i].read in words
    ensures |looks| <= Moves(looks)
  {
    if looks != [] {
      var n := |looks| - 1;
      assert forall i | 0 <= i < n :: looks[..n][i] == looks[i];
      EveryFailureIsAMove(words, looks[..n]);
      assert !Lands(words, looks[n]);
    }
  }

  /** A thread that stays where it is does not move. */
  lemma {:induction false} StayingIsNoMove(looks: seq<Look>, c: u32)
    requires forall i | 0 <= i < |looks| :: looks[i].read == looks[i].confirm == c
    ensures Moves(looks) == 0
  {
    if looks != [] { StayingIsNoMove(looks[..|looks| - 1], c); }
  }

  /** Add to the counter of whatever CPU the thread is on, looking it up anew for every attempt. */
  method Add(words: map<u32, usize>, count: usize, looks: seq<Look>)
    returns (prev: Option<usize>, tries: nat, mem: Mem)
    requires looks != []
    ensures 1 <= tries <= |looks| && NoneLands(words, looks[..tries - 1])
    ensures prev.Some? <==> Lands(words, looks[tries - 1])
    ensures forall i | 0 <= i < |looks| && looks[i].read == looks[i].confirm < 0xFFFF_FFFE && looks[i].read in words ::
              prev.Some? && tries <= i + 1
    ensures prev.None? ==> tries == |looks| && mem == looks[tries - 1].mem
    ensures prev.Some? ==>
              var look := looks[tries - 1];
              && look.read == look.confirm < 0xFFFF_FFFE && look.confirm in words
              && prev.value == Read(look.mem, words[look.confirm])
              && mem == look.mem[words[look.confirm] := WrapAdd(prev.value, count)]
    ensures (forall i | 0 <= i < |looks| :: looks[i].read < 0xFFFF_FFFE && looks[i].read in words) ==> tries <= Moves(looks[..tries - 1]) + 1
  {
    tries, prev, mem := 0, None, looks[0].mem;
    while tries < |looks|
      invariant tries <= |looks| && NoneLands(words, looks[..tries]) && prev == None
      invariant tries > 0 ==> mem == looks[tries - 1].mem
    {
      var look := looks[tries];
      mem := look.mem;
      tries := tries + 1;
      if Valid(look.read) && look.read in words {
        var e := Meaning(Call(FetchAdd(words[look.read], count), Key(CpuIndex, look.read)), look.confirm, look.mem);
        mem := e.mem;
        if e.attempt.Ok? {
          prev := Some(e.attempt.value);
          break;
        }
      }
      assert looks[..tries][..tries - 1] == looks[..tries - 1];
    }
    if forall i | 0 <= i < |looks| :: looks[i].read < 0xFFFF_FFFE && looks[i].read in words {
      assert NoneLands(words, looks[..tries - 1]);
      EveryFailureIsAMove(words, looks[..tries - 1]);
    }
  }

  /** The same with a word looked up once: it succeeds if and only if the thread is on that word's CPU at some
      attempt, so one migration can make it fail for ever. */
  method AddWord(word: Word, count: usize, looks: seq<Look>)
    returns (prev: Option<usize>, tries: nat, mem: Mem)
    requires looks != []
    ensures 1 <= tries <= |looks|
    ensures prev.Some? <==> exists i :: 0 <= i < |looks| && looks[i].confirm == word.key.id
    ensures prev.None? ==> tries == |looks| && mem == looks[tries - 1].mem
    ensures prev.Some? ==>
              var look := looks[tries - 1];
              && look.confirm == word.key.id && prev.value == Read(look.mem, word.addr)
              && mem == look.mem[word.addr := WrapAdd(prev.value, count)]
              && forall i | 0 <= i < tries - 1 :: looks[i].confirm != word.key.id
  {
    tries, prev, mem := 0, None, looks[0].mem;
    while tries < |looks|
      invariant tries <= |looks| && prev == None
      invariant tries > 0 ==> mem == looks[tries - 1].mem
      invariant forall i | 0 <= i < tries :: looks[i].confirm != word.key.id
    {
      var look := looks[tries];
      tries := tries + 1;
      var e := Meaning(Call(FetchAdd(word.addr, count), word.key), look.confirm, look.mem);
      mem := e.mem;
      if e.attempt.Ok? {
        prev := Some(e.attempt.value);
        return;
      }
    }
  }

  /** A node put in front of a list: its link first, then the head. */
  lemma PushedChain(h: Heap, m: Mem, c: u32, l: seq<usize>, node: usize)
    requires GoodHeap(h) && c in h.heads && node in h.nodes && node !in l && Chain(h, m, c, l)
    requires forall i | 0 <= i < |l| :: l[i] in h.nodes
    ensures Chain(h, m[Field(h, node) := Read(m, h.heads[c])][h.heads[c] := node], c, [node] + l)
  {
    var n, k := m[Field(h, node) := Read(m, h.heads[c])][h.heads[c] := node], [node] + l;
    assert Read(m, Link(h, c, l, 0)) == At(l, 0);
    forall i | 0 <= i <= |k| ensures Read(n, Link(h, c, k, i)) == At(k, i) {
      if i >= 2 {
        assert Read(m, Link(h, c, l, i - 1)) == At(l, i - 1);
        assert l[i - 2] in h.nodes;
        if Field(h, l[i - 2]) == Field(h, node) { FieldInjective(h, l[i - 2], node); }
      }
    }
  }

  /** Push a node: read the head outside the section, and store the link and the head if it is still there. */
  method Push(h: Heap, node: usize, looks: seq<Look>) returns (done: bool, tries: nat, mem: Mem)
    requires GoodHeap(h) && node in h.nodes && looks != []
    ensures 1 <= tries <= |looks|
    ensures forall i | 0 <= i < tries - 1 :: !Pushes(h, looks[i])
    ensures done <==> Pushes(h, looks[tries - 1])
    ensures forall i | 0 <= i < |looks| && looks[i].read == looks[i].confirm < 0xFFFF_FFFE && looks[i].read in h.heads
                       && Read(looks[i].mem, h.heads[looks[i].read]) == looks[i].head :: done && tries <= i + 1
    ensures !done ==> tries == |looks| && mem == looks[tries - 1].mem
    ensures done ==>
              var look := looks[tries - 1];
              && look.read == look.confirm < 0xFFFF_FFFE && look.confirm in h.heads
              && Read(look.mem, h.heads[look.confirm]) == look.head
              && mem == look.mem[Field(h, node) := look.head][h.heads[look.confirm] := node]
              && forall l | Chain(h, look.mem, look.confirm, l) && node !in l && forall i | 0 <= i < |l| :: l[i] in h.nodes ::
                Chain(h, mem, look.confirm, [node] + l)
  {
    tries, done, mem := 0, false, looks[0].mem;
    while tries < |looks|
      invariant tries <= |looks| && !done
      invariant tries > 0 ==> mem == looks[tries - 1].mem
      invariant forall i | 0 <= i < tries :: !Pushes(h, looks[i])
    {
      var look := looks[tries];
      mem := look.mem;
      tries := tries + 1;
      if Valid(look.read) && look.read in h.heads {
        var e := Meaning(PushCall(h, look.read, node, look.head), look.confirm, look.mem);
        mem := e.mem;
        if e.attempt.Ok? {
          forall l | Chain(h, look.mem, look.confirm, l) && node !in l && forall i | 0 <= i < |l| :: l[i] in h.nodes
            ensures Chain(h, mem, look.confirm, [node] + l)
          {
            PushedChain(h, look.mem, look.confirm, l, node);
          }
          done := true;
          return;
        }
      }
    }
  }

  predicate Pushes(h: Heap, look: Look) {
    && Valid(look.read) && look.read in h.heads && look.confirm == look.read
    && Read(look.mem, h.heads[look.read]) == look.head
  }

  /** The words a drain visits, in order. */
  function Visited(words: map<u32, usize>, n: nat): seq<usize>
    requires n <= HALF
  {
    if n == 0 then []
    else if Valid(n - 1) && n - 1 in words then Visited(words, n - 1) + [words[n - 1]]
    else Visited(words, n - 1)
  }

  predicate Apart(words: map<u32, usize>) {
    forall c, d | c in words && d in words && c != d :: words[c] != words[d]
  }

  lemma {:induction false} VisitedWords(words: map<u32, usize>, n: nat)
    requires n <= HALF
    ensures forall a | a in Visited(words, n) :: exists c: u32 :: c < n && c < 0xFFFF_FFFE && c in words && words[c] == a
    ensures forall c: u32 | c < n && c < 0xFFFF_FFFE && c in words :: words[c] in Visited(words, n)
  {
    if n > 0 { VisitedWords(words, n - 1); }
  }

  lemma Unvisited(words: map<u32, usize>, c: u32)
    requires Apart(words) && c in words
    ensures words[c] !in Visited(words, c)
  {
    VisitedWords(words, c);
  }

  /** Words that are apart are visited once each. */
  lemma {:induction false} VisitedOnce(words: map<u32, usize>, n: nat)
    requires n <= HALF && Apart(words)
    ensures Distinct(Visited(words, n))
  {
    if n > 0 {
      VisitedOnce(words, n - 1);
      if Valid(n - 1) && n - 1 in words { Unvisited(words, n - 1); }
    }
  }

  /** Where every number has a word, they are visited in order. */
  lemma {:induction false} VisitedInOrder(words: map<u32, usize>, n: nat)
    requires n <= 0xFFFF_FFFE && forall c: u32 | c < n :: c in words
    ensures |Visited(words, n)| == n && forall c: u32 | c < n :: Visited(words, n)[c] == words[c]
  {
    if n > 0 { VisitedInOrder(words, n - 1); }
  }

  lemma SumSnoc(m: Mem, addrs: seq<usize>, a: usize)
    ensures SumWords(m, addrs + [a]) == WrapAdd(SumWords(m, addrs), Read(m, a))
  {
    SumSplits(m, addrs, [a]);
    SumSplits(m, [a], []);
  }

  /** Swap every word to zero; with nobody else about, the sum is exactly what was there. What the fences say
      is ignored, so it is no input. */
  method StealAll(words: map<u32, usize>, cpus: u32, m: Mem) returns (mem: Mem, stolen: usize)
    requires Apart(words)
    ensures stolen == SumWords(m, Visited(words, cpus)) && Distinct(Visited(words, cpus))
    ensures forall c: u32 | c < cpus && c < 0xFFFF_FFFE && c in words ::
              words[c] in Visited(words, cpus) && Read(mem, words[c]) == 0
    ensures forall a | a in Visited(words, cpus) :: exists c: u32 :: c < cpus && c < 0xFFFF_FFFE && c in words && words[c] == a
    ensures forall a | a !in Visited(words, cpus) :: Read(mem, a) == Read(m, a)
  {
    mem, stolen := m, 0;
    var raw: int := 0;
    assert Visited(words, raw) == [] && SumWords(m, []) == 0;
    hide SumWords, Apart, WrapAdd;
    while raw < cpus
      invariant 0 <= raw <= cpus
      invariant stolen == SumWords(m, Visited(words, raw))
      invariant forall a | a in Visited(words, raw) :: Read(mem, a) == 0
      invariant forall a | a !in Visited(words, raw) :: Read(mem, a) == Read(m, a)
    {
      if Valid(raw) && raw in words {
        Unvisited(words, raw);
        SumSnoc(m, Visited(words, raw), words[raw]);
        stolen := WrapAdd(stolen, Read(mem, words[raw]));
        mem := mem[words[raw] := 0];
      }
      raw := raw + 1;
    }
    VisitedWords(words, cpus);
    VisitedOnce(words, cpus);
  }

  /** Read every word by adding zero to it, each from its own CPU: nothing changes, and the sum is the sum. */
  method SumAll(words: map<u32, usize>, cpus: u32, m: Mem) returns (sum: usize, mem: Mem)
    requires cpus <= 0xFFFF_FFFE && forall c: u32 | c < cpus :: c in words && words[c] in m
    ensures mem == m && sum == SumWords(m, Visited(words, cpus))
    ensures |Visited(words, cpus)| == cpus && forall c: u32 | c < cpus :: Visited(words, cpus)[c] == words[c]
  {
    sum, mem := 0, m;
    var cpu: int := 0;
    while cpu < cpus
      invariant 0 <= cpu <= cpus
      invariant mem == m && sum == SumWords(m, Visited(words, cpu))
    {
      var e := Meaning(Call(FetchAdd(words[cpu], 0), Key(CpuIndex, cpu)), cpu, mem);
      assert e.mem == m;
      SumSnoc(m, Visited(words, cpu), words[cpu]);
      sum, mem := WrapAdd(sum, e.attempt.value), e.mem;
      cpu := cpu + 1;
    }
    VisitedInOrder(words, cpus);
  }
}
