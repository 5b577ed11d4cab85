/** The pop that reads `next` outside the section and swaps the head: exactly when it is right, and its ABA run. */
module SwapPop {
  import opened Bits
  import opened Ops
  import opened Machine
  import opened Atomic
  import opened FreeList

  /** What a call does when its thread's index is its key. */
  function Does(call: Call, m: Mem): Effect {
    Meaning(call, call.key.id, m)
  }

  /** Take the node `head` off by swapping in what was read as its link. */
  function SwapCall(h: Heap, c: u32, head: usize, next: usize): Call
    requires c in h.heads
  {
    Call(CompareExchange(h.heads[c], head, next), Key(CpuIndex, c))
  }

  /** A pop that reads `next` outside the section succeeds whenever the head is the same node again; it
      takes that node and nothing else off the list if and only if `next` is the same again too. */
  lemma SwapPopExact(h: Heap, m: Mem, c: u32, l: seq<usize>, next: usize)
    requires GoodHeap(h) && c in h.heads && l != [] && Chain(h, m, c, l)
    requires forall i | 0 <= i < |l| :: l[i] in h.nodes
    ensures Does(SwapCall(h, c, l[0], next), m).attempt == Ok(l[0])
    ensures Chain(h, Does(SwapCall(h, c, l[0], next), m).mem, c, l[1..]) <==> next == Read(m, Field(h, l[0]))
  {
    var n := Does(SwapCall(h, c, l[0], next), m).mem;
    assert Read(m, Link(h, c, l, 0)) == l[0] && Read(m, Link(h, c, l, 1)) == At(l, 1);
    assert n == m[h.heads[c] := next];
    if next == Read(m, Field(h, l[0])) {
      forall i | 0 <= i <= |l[1..]| ensures Read(n, Link(h, c, l[1..], i)) == At(l[1..], i) {
        assert Read(m, Link(h, c, l, i + 1)) == At(l, i + 1);
      }
    } else {
      assert Read(n, Link(h, c, l[1..], 0)) == next != At(l[1..], 0);
    }
  }

  /** What the calls of a thread have answered, in order. */
  function Replies(a: AState, os: seq<ALabel>, t: Tid): seq<Attempt>
    requires AValidRun(a, os)
    decreases |os|
  {
    if os == [] then []
    else
      var front, o := os[..|os| - 1], os[|os| - 1];
      Replies(a, front, t) + if o == Commit(t) then [EffectOf(AStateAfter(a, front), t).attempt] else []
  }

  /** A run so far, with what threads 1 and 2 have been answered in it. */
  ghost predicate Sofar(a: AState, os: seq<ALabel>, n: AState, one: seq<Attempt>, two: seq<Attempt>) {
    AValidRun(a, os) && AStateAfter(a, os) == n && Replies(a, os, 1) == one && Replies(a, os, 2) == two
  }

  /** A step that is not a commit. */
  lemma Then(a: AState, os: seq<ALabel>, n: AState, one: seq<Attempt>, two: seq<Attempt>, o: ALabel)
    requires Sofar(a, os, n, one, two) && AEnabled(n, o) && !o.Commit?
    ensures Sofar(a, os + [o], ANext(n, o), one, two)
  {
    hide AEnabled, ANext;
    ASnoc(a, os, o);
    assert (os + [o])[..|os + [o]| - 1] == os;
  }

  /** A thread between calls, on CPU `c`. */
  predicate Ready(n: AState, t: Tid, c: u32) {
    t in n.threads && n.threads[t].place == On(c) && n.threads[t].cpuId == c && n.threads[t].stack == [Quiet]
  }

  /** Thread `t` has CPU `c` and concurrency id `cid` to itself, and `u` is off its CPU; both are between calls. */
  predicate Turn(n: AState, t: Tid, u: Tid, c: u32, cid: u32) {
    && Ready(n, t, c) && t != u && u in n.threads && n.threads[u].place.Off? && n.threads[u].stack == [Quiet]
    && forall v | v in n.threads && v != t && n.threads[v].place.On? :: n.threads[v].place.cpu != c && n.threads[v].mmCid != cid
  }

  /** A whole call of a thread on the CPU of its key: invoked, carried out, answered. */
  lemma Calls(a: AState, os: seq<ALabel>, n: AState, one: seq<Attempt>, two: seq<Attempt>, t: Tid, u: Tid, c: u32, cid: u32, call: Call)
    returns (os2: seq<ALabel>, n2: AState)
    requires Sofar(a, os, n, one, two) && (t == 1 || t == 2) && Turn(n, t, u, c, cid) && call.key == Key(CpuIndex, c)
    ensures os2 == os + [Invoke(t, call), Commit(t), Respond(t)]
    ensures n2.mem == Does(call, n.mem).mem && Turn(n2, t, u, c, cid)
    ensures
      var reply := [Does(call, n.mem).attempt];
      Sofar(a, os2, n2, if t == 1 then one + reply else one, if t == 2 then two + reply else two)
  {
    n2 := OneCall(n, t, u, c, cid, call);
    var n1 := ANext(n, Invoke(t, call));
    var n3 := ANext(n1, Commit(t));
    hide AEnabled, ANext, AValidRun, AStateAfter, Replies, Meaning, Sofar, EffectOf, Turn;
    Then(a, os, n, one, two, Invoke(t, call));
    var os1 := os + [Invoke(t, call)];
    var one2, two2 := Commits(a, os1, n1, one, two, t);
    Then(a, os1 + [Commit(t)], n3, one2, two2, Respond(t));
    os2 := os1 + [Commit(t)] + [Respond(t)];
    assert os2 == os + [Invoke(t, call), Commit(t), Respond(t)];
  }

  lemma OneCall(n: AState, t: Tid, u: Tid, c: u32, cid: u32, call: Call) returns (n2: AState)
    requires Turn(n, t, u, c, cid) && call.key == Key(CpuIndex, c)
    ensures AEnabled(n, Invoke(t, call))
    ensures
      var n1 := ANext(n, Invoke(t, call));
      && IsPending(n1, t) && EffectOf(n1, t) == Does(call, n.mem) && AEnabled(n1, Commit(t))
      && AEnabled(ANext(n1, Commit(t)), Respond(t)) && n2 == ANext(ANext(n1, Commit(t)), Respond(t))
    ensures n2.mem == Does(call, n.mem).mem && Turn(n2, t, u, c, cid)
  {
    hide Meaning;
    var th := n.threads[t];
    var n1 := ANext(n, Invoke(t, call));
    assert ASetTop(th, Pending(call)).stack == [Pending(call)];
    var n3 := ANext(n1, Commit(t));
    assert ASetTop(n1.threads[t], Done(call, Does(call, n.mem).attempt)).stack == [Done(call, Does(call, n.mem).attempt)];
    n2 := ANext(n3, Respond(t));
    assert ASetTop(n3.threads[t], Quiet).stack == [Quiet];
    assert n2.threads[t] == th;
    assert n2.threads == n.threads;
  }

  lemma Commits(a: AState, os: seq<ALabel>, n: AState, one: seq<Attempt>, two: seq<Attempt>, t: Tid)
    returns (one2: seq<Attempt>, two2: seq<Attempt>)
    requires Sofar(a, os, n, one, two) && IsPending(n, t) && (t == 1 || t == 2)
    ensures Sofar(a, os + [Commit(t)], ANext(n, Commit(t)), one2, two2)
    ensures one2 == (if t == 1 then one + [EffectOf(n, t).attempt] else one)
    ensures two2 == (if t == 2 then two + [EffectOf(n, t).attempt] else two)
  {
    assert AEnabled(n, Commit(t));
    hide AEnabled, ANext, EffectOf;
    ASnoc(a, os, Commit(t));
    assert (os + [Commit(t)])[..|os + [Commit(t)]| - 1] == os;
    one2 := if t == 1 then one + [EffectOf(n, t).attempt] else one;
    two2 := if t == 2 then two + [EffectOf(n, t).attempt] else two;
  }

  /** The CPU passes from one thread to the other. */
  lemma Handover(a: AState, os: seq<ALabel>, n: AState, one: seq<Attempt>, two: seq<Attempt>, t: Tid, u: Tid, c: u32, cid: u32)
    returns (os2: seq<ALabel>, n2: AState)
    requires Sofar(a, os, n, one, two) && Turn(n, t, u, c, cid)
    ensures os2 == os + [Depart(t), Arrive(u, c, cid)]
    ensures Sofar(a, os2, n2, one, two) && Turn(n2, u, t, c, cid) && n2.mem == n.mem
  {
    hide Sofar;
    Then(a, os, n, one, two, Depart(t));
    var n1 := ANext(n, Depart(t));
    Then(a, os + [Depart(t)], n1, one, two, Arrive(u, c, cid));
    n2 := ANext(n1, Arrive(u, c, cid));
    os2 := os + [Depart(t)] + [Arrive(u, c, cid)];
    assert os2 == os + [Depart(t), Arrive(u, c, cid)];
  }

  /** While thread 1 is away, thread 2 pops twice and pushes the first node back. */
  function Between(h: Heap, c: u32, cid: u32, node: usize): seq<ALabel>
    requires c in h.heads
  {
    [Depart(1), Arrive(2, c, cid)]
    + [Invoke(2, PopCall(h, c)), Commit(2), Respond(2)] + [Invoke(2, PopCall(h, c)), Commit(2), Respond(2)]
    + [Invoke(2, PushCall(h, c, node, 0)), Commit(2), Respond(2)] + [Depart(2), Arrive(1, c, cid)]
  }

  /** What the calls do to a list of two. */
  lemma TwoNodes(h: Heap, m: Mem, c: u32, a: usize, b: usize)
    requires GoodHeap(h) && c in h.heads && a in h.nodes && b in h.nodes && a != b && Chain(h, m, c, [a, b])
    ensures
      var m1 := Does(PopCall(h, c), m);
      var m2 := Does(PopCall(h, c), m1.mem);
      var m3 := Does(PushCall(h, c, a, 0), m2.mem);
      var m4 := Does(SwapCall(h, c, a, b), m3.mem);
      && m1.attempt == Ok(a) && m2.attempt == Ok(b) && m3.attempt == Ok(0) && Chain(h, m3.mem, c, [a])
      && m4.attempt == Ok(a) && Chain(h, m4.mem, c, [b])
    ensures Read(m, h.heads[c]) == a && Read(m, Field(h, a)) == b
  {
    var l := [a, b];
    assert Read(m, Link(h, c, l, 0)) == a && Read(m, Link(h, c, l, 1)) == b && Read(m, Link(h, c, l, 2)) == 0;
    assert Field(h, a) != Field(h, b) by { if Field(h, a) == Field(h, b) { FieldInjective(h, a, b); } }
    hide WrapAdd;
  }

  /** The ABA run: thread 1 of a CPU has read the head `x` and its link `y`; thread 2 runs there and pops `x` and
      `y`, and pushes `x` back; thread 1 comes back and swaps. It is told that it has `x`, and `y`, which
      thread 2 has been given and has kept, is on the list. */
  lemma AbaRun(h: Heap, a: AState, c: u32, cid: u32, x: usize, y: usize) returns (os: seq<ALabel>)
    requires GoodHeap(h) && c in h.heads && x in h.nodes && y in h.nodes && x != y && Chain(h, a.mem, c, [x, y])
    requires Turn(a, 1, 2, c, cid)
    ensures Read(a.mem, h.heads[c]) == x && Read(a.mem, Field(h, x)) == y
    ensures os == Between(h, c, cid, x) + [Invoke(1, SwapCall(h, c, x, y)), Commit(1), Respond(1)]
    ensures AValidRun(a, os) && Replies(a, os, 1) == [Ok(x)] && Replies(a, os, 2) == [Ok(x), Ok(y), Ok(0)]
    ensures Chain(h, AStateAfter(a, os).mem, c, [y])
  {
    TwoNodes(h, a.mem, c, x, y);
    assert Sofar(a, [], a, [], []);
    var none: seq<Attempt> := [];
    assert none + [Ok(x)] == [Ok(x)] && [Ok(x)] + [Ok(y)] == [Ok(x), Ok(y)] && [Ok(x), Ok(y)] + [Ok(0)] == [Ok(x), Ok(y), Ok(0)];
    assert forall call | call in {PopCall(h, c), PushCall(h, c, x, 0), SwapCall(h, c, x, y)} :: call.key == Key(CpuIndex, c);
    hide *;
    var o1, n1 := Handover(a, [], a, [], [], 1, 2, c, cid);
    var o2, n2 := Calls(a, o1, n1, [], [], 2, 1, c, cid, PopCall(h, c));
    var o3, n3 := Calls(a, o2, n2, [], [Ok(x)], 2, 1, c, cid, PopCall(h, c));
    var o4, n4 := Calls(a, o3, n3, [], [Ok(x), Ok(y)], 2, 1, c, cid, PushCall(h, c, x, 0));
    var o5, n5 := Handover(a, o4, n4, [], [Ok(x), Ok(y), Ok(0)], 2, 1, c, cid);
    assert o5 == Between(h, c, cid, x) by { InOrder(h, c, cid, x, o1, o2, o3, o4, o5); }
    var n6;
    os, n6 := Calls(a, o5, n5, [], [Ok(x), Ok(y), Ok(0)], 1, 2, c, cid, SwapCall(h, c, x, y));
    Ends(a, os, n6, [Ok(x)], [Ok(x), Ok(y), Ok(0)]);
  }

  lemma InOrder(h: Heap, c: u32, cid: u32, x: usize, o1: seq<ALabel>, o2: seq<ALabel>, o3: seq<ALabel>, o4: seq<ALabel>, o5: seq<ALabel>)
    requires c in h.heads && o1 == [] + [Depart(1), Arrive(2, c, cid)]
    requires o2 == o1 + [Invoke(2, PopCall(h, c)), Commit(2), Respond(2)] && o3 == o2 + [Invoke(2, PopCall(h, c)), Commit(2), Respond(2)]
    requires o4 == o3 + [Invoke(2, PushCall(h, c, x, 0)), Commit(2), Respond(2)] && o5 == o4 + [Depart(2), Arrive(1, c, cid)]
    ensures o5 == Between(h, c, cid, x)
  {
    hide PopCall, PushCall;
  }

  lemma Ends(a: AState, os: seq<ALabel>, n: AState, one: seq<Attempt>, two: seq<Attempt>)
    requires Sofar(a, os, n, one, two)
    ensures AValidRun(a, os) && AStateAfter(a, os) == n && Replies(a, os, 1) == one && Replies(a, os, 2) == two
  {
  }
}
