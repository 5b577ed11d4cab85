/** The six word operations, and what each one means when nothing interrupts it. */
module Ops {
  import opened Bits

  /** The field of `struct rseq` a critical section confirms. */
  datatype Kind = CpuIndex | CidIndex

  datatype Key = Key(kind: Kind, id: u32)

  datatype Op =
    | CompareExchange(word: usize, expected: usize, update: usize)
    | FetchAdd(word: usize, count: usize)
    | StoreIf(word: usize, expected: usize, update: usize, side: usize, sideUpdate: usize)
    | CompareExchangeIf(word: usize, expected: usize, update: usize, other: usize, otherExpected: usize)
    | LoadIfNe(word: usize, avoided: usize, offset: usize)
    | FetchAddAt(word: usize, offset: usize, count: usize)

  /** One public call: an operation and the key of its word. */
  datatype Call = Call(op: Op, key: Key)

  datatype Attempt = Ok(value: usize) | Miss(value: usize) | Abort

  type Mem = map<usize, usize>

  function Read(m: Mem, a: usize): usize {
    if a in m then m[a] else 0
  }

  /** An answer, the memory that comes with it, the addresses stored to, and all it depends on. */
  datatype Effect = Effect(attempt: Attempt, mem: Mem, writes: set<usize>, access: set<usize>)

  /** The atomic meaning of a call made by a thread whose index field holds `index`. */
  function Meaning(call: Call, index: u32, m: Mem): Effect {
    if index != call.key.id then Effect(Abort, m, {}, {})
    else
      var held := Read(m, call.op.word);
      match call.op
      case CompareExchange(word, expected, update) =>
        if held == expected then Effect(Ok(held), m[word := update], {word}, {word})
        else Effect(Miss(held), m, {}, {word})
      case FetchAdd(word, count) =>
        Effect(Ok(held), m[word := WrapAdd(held, count)], {word}, {word})
      case StoreIf(word, expected, update, side, sideUpdate) =>
        if held == expected then
          Effect(Ok(held), m[side := sideUpdate][word := update], {word, side}, {word, side})
        else Effect(Miss(held), m, {}, {word})
      case CompareExchangeIf(word, expected, update, other, otherExpected) =>
        var seen := Read(m, other);
        if held != expected then Effect(Miss(held), m, {}, {word})
        else if seen != otherExpected then Effect(Miss(seen), m, {}, {word, other})
        else Effect(Ok(held), m[word := update], {word}, {word, other})
      case LoadIfNe(word, avoided, offset) =>
        if held == avoided then Effect(Miss(held), m, {}, {word})
        else
          var chase := WrapAdd(held, offset);
          Effect(Ok(held), m[word := Read(m, chase)], {word}, {word, chase})
      case FetchAddAt(ptr, offset, count) =>
        var base := WrapAdd(held, offset);
        var slot := Read(m, base);
        var prev := Read(m, slot);
        Effect(Ok(prev), m[slot := WrapAdd(prev, count)], {slot}, {ptr, base, slot})
  }
}
