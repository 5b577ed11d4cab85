/** What the invariant gives in every reachable state of every disciplined run. */
module Safety {
  import opened Bits
  import opened Ops
  import opened Isa
  import opened Operands
  import opened Blocks
  import opened Stepping
  import opened Machine
  import opened Sections
  import opened Atomic
  import opened Refinement
  import opened IndexCheck

  /** All programs between calls, all handlers returned. */
  predicate AtRest(s: State) {
    Placed(s) && forall t | t in s.threads :: s.threads[t].stack == [Idle]
  }

  lemma AtRestInv(cfg: Config, s: State)
    requires AtRest(s)
    ensures Inv(cfg, s) && AllArmed(cfg, s) && AllChecked(cfg, s)
  {
    hide Block;
  }

  /** What a running pass has read is still in memory. */
  lemma ReadIsCurrent(cfg: Config, s: State, t: Tid, a: usize)
    requires Inv(cfg, s) && InLiveSection(cfg, s, t) && a in Top(s.threads[t]).seen
    ensures a in s.mem && s.mem[a] == Top(s.threads[t]).seen[a]
  {
    hide Block, ContextOk, SectionOk;
    assert Agrees(s.mem, Top(s.threads[t]).seen);
  }

  /** The instruction pointer of a descheduled thread inside a range is lost: it resumes at its abort. */
  lemma Doomed(cfg: Config, s: State, t: Tid, cpu: u32, cid: u32)
    requires AllArmed(cfg, s) && Enabled(cfg, s, Resume(t, cpu, cid)) && InSection(cfg, Top(s.threads[t]))
    ensures
      var ctx := Top(s.threads[t]);
      Top(Next(cfg, s, Resume(t, cpu, cid)).threads[t]) == ctx.(core := ctx.core.(pc := ProgramOf(cfg, ctx).abort))
  {
    hide ContextOk;
    var th := s.threads[t];
    assert ThreadArmed(cfg, th);
    ContextSite(cfg, th.area, Top(th));
  }

  lemma ContextSite(cfg: Config, area: Area, ctx: Context)
    requires ContextOk(cfg, area, ctx) && ctx.Active?
    ensures ctx.site in cfg.sites
    ensures Block(cfg.arch, cfg.sites[ctx.site].opcode, cfg.sites[ctx.site].kind) == ProgramOf(cfg, ctx)
  {
    hide Block;
  }

  /** A stale descriptor moves no instruction pointer: only a context inside its own range is restarted. */
  lemma StaleHarmless(cfg: Config, th: Thread)
    requires ThreadArmed(cfg, th) && !InSection(cfg, Top(th))
    ensures Kick(cfg, th).stack == th.stack
  {
    hide Block;
    if Top(th).Active? {
      assert ContextOk(cfg, th.area, Top(th));
    }
  }

  /** Every load and store of a pass, restarted later or not, falls on what its call depends on now. */
  lemma TouchesFootprint(cfg: Config, s: State, t: Tid)
    requires Inv(cfg, s) && Executing(cfg, s, t) && InSection(cfg, Top(s.threads[t]))
    ensures
      var th := s.threads[t];
      var call := Top(th).call;
      Touches(ExecTop(cfg, th, s.mem), Meaning(call, IndexOf(th.area, call.key.kind), s.mem).access)
  {
    var th := s.threads[t];
    var ctx := Top(th);
    RunningContext(cfg, s, t);
    IndexAgrees(th.area, ctx.site, ctx.call.key.kind);
    var e := ExecTop(cfg, th, s.mem);
    assert e.core.pc > ctx.core.pc by { RangeStep(cfg, th.area, ctx, s.mem, e); }
    hide Exec, Block, Meaning, ContextOk;
    assert Faithful(ProgramOf(cfg, ctx), EnvOf(th.area, ctx.site), ctx.call, ctx.core, ctx.seen, s.mem);
  }

  /** The pointer chase of `load_if_ne`: only after an index match and a passed compare, and only
      through the value still in the word. */
  lemma ChaseSafe(cfg: Config, s: State, t: Tid, a: usize)
    requires Inv(cfg, s) && Executing(cfg, s, t) && InSection(cfg, Top(s.threads[t]))
    requires Top(s.threads[t]).call.op.LoadIfNe? && ExecTop(cfg, s.threads[t], s.mem).load == Some(a)
    ensures
      var call := Top(s.threads[t]).call;
      var head := Read(s.mem, call.op.word);
      && IndexOf(s.threads[t].area, call.key.kind) == call.key.id
      && (a == call.op.word || (head != call.op.avoided && a == WrapAdd(head, call.op.offset)))
  {
    TouchesFootprint(cfg, s, t);
    hide ExecTop, Inv, InSection, WrapAdd;
  }

  /** If what a call depends on is mapped, no pass of it faults. */
  lemma NoFault(cfg: Config, s: State, t: Tid)
    requires Inv(cfg, s) && Executing(cfg, s, t)
    requires Top(s.threads[t]).core.pc < ProgramOf(cfg, Top(s.threads[t])).post ==>
               var call := Top(s.threads[t]).call;
               Meaning(call, IndexOf(s.threads[t].area, call.key.kind), s.mem).access <= s.mem.Keys
    ensures Enabled(cfg, s, Step(t))
  {
    var th := s.threads[t];
    var ctx := Top(th);
    var p, opcode, kind, e := ProgramOf(cfg, ctx), OpcodeOf(ctx.call.op), ctx.call.key.kind, ExecTop(cfg, th, s.mem);
    RunningContext(cfg, s, t);
    EveryBlockWellFormed(cfg.arch, opcode, kind);
    Ranged(p, opcode, kind);
    hide Exec, Block, ContextOk, Meaning, Inv, WellFormed, SectionOk, Agrees, Proper;
    if InSection(cfg, ctx) {
      TouchesFootprint(cfg, s, t);
    } else if ctx.core.pc < p.start {
      EntryStep(cfg, th.area, ctx, s.mem, e);
    } else {
      TailExec(p, opcode, kind, EnvOf(th.area, ctx.site), ctx.core, s.mem, e);
    }
  }

  /** The step at which a call takes effect, and the answer it has from then on. */
  predicate Commits(cfg: Config, s: State, t: Tid) {
    Enabled(cfg, s, Step(t)) && Observe(cfg, s, Step(t)) == Commit(t)
  }

  function CommitEffect(cfg: Config, s: State, t: Tid): Effect
    requires Commits(cfg, s, t)
  {
    var th := s.threads[t];
    Meaning(Top(th).call, IndexOf(th.area, Top(th).call.key.kind), s.mem)
  }

  /** At its committing instruction a call sees the whole of memory it depends on at once. */
  lemma CommitIsAtomic(cfg: Config, s: State, t: Tid)
    requires Inv(cfg, s) && Commits(cfg, s, t)
    ensures Next(cfg, s, Step(t)).mem == CommitEffect(cfg, s, t).mem
    ensures AbsContext(cfg, Top(Next(cfg, s, Step(t)).threads[t]))
         == Done(Top(s.threads[t]).call, CommitEffect(cfg, s, t).attempt)
  {
    var th := s.threads[t];
    RunningContext(cfg, s, t);
    ContextAbs(cfg, th.area, Top(th), s.mem, ExecTop(cfg, th, s.mem));
    hide Exec, Block, Meaning, Inv, Note, ContextOk, SectionOk, AbsContext;
  }

  /** Before and after its committing instruction a call stores nothing but its side word. */
  lemma NonCommitStep(cfg: Config, s: State, t: Tid)
    requires Inv(cfg, s) && Enabled(cfg, s, Step(t)) && !Commits(cfg, s, t)
    ensures
      var op := Top(s.threads[t]).call.op;
      var n := Next(cfg, s, Step(t)).mem;
      n == s.mem || (op.StoreIf? && n == s.mem[op.side := op.sideUpdate])
  {
    var th := s.threads[t];
    RunningContext(cfg, s, t);
    ContextAbs(cfg, th.area, Top(th), s.mem, ExecTop(cfg, th, s.mem));
    hide Exec, Block, Inv, Note, ContextOk, SectionOk, AbsContext, Meaning;
  }

  /** `store_if`: both words change together, or the word does not change and only `side` may have. */
  lemma StoreIfStep(cfg: Config, s: State, t: Tid)
    requires Inv(cfg, s) && Enabled(cfg, s, Step(t)) && Top(s.threads[t]).call.op.StoreIf?
    ensures
      var op := Top(s.threads[t]).call.op;
      var m, n := s.mem, Next(cfg, s, Step(t)).mem;
      if Commits(cfg, s, t) && CommitEffect(cfg, s, t).attempt.Ok? then
        Read(m, op.word) == op.expected && n == m[op.side := op.sideUpdate][op.word := op.update]
      else if Commits(cfg, s, t) then n == m
      else n == m || (n == m[op.side := op.sideUpdate] && Read(n, op.word) == Read(m, op.word) == op.expected)
  {
    var th := s.threads[t];
    RunningContext(cfg, s, t);
    ContextAbs(cfg, th.area, Top(th), s.mem, ExecTop(cfg, th, s.mem));
    hide ExecTop, Block, Inv, Note, ContextOk, SectionOk, AbsContext, Stepped;
  }

  /** `compare_exchange_if`: Ok means both compares held at the committing store; a Miss of the second
      compare means the first one still held. `other` may be the same word. */
  lemma CompareExchangeIfSnapshot(cfg: Config, s: State, t: Tid)
    requires Inv(cfg, s) && Commits(cfg, s, t) && Top(s.threads[t]).call.op.CompareExchangeIf?
    ensures
      var call := Top(s.threads[t]).call;
      var op, m, n := call.op, s.mem, Next(cfg, s, Step(t)).mem;
      match CommitEffect(cfg, s, t).attempt
      case Ok(v) => v == op.expected && Read(m, op.word) == op.expected && Read(m, op.other) == op.otherExpected
                    && n == m[op.word := op.update]
      case Miss(v) => n == m && (if Read(m, op.word) != op.expected then v == Read(m, op.word)
                                 else v == Read(m, op.other) != op.otherExpected)
      case Abort => n == m && IndexOf(s.threads[t].area, call.key.kind) != call.key.id
  {
    CommitIsAtomic(cfg, s, t);
    hide Commits, Next, Inv;
  }

  /** What the caller is handed is the answer fixed at the commit. */
  lemma ReturnsAnswer(cfg: Config, s: State, t: Tid)
    requires Enabled(cfg, s, Return(t))
    ensures AbsContext(cfg, Top(s.threads[t])) == Done(Top(s.threads[t]).call, Answer(cfg, Top(s.threads[t])))
  {
    var ctx := Top(s.threads[t]);
    EveryBlockWellFormed(cfg.arch, OpcodeOf(ctx.call.op), ctx.call.key.kind);
    AnswerSettled(cfg, ctx);
    hide Block, Settled, Answer;
  }
}
