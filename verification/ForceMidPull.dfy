/** One interleaving of store commands in which a force-reclaim lands between two commands of a pull, and the chunk is
    handed out twice. */
module ForceMidPull {
  import opened ChunkQueue
  import opened FineQueue

  const CFG := Config(10.0, 3)

  /** Replica 7 pulls chunk 0, the lease runs out and the chunk is re-queued with the name of replica 7 still in its
      hash. Client 2 starts a pull for replica 8; before it writes its lease, replica 7 is force-reclaimed. */
  const BEFORE: seq<Command> := [
    LPop(1), SAdd(1), HSet(1, 7, 1.0),
    ReclaimScript(20.0, [0]),
    LPop(2), SAdd(2)
  ]
  const FORCE := ForceScript({7}, [0])

  function One(k: Chunk): map<ChunkId, Chunk> { map[0 := k] }

  function C1(): Chunk { Chunk(Inflight, 7, 1.0, 0.0, 11.0, 0) }
  function C2(): Chunk { Chunk(Pending, 7, 1.0, 0.0, 0.0, 1) }
  function C3(): Chunk { Chunk(Pending, 7, 1.0, 0.0, 0.0, 2) }

  function Q(pending: seq<ChunkId>, inflight: set<ChunkId>, k: Chunk): Queue {
    Queue([0], pending, inflight, {}, {}, One(k))
  }

  function F0(): Fine { Fine(Q([0], {}, FRESH_CHUNK), map[], map[]) }
  function F1(): Fine { Fine(Q([], {}, FRESH_CHUNK), map[1 := Popped(0)], map[]) }
  function F2(): Fine { Fine(Q([], {0}, FRESH_CHUNK), map[1 := Added(0)], map[]) }
  function F3(): Fine { Fine(Q([], {0}, C1()), map[], map[]) }
  function F4(): Fine { Fine(Q([0], {}, C2()), map[], map[]) }
  function F5(): Fine { Fine(Q([], {}, C2()), map[2 := Popped(0)], map[]) }
  function F6(): Fine { Fine(Q([], {0}, C2()), map[2 := Added(0)], map[]) }
  function F7(): Fine { Fine(Q([0], {}, C3()), map[2 := Added(0)], map[]) }
  function F8(): Fine { Fine(Q([], {}, C3()), map[2 := Added(0), 3 := Popped(0)], map[]) }

  predicate Leads(f: Fine, m: Command, f': Fine) {
    WellFormedFine(f) && WellFormedFine(f') && Can(CFG, f, m) && Do(CFG, f, m) == f'
  }

  lemma Lead(f: Fine, ms: seq<Command>, f': Fine)
    requires ms != [] && Leads(f, ms[0], f') && Runnable(CFG, f', ms[1..])
    ensures Runnable(CFG, f, ms) && Result(CFG, f, ms) == Result(CFG, f', ms[1..])
  {
  }

  lemma FirstPull()
    ensures Leads(F0(), BEFORE[0], F1()) && Leads(F1(), BEFORE[1], F2()) && Leads(F2(), BEFORE[2], F3())
  {
    assert [0][1..] == [];
  }

  lemma Expiry()
    ensures Leads(F3(), BEFORE[3], F4())
  {
    assert ExpiredChunks(F3().q, 20.0) == {0};
    assert Requeued(CFG, F3().q, {0}) == {0} && Exhausted(CFG, F3().q, {0}) == {};
    assert AfterReclaim(CFG, F3().q, {0}, [0]).chunks == F4().q.chunks;
  }

  lemma HalfPull()
    ensures Leads(F4(), BEFORE[4], F5()) && Leads(F5(), BEFORE[5], F6())
  {
    assert [0][1..] == [];
  }

  lemma ForceStep()
    ensures Leads(F6(), FORCE, F7())
  {
    assert OwnedChunks(F6().q, {7}) == {0};
    assert Requeued(CFG, F6().q, {0}) == {0} && Exhausted(CFG, F6().q, {0}) == {};
    assert AfterReclaim(CFG, F6().q, {0}, [0]).chunks == F7().q.chunks;
  }

  lemma PopAgain()
    ensures Leads(F7(), LPop(3), F8())
  {
    assert [0][1..] == [];
  }

  lemma BeforeTail()
    ensures Runnable(CFG, F3(), BEFORE[3..]) && Result(CFG, F3(), BEFORE[3..]) == F6()
  {
    Expiry();
    HalfPull();
    assert BEFORE[5..][1..] == [] && BEFORE[4..][1..] == BEFORE[5..] && BEFORE[3..][1..] == BEFORE[4..];
    Lead(F5(), BEFORE[5..], F6());
    Lead(F4(), BEFORE[4..], F5());
    Lead(F3(), BEFORE[3..], F4());
  }

  lemma TheRun()
    ensures Runnable(CFG, F0(), BEFORE) && Result(CFG, F0(), BEFORE) == F6()
  {
    FirstPull();
    BeforeTail();
    assert BEFORE[2..][1..] == BEFORE[3..] && BEFORE[1..][1..] == BEFORE[2..];
    Lead(F2(), BEFORE[2..], F3());
    Lead(F1(), BEFORE[1..], F2());
    Lead(F0(), BEFORE, F1());
  }

  lemma StartIsFresh()
    ensures F0() == Fine(Create([0]), map[], map[])
  {
    assert (map c | c in [0] :: FRESH_CHUNK) == F0().q.chunks;
  }

  /** Up to the force-reclaim no command is one, so the tokens are apart; it then puts back a chunk that a pull holds,
      and the next pull hands the same chunk to a second client. */
  lemma HandedOutTwice()
    ensures Runnable(CFG, Fine(Create([0]), map[], map[]), BEFORE) && forall m | m in BEFORE :: !m.ForceScript?
    ensures var f := Result(CFG, Fine(Create([0]), map[], map[]), BEFORE);
            && Tokens(f) && Can(CFG, f, FORCE) && !Tokens(Do(CFG, f, FORCE))
            && var f' := Do(CFG, f, FORCE);
               && WellFormedFine(f') && Can(CFG, f', LPop(3))
               && var g := Do(CFG, f', LPop(3));
                  2 in g.hands && 3 in g.hands && g.hands[2].chunk == g.hands[3].chunk == 0
  {
    StartIsFresh();
    TheRun();
    CreateTokens([0]);
    TokensRun(CFG, F0(), BEFORE);
    ForceStep();
    PopAgain();
    assert 0 in F7().q.pending && Holding(F7(), F7().hands[2].chunk);
  }
}
