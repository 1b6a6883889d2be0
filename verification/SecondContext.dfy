/** Runs of one chunk and one replica: what a permitted report may find, and what happens to one that is not. */
module SecondContext {
  import opened ChunkQueue
  import opened QueueSafety
  import opened Runner
  import opened LoopAndQueue

  const CFG := Config(10.0, 3)

  /** Replica 7 pulls chunk 0 and its renewals stop getting through; the lease runs out and the chunk is re-queued; the
      same replica pulls it again, and then a renewal of the first context gets through and is acknowledged. */
  const TWICE: seq<Action> := [
    PullAcked(1, 7, 1.0, 1.0, []),
    Expire(20.0, [0]),
    PullAcked(2, 7, 21.0, 21.0, []),
    RenewAcked(1, 22.0)
  ]

  function One(k: Chunk): map<ChunkId, Chunk> { map[0 := k] }

  function C1(): Chunk { Chunk(Inflight, 7, 1.0, 0.0, 11.0, 0) }
  function C2(): Chunk { Chunk(Pending, 7, 1.0, 0.0, 0.0, 1) }
  function C3(): Chunk { Chunk(Inflight, 7, 21.0, 0.0, 31.0, 1) }
  function C4(): Chunk { Chunk(Inflight, 7, 21.0, 0.0, 32.0, 1) }

  function Q0(): Queue { Queue([0], [0], {}, {}, {}, One(FRESH_CHUNK)) }
  function Q1(): Queue { Queue([0], [], {0}, {}, {}, One(C1())) }
  function Q2(): Queue { Queue([0], [0], {}, {}, {}, One(C2())) }
  function Q3(): Queue { Queue([0], [], {0}, {}, {}, One(C3())) }
  function Q4(): Queue { Queue([0], [], {0}, {}, {}, One(C4())) }

  function First(acked: Time): Ctx { Ctx(7, 0, acked, false, false, false) }

  function S0(): Sys { Sys(Q0(), 0.0, map[]) }
  function S1(): Sys { Sys(Q1(), 1.0, map[1 := First(1.0)]) }
  function S2(): Sys { Sys(Q2(), 20.0, map[1 := First(1.0)]) }
  function S3(): Sys { Sys(Q3(), 21.0, map[1 := First(1.0), 2 := First(21.0)]) }
  function S4(): Sys { Sys(Q4(), 22.0, map[1 := First(22.0), 2 := First(21.0)]) }

  predicate Leads(s: Sys, a: Action, s': Sys) {
    WellFormed(s.q) && WellFormed(s'.q) && Ready(CFG, s, a) && Act(CFG, s, a) == s'
  }

  lemma Step1()
    ensures Leads(S0(), TWICE[0], S1())
  {
    NothingSelected(CFG, Q0());
    assert [0][1..] == [];
  }

  lemma Step2()
    ensures Leads(S1(), TWICE[1], S2())
  {
    assert ExpiredChunks(Q1(), 20.0) == {0};
    assert Requeued(CFG, Q1(), {0}) == {0} && Exhausted(CFG, Q1(), {0}) == {};
    assert AfterReclaim(CFG, Q1(), {0}, [0]).chunks == Q2().chunks;
  }

  lemma Step3()
    ensures Leads(S2(), TWICE[2], S3())
  {
    NothingSelected(CFG, Q2());
    assert [0][1..] == [];
  }

  lemma Step4()
    ensures Leads(S3(), TWICE[3], S4())
  {
    NextPlain(CFG, Q3(), EventOf(S3(), TWICE[3]));
  }

  lemma Lead(s: Sys, acts: seq<Action>, s': Sys)
    requires acts != [] && Leads(s, acts[0], s') && CanRun(CFG, s', acts[1..])
    ensures CanRun(CFG, s, acts) && Outcome(CFG, s, acts) == Outcome(CFG, s', acts[1..])
  {
  }

  lemma LastTwo()
    ensures CanRun(CFG, S2(), TWICE[2..]) && Outcome(CFG, S2(), TWICE[2..]) == S4()
  {
    Step3(); Step4();
    assert TWICE[2..][1..] == TWICE[3..] && TWICE[3..][1..] == [];
    Lead(S3(), TWICE[3..], S4());
    Lead(S2(), TWICE[2..], S3());
  }

  lemma Start()
    ensures Q0() == Create([0]) && WellFormed(Q0())
  {
    assert (map c | c in [0] :: FRESH_CHUNK) == Q0().chunks;
  }

  lemma TheRun()
    ensures CanRun(CFG, S0(), TWICE) && Outcome(CFG, S0(), TWICE) == S4()
  {
    Step1(); Step2(); LastTwo();
    assert TWICE[1..][1..] == TWICE[2..];
    Lead(S1(), TWICE[1..], S2());
    Lead(S0(), TWICE, S1());
  }

  lemma StartIsGood()
    ensures Good(CFG, S0())
  {
    Start();
    CreateSafe(CFG, [0]);
  }

  /** Both contexts of the chunk may then report; the second to do so finds it completed. */
  lemma BothMayReport()
    ensures CanRun(CFG, Sys(Create([0]), 0.0, map[]), TWICE)
    ensures var s := Outcome(CFG, Sys(Create([0]), 0.0, map[]), TWICE);
            && WellFormed(s.q) && Ready(CFG, s, Report(1, 23.0))
            && var s' := Act(CFG, s, Report(1, 23.0));
               WellFormed(s'.q) && Ready(CFG, s', Report(2, 24.0)) && 0 in s'.q.completed
  {
    Start();
    TheRun();
    StartIsGood();
    GoodRun(CFG, S0(), TWICE);
    SecondContextFindsItCompleted(CFG, S4(), 1, 2, 23.0, 24.0);
  }

  const REFUSED: seq<Action> := [TWICE[0], TWICE[1], RenewAcked(1, 20.5)]
  const KILLED: seq<Action> := [TWICE[0], Kill({7}, 2.0, [0])]

  function Stolen3(): Sys { Sys(Q2(), 20.5, map[1 := First(1.0).(stolen := true)]) }
  function Killed2(): Sys { Sys(Q2(), 2.0, map[1 := First(1.0).(killed := true)]) }

  lemma RefusalStep()
    ensures Leads(S2(), REFUSED[2], Stolen3())
  {
    NextPlain(CFG, Q2(), EventOf(S2(), REFUSED[2]));
  }

  lemma KillStep()
    ensures Leads(S1(), KILLED[1], Killed2())
  {
    assert OwnedChunks(Q1(), {7}) == {0};
    assert Requeued(CFG, Q1(), {0}) == {0} && Exhausted(CFG, Q1(), {0}) == {};
    assert AfterReclaim(CFG, Q1(), {0}, [0]).chunks == Q2().chunks;
    assert NewCtxs(CFG, S1(), KILLED[1]) == Killed2().ctxs;
  }

  lemma RefusedTail()
    ensures CanRun(CFG, S1(), REFUSED[1..]) && Outcome(CFG, S1(), REFUSED[1..]) == Stolen3()
    ensures LastHeard(CFG, S1(), REFUSED[1..], 1, 1.0) == 20.5
  {
    Step2();
    RefusalStep();
    assert REFUSED[2..][1..] == [] && REFUSED[1..][1..] == REFUSED[2..];
    Lead(S2(), REFUSED[2..], Stolen3());
    Lead(S1(), REFUSED[1..], S2());
    assert LastHeard(CFG, S2(), REFUSED[2..], 1, 1.0) == LastHeard(CFG, Stolen3(), [], 1, 20.5);
  }

  lemma RefusedRun()
    ensures CanRun(CFG, S0(), REFUSED) && Outcome(CFG, S0(), REFUSED) == Stolen3()
  {
    Step1();
    RefusedTail();
    Lead(S0(), REFUSED, S1());
  }

  lemma RefusedState()
    ensures var s := Stolen3();
            1 in s.ctxs && s.ctxs[1].stolen && !s.ctxs[1].killed && !Tidy(s.q, EventOf(s, Report(1, 21.0)))
  {
  }

  /** Why the flag matters: the first context's renewal is refused at 20.5, so its thread heard from the server well
      within the TTL of a report at 21, and yet that report would complete a chunk that waits in pending. */
  lemma FlagIsNeeded()
    ensures CanRun(CFG, Sys(Create([0]), 0.0, map[]), REFUSED)
    ensures CanRun(CFG, S1(), REFUSED[1..]) && LastHeard(CFG, S1(), REFUSED[1..], 1, 1.0) == 20.5
    ensures var s := Outcome(CFG, Sys(Create([0]), 0.0, map[]), REFUSED);
            && s == Outcome(CFG, S1(), REFUSED[1..])
            && 1 in s.ctxs && s.ctxs[1].stolen && !s.ctxs[1].killed && !Tidy(s.q, EventOf(s, Report(1, 21.0)))
  {
    Start();
    RefusedRun();
    RefusedTail();
    RefusedState();
  }

  /** Why the replica must not have been killed: a kill re-queues its chunk, and a report right after it, the flag unset
      and the TTL not over, would complete a chunk that waits in pending. */
  lemma KilledReportIsUntidy()
    ensures CanRun(CFG, Sys(Create([0]), 0.0, map[]), KILLED)
    ensures var s := Outcome(CFG, Sys(Create([0]), 0.0, map[]), KILLED);
            && 1 in s.ctxs && !s.ctxs[1].stolen && !s.ctxs[1].reported && 3.0 <= s.ctxs[1].acked + CFG.leaseTtl
            && !Tidy(s.q, EventOf(s, Report(1, 3.0)))
  {
    Start();
    Step1();
    KillStep();
    assert KILLED[1..][1..] == [];
    Lead(S1(), KILLED[1..], Killed2());
    Lead(S0(), KILLED, S1());
  }

  /** Why the report has to come within the TTL of the last acknowledgement: after the first two steps the flag of the
      first context is unset and its replica alive, but its report would complete a chunk that waits in pending. */
  lemma LateReportIsUntidy()
    ensures CanRun(CFG, Sys(Create([0]), 0.0, map[]), TWICE[..2])
    ensures var s := Outcome(CFG, Sys(Create([0]), 0.0, map[]), TWICE[..2]);
            && 1 in s.ctxs && !s.ctxs[1].stolen && !s.ctxs[1].killed && !s.ctxs[1].reported
            && !Tidy(s.q, EventOf(s, Report(1, 21.0)))
  {
    Start();
    Step1(); Step2();
    assert TWICE[..2] == [TWICE[0], TWICE[1]];
    Lead(S1(), [TWICE[1]], S2());
    assert TWICE[..2][1..] == [TWICE[1]];
    Lead(S0(), TWICE[..2], S1());
  }
}
