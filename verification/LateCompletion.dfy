/** What goes wrong when a completion arrives for a chunk that was taken back and waits in pending:
    one run of two chunks in which progress reports the job done while a chunk is still being processed. */
module LateCompletion {
  import opened ChunkQueue
  import opened QueueSafety
  import opened QueueRuns

  const CFG := Config(10.0, 2)

  /** Chunk 0 is pulled by replica 1, expires, is re-queued, and then completed late by replica 1; replica 2
      pulls chunk 1; replica 3 pulls chunk 0 again and dies. */
  const LATE: seq<Event> := [
    Pull(1, 1.0, 1.0, []),
    Reclaim(20.0, [0]),
    Complete(0, 1, 21.0),
    Pull(2, 22.0, 22.0, []),
    Pull(3, 23.0, 23.0, []),
    ForceReclaim({3}, 24.0, [])
  ]

  function Twice(a: Chunk, b: Chunk): map<ChunkId, Chunk> { map[0 := a, 1 := b] }

  function A1(): Chunk { Chunk(Inflight, 1, 1.0, 0.0, 11.0, 0) }
  function A2(): Chunk { Chunk(Pending, 1, 1.0, 0.0, 0.0, 1) }
  function A3(): Chunk { Chunk(Completed, 1, 1.0, 21.0, 0.0, 1) }
  function A5(): Chunk { Chunk(Inflight, 3, 23.0, 21.0, 33.0, 1) }
  function A6(): Chunk { Chunk(Failed, 3, 23.0, 21.0, 33.0, 2) }
  function B4(): Chunk { Chunk(Inflight, 2, 22.0, 0.0, 32.0, 0) }

  function Q0(): Queue { Queue([0, 1], [0, 1], {}, {}, {}, Twice(FRESH_CHUNK, FRESH_CHUNK)) }
  function Q1(): Queue { Queue([0, 1], [1], {0}, {}, {}, Twice(A1(), FRESH_CHUNK)) }
  function Q2(): Queue { Queue([0, 1], [1, 0], {}, {}, {}, Twice(A2(), FRESH_CHUNK)) }
  function Q3(): Queue { Queue([0, 1], [1, 0], {}, {0}, {}, Twice(A3(), FRESH_CHUNK)) }
  function Q4(): Queue { Queue([0, 1], [0], {1}, {0}, {}, Twice(A3(), B4())) }
  function Q5(): Queue { Queue([0, 1], [], {0, 1}, {0}, {}, Twice(A5(), B4())) }
  function Q6(): Queue { Queue([0, 1], [], {1}, {0}, {0}, Twice(A6(), B4())) }

  lemma Step1()
    ensures Step(CFG, Q0(), LATE[0], Q1())
  {
    NothingSelected(CFG, Q0());
    assert [0, 1][1..] == [1];
  }

  lemma Step2()
    ensures Step(CFG, Q1(), LATE[1], Q2())
  {
    assert ExpiredChunks(Q1(), 20.0) == {0};
    assert Requeued(CFG, Q1(), {0}) == {0} && Exhausted(CFG, Q1(), {0}) == {};
    assert AfterReclaim(CFG, Q1(), {0}, [0]).chunks == Q2().chunks;
  }

  lemma Step3()
    ensures Step(CFG, Q2(), LATE[2], Q3())
  {
    NextPlain(CFG, Q2(), LATE[2]);
  }

  lemma Step4()
    ensures Step(CFG, Q3(), LATE[3], Q4())
  {
    NothingSelected(CFG, Q3());
    assert [1, 0][1..] == [0];
  }

  lemma Step5()
    ensures Step(CFG, Q4(), LATE[4], Q5())
  {
    NothingSelected(CFG, Q4());
    assert [0][1..] == [];
  }

  lemma Step6()
    ensures Step(CFG, Q5(), LATE[5], Q6())
  {
    assert OwnedChunks(Q5(), {3}) == {0};
    assert Requeued(CFG, Q5(), {0}) == {} && Exhausted(CFG, Q5(), {0}) == {0};
    assert AfterReclaim(CFG, Q5(), {0}, []).chunks == Q6().chunks;
  }

  /** The first half is legal from a fresh queue and ends with the untidy completion. */
  lemma LateRunStart()
    ensures Q0() == Create([0, 1])
    ensures Step(CFG, Q0(), LATE[0], Q1()) && Step(CFG, Q1(), LATE[1], Q2()) && Step(CFG, Q2(), LATE[2], Q3())
    ensures !Tidy(Q2(), LATE[2])
  {
    assert (map c | c in [0, 1] :: FRESH_CHUNK) == Q0().chunks;
    Step1(); Step2(); Step3();
  }

  /** The second half contains no completion at all. */
  lemma LateRunEnd()
    ensures Step(CFG, Q3(), LATE[3], Q4()) && Step(CFG, Q4(), LATE[4], Q5()) && Step(CFG, Q5(), LATE[5], Q6())
  {
    Step4(); Step5(); Step6();
  }

  /** It ends with chunk 0 both completed and failed, chunk 1 inflight, and `all_done` true. */
  lemma DoneTooEarly()
    ensures AllDone(Q6()) && 1 in Q6().inflight
    ensures 0 in Q6().completed && 0 in Q6().failed && !Exact(Q6())
  {
    assert 0 in Q6().completed;
    assert |Q6().completed| == 1 && |Q6().failed| == 1;
  }
}
