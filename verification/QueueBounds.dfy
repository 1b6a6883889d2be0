/** Bounded work: retries are counted down by every reclaim, so no run moves chunks for ever. */
module QueueBounds {
  import opened Common
  import opened ChunkQueue
  import opened QueueSafety
  import opened QueueRuns

  /** The moves chunk `c` can still make: two per attempt left, one less while inflight, and its completion. */
  function Budget(cfg: Config, q: Queue, c: ChunkId): int
    requires WellFormed(q)
  {
    (if c in q.pending then 2 * (cfg.maxRetries - q.chunks[c].retryCount)
     else if c in q.inflight then 2 * (cfg.maxRetries - q.chunks[c].retryCount) - 1
     else 0)
    + (if c in q.completed then 0 else 1)
  }

  /** The moves chunk `c` makes in one event: taken back, handed out, completed for the first time. */
  function Moves(cfg: Config, q: Queue, e: Event, c: ChunkId): nat
    requires WellFormed(q)
  {
    (if c in Selected(q, e) then 1 else 0)
    + (if Handed(cfg, q, e) == Some(c) then 1 else 0)
    + (if e.Complete? && e.chunk == c && c !in q.completed then 1 else 0)
  }

  /** The attempts chunk `c` can still be given. */
  function AttemptsLeft(cfg: Config, q: Queue, c: ChunkId): int
    requires WellFormed(q)
  {
    if c in q.pending then cfg.maxRetries - q.chunks[c].retryCount
    else if c in q.inflight then cfg.maxRetries - q.chunks[c].retryCount - 1
    else 0
  }

  lemma ReclaimMoves(cfg: Config, q: Queue, selected: set<ChunkId>, back: seq<ChunkId>, c: ChunkId)
    requires Safe(cfg, q) && WellFormed(q) && selected <= q.inflight
    requires Enumerates(back, Requeued(cfg, q, selected))
    ensures WellFormed(AfterReclaim(cfg, q, selected, back))
    ensures (if c in selected then 1 else 0) + Budget(cfg, AfterReclaim(cfg, q, selected, back), c) <= Budget(cfg, q, c)
    ensures AttemptsLeft(cfg, AfterReclaim(cfg, q, selected, back), c) <= AttemptsLeft(cfg, q, c)
  {
    var q' := AfterReclaim(cfg, q, selected, back);
    assert c in q'.pending <==> c in q.pending || c in back;
  }

  lemma TakeMoves(cfg: Config, q: Queue, r: ReplicaId, at: Time, c: ChunkId)
    requires Safe(cfg, q) && WellFormed(q) && q.pending != []
    ensures WellFormed(Take(cfg, q, r, at))
    ensures var got := if c == q.pending[0] then 1 else 0;
            && got + Budget(cfg, Take(cfg, q, r, at), c) <= Budget(cfg, q, c)
            && got + AttemptsLeft(cfg, Take(cfg, q, r, at), c) <= AttemptsLeft(cfg, q, c)
  {
    SafeTake(cfg, q, r, at);
    assert q.pending == [q.pending[0]] + q.pending[1..];
    assert c in q.pending <==> c == q.pending[0] || c in q.pending[1..];
  }

  /** Every event pays for its moves out of the budget, chunk by chunk. */
  lemma BudgetNext(cfg: Config, q: Queue, e: Event, c: ChunkId)
    requires Safe(cfg, q) && WellFormed(q) && Enabled(cfg, q, e)
    ensures WellFormed(Next(cfg, q, e))
    ensures Moves(cfg, q, e, c) + Budget(cfg, Next(cfg, q, e), c) <= Budget(cfg, q, c)
    ensures (if Handed(cfg, q, e) == Some(c) then 1 else 0) + AttemptsLeft(cfg, Next(cfg, q, e), c)
            <= AttemptsLeft(cfg, q, c)
  {
    NextWellFormed(cfg, q, e);
    if e.Complete? || e.Renew? {
      NextPlain(cfg, q, e);
    } else {
      var swept := Swept(cfg, q, e);
      SafeReclaim(cfg, q, Selected(q, e), Back(e));
      ReclaimMoves(cfg, q, Selected(q, e), Back(e), c);
      if e.Pull? && swept.pending != [] {
        TakeMoves(cfg, swept, e.replica, e.at, c);
      }
    }
  }

  lemma BudgetNonNegative(cfg: Config, q: Queue, c: ChunkId)
    requires Safe(cfg, q) && WellFormed(q)
    ensures Budget(cfg, q, c) >= 0 && AttemptsLeft(cfg, q, c) >= 0
  {
  }

  // ------------------------------------------------------------------------- runs

  function ChunkMoves(cfg: Config, q: Queue, es: seq<Event>, c: ChunkId): nat
    requires WellFormed(q) && Legal(cfg, q, es)
    decreases |es|
  {
    if es == [] then 0
    else NextWellFormed(cfg, q, es[0]); Moves(cfg, q, es[0], c) + ChunkMoves(cfg, Next(cfg, q, es[0]), es[1..], c)
  }

  function Count(c: ChunkId, s: seq<ChunkId>): nat {
    if s == [] then 0 else (if s[0] == c then 1 else 0) + Count(c, s[1..])
  }

  lemma {:induction false} BudgetRun(cfg: Config, q: Queue, es: seq<Event>, c: ChunkId)
    requires Safe(cfg, q) && WellFormed(q) && Legal(cfg, q, es)
    ensures ChunkMoves(cfg, q, es, c) <= Budget(cfg, q, c)
    ensures Count(c, HandedOut(cfg, q, es)) <= AttemptsLeft(cfg, q, c)
    decreases |es|
  {
    BudgetNonNegative(cfg, q, c);
    if es != [] {
      var q' := Next(cfg, q, es[0]);
      BudgetNext(cfg, q, es[0], c);
      SafeNext(cfg, q, es[0]);
      BudgetRun(cfg, q', es[1..], c);
      var rest := HandedOut(cfg, q', es[1..]);
      match Handed(cfg, q, es[0])
      case Some(d) => assert ([d] + rest)[1..] == rest;
      case None =>
    }
  }

  function TotalMoves(cfg: Config, q: Queue, es: seq<Event>, cs: seq<ChunkId>): nat
    requires WellFormed(q) && Legal(cfg, q, es)
  {
    if cs == [] then 0 else ChunkMoves(cfg, q, es, cs[0]) + TotalMoves(cfg, q, es, cs[1..])
  }

  lemma {:induction false} TotalMovesBound(cfg: Config, q: Queue, es: seq<Event>, cs: seq<ChunkId>, bound: int)
    requires WellFormed(q) && Legal(cfg, q, es)
    requires forall c | c in cs :: ChunkMoves(cfg, q, es, c) <= bound
    ensures TotalMoves(cfg, q, es, cs) <= |cs| * bound
  {
    if cs != [] {
      TotalMovesBound(cfg, q, es, cs[1..], bound);
      assert |cs| * bound == bound + (|cs| - 1) * bound;
    }
  }

  lemma {:induction false} CountIs(c: ChunkId, s: seq<ChunkId>)
    ensures Count(c, s) == multiset(s)[c]
  {
    if s != [] {
      assert s == [s[0]] + s[1..];
      CountIs(c, s[1..]);
    }
  }

  /** No chunk is handed out more than `maxRetries` times, and the N chunks of a job make at most
      N * (2 * maxRetries + 1) moves, over any run, whatever completions arrive. */
  lemma BoundedWork(cfg: Config, order: seq<ChunkId>, es: seq<Event>)
    requires NoDup(order) && cfg.maxRetries >= 1
    requires WellFormed(Create(order)) && Legal(cfg, Create(order), es)
    ensures forall c :: multiset(HandedOut(cfg, Create(order), es))[c] <= cfg.maxRetries
    ensures TotalMoves(cfg, Create(order), es, order) <= |order| * (2 * cfg.maxRetries + 1)
  {
    var q := Create(order);
    CreateSafe(cfg, order);
    forall c
      ensures multiset(HandedOut(cfg, q, es))[c] <= cfg.maxRetries
      ensures ChunkMoves(cfg, q, es, c) <= 2 * cfg.maxRetries + 1
    {
      BudgetRun(cfg, q, es, c);
      CountIs(c, HandedOut(cfg, q, es));
    }
    TotalMovesBound(cfg, q, es, order, 2 * cfg.maxRetries + 1);
  }

  lemma PullMoves(cfg: Config, q: Queue, r: ReplicaId, at: Time)
    requires WellFormed(q) && q.pending != []
    ensures Enabled(cfg, q, Pull(r, at, at, [])) && Moves(cfg, q, Pull(r, at, at, []), q.pending[0]) > 0
  {
    NothingSelected(cfg, q);
  }

  lemma CompletionMoves(cfg: Config, q: Queue, c: ChunkId, r: ReplicaId, at: Time)
    requires WellFormed(q) && c !in q.completed
    ensures Enabled(cfg, q, Complete(c, r, at)) && Moves(cfg, q, Complete(c, r, at), c) > 0
  {
    NextPlain(cfg, q, Complete(c, r, at));
  }

  /** While the accounts are exact and the job is not done some chunk can move, and the accounts stay exact. */
  lemma NoDeadlock(cfg: Config, q: Queue, r: ReplicaId, at: Time) returns (e: Event, c: ChunkId)
    requires Safe(cfg, q) && WellFormed(q) && Exact(q) && Total(q) > 0 && !AllDone(q)
    ensures Enabled(cfg, q, e) && Tidy(q, e) && Moves(cfg, q, e, c) > 0 && c in q.order
  {
    ExactProgress(cfg, q);
    if q.pending != [] {
      e, c := Pull(r, at, at, []), q.pending[0];
      PullMoves(cfg, q, r, at);
    } else {
      c :| c in q.inflight;
      e := Complete(c, r, at);
      CompletionMoves(cfg, q, c, r, at);
    }
  }

  // ------------------------------------------------------------------ termination

  /** Every event of the run moves some chunk of the job. */
  predicate Working(cfg: Config, q: Queue, es: seq<Event>)
    requires WellFormed(q) && Legal(cfg, q, es)
    decreases |es|
  {
    es == [] ||
    (&& (exists c :: c in q.order && Moves(cfg, q, es[0], c) > 0)
     && (NextWellFormed(cfg, q, es[0]); Working(cfg, Next(cfg, q, es[0]), es[1..])))
  }

  function MovesOf(cfg: Config, q: Queue, e: Event, cs: seq<ChunkId>): nat
    requires WellFormed(q)
  {
    if cs == [] then 0 else Moves(cfg, q, e, cs[0]) + MovesOf(cfg, q, e, cs[1..])
  }

  lemma {:induction false} TotalMovesStep(cfg: Config, q: Queue, q': Queue, es: seq<Event>, cs: seq<ChunkId>)
    requires es != [] && WellFormed(q) && Legal(cfg, q, es) && Step(cfg, q, es[0], q') && WellFormed(q')
    requires Legal(cfg, q', es[1..])
    ensures TotalMoves(cfg, q, es, cs) == MovesOf(cfg, q, es[0], cs) + TotalMoves(cfg, q', es[1..], cs)
  {
    if cs != [] {
      TotalMovesStep(cfg, q, q', es, cs[1..]);
      ChunkMovesStep(cfg, q, q', es, cs[0]);
    }
  }

  lemma ChunkMovesStep(cfg: Config, q: Queue, q': Queue, es: seq<Event>, c: ChunkId)
    requires es != [] && WellFormed(q) && Legal(cfg, q, es) && Step(cfg, q, es[0], q') && WellFormed(q')
    requires Legal(cfg, q', es[1..])
    ensures ChunkMoves(cfg, q, es, c) == Moves(cfg, q, es[0], c) + ChunkMoves(cfg, q', es[1..], c)
  {
  }

  lemma {:induction false} SomeMove(cfg: Config, q: Queue, e: Event, cs: seq<ChunkId>, c: ChunkId)
    requires WellFormed(q) && c in cs && Moves(cfg, q, e, c) > 0
    ensures MovesOf(cfg, q, e, cs) > 0
  {
    if cs[0] != c {
      SomeMove(cfg, q, e, cs[1..], c);
    }
  }

  lemma {:induction false} WorkingIsCounted(cfg: Config, q: Queue, es: seq<Event>, order: seq<ChunkId>)
    requires WellFormed(q) && Legal(cfg, q, es) && Working(cfg, q, es) && q.order == order
    ensures |es| <= TotalMoves(cfg, q, es, order)
    decreases |es|
  {
    if es != [] {
      var q' := WorkingStep(cfg, q, es);
      WorkingIsCounted(cfg, q', es[1..], order);
      TotalMovesStep(cfg, q, q', es, order);
      var c :| c in q.order && Moves(cfg, q, es[0], c) > 0;
      SomeMove(cfg, q, es[0], order, c);
    }
  }

  lemma WorkingStep(cfg: Config, q: Queue, es: seq<Event>) returns (q': Queue)
    requires es != [] && WellFormed(q) && Legal(cfg, q, es) && Working(cfg, q, es)
    ensures Step(cfg, q, es[0], q') && WellFormed(q') && q'.order == q.order
    ensures Legal(cfg, q', es[1..]) && Working(cfg, q', es[1..])
  {
    NextWellFormed(cfg, q, es[0]);
    q' := Next(cfg, q, es[0]);
    DoneCountGrows(cfg, q, es[0]);
  }

  /** A job whose events keep moving chunks, completions being tidy, ends: N chunks allow at most
      N * (2 * maxRetries + 1) such events, and when none is possible any more the job is done. */
  lemma WorkEndsDone(cfg: Config, order: seq<ChunkId>, es: seq<Event>)
    requires NoDup(order) && order != [] && cfg.maxRetries >= 1
    requires WellFormed(Create(order)) && Legal(cfg, Create(order), es) && TidyRun(cfg, Create(order), es)
    requires Working(cfg, Create(order), es)
    ensures |es| <= |order| * (2 * cfg.maxRetries + 1)
    ensures WellFormed(After(cfg, Create(order), es))
    ensures var q := After(cfg, Create(order), es);
            AllDone(q) || exists e, c :: Enabled(cfg, q, e) && Tidy(q, e) && c in order && Moves(cfg, q, e, c) > 0
  {
    var q0, q := Create(order), After(cfg, Create(order), es);
    BoundedWork(cfg, order, es);
    WorkingIsCounted(cfg, q0, es, order);
    CreateSafe(cfg, order);
    ExactRun(cfg, q0, es);
    ExactAtEnd(cfg, q0, es);
    SafeRun(cfg, q0, es);
    OrderFixed(cfg, q0, es);
    if !AllDone(q) {
      var e, c := NoDeadlock(cfg, q, 0, 0.0);
    }
  }
}
