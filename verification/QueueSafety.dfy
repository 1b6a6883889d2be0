/** What every queue operation keeps, whoever calls it and however late, and what holds only while
    no completion arrives for a chunk that is waiting in pending. */
module QueueSafety {
  import opened Common
  import opened ChunkQueue

  /** Nothing of the job is lost, a chunk is live in at most one place, and its hash agrees. Completed
      chunks may still be live: `complete_chunk` never takes a chunk out of pending. */
  ghost predicate Safe(cfg: Config, q: Queue) {
    && NoDup(q.order) && NoDup(q.pending)
    && (forall c | c in q.order :: c in q.chunks)
    && (forall c | c in q.pending :: c in q.order && c !in q.inflight && c !in q.failed)
    && (forall c | c in q.pending :: q.chunks[c].retryCount < cfg.maxRetries && q.chunks[c].leaseUntil == 0.0)
    && (forall c | c in q.inflight :: c in q.order && c !in q.failed && q.chunks[c].retryCount < cfg.maxRetries)
    && (forall c | c in q.failed :: c in q.order)
    && (forall c | c in q.order :: c in q.pending || c in q.inflight || c in q.completed || c in q.failed)
    && (forall c | c in q.chunks :: q.chunks[c].status == Inflight <==> c in q.inflight)
  }

  lemma CreateSafe(cfg: Config, order: seq<ChunkId>)
    requires NoDup(order) && cfg.maxRetries >= 1
    ensures Safe(cfg, Create(order))
  {
  }

  lemma SafeReclaim(cfg: Config, q: Queue, selected: set<ChunkId>, back: seq<ChunkId>)
    requires Safe(cfg, q) && selected <= q.inflight
    requires Enumerates(back, Requeued(cfg, q, selected))
    ensures Safe(cfg, AfterReclaim(cfg, q, selected, back))
  {
    var q' := AfterReclaim(cfg, q, selected, back);
    NoDupAppend(q.pending, back);
    forall c | c in q'.pending
      ensures c in q'.order && c !in q'.inflight && c !in q'.failed
      ensures q'.chunks[c].retryCount < cfg.maxRetries && q'.chunks[c].leaseUntil == 0.0
    {
      assert c in q.pending || c in back;
    }
    forall c | c in q'.order
      ensures c in q'.pending || c in q'.inflight || c in q'.completed || c in q'.failed
    {
      assert c in selected ==> c in back || c in Exhausted(cfg, q, selected);
    }
  }

  lemma SafeTake(cfg: Config, q: Queue, r: ReplicaId, at: Time)
    requires Safe(cfg, q) && q.pending != []
    ensures Safe(cfg, Take(cfg, q, r, at))
  {
    var c := q.pending[0];
    assert q.pending == [c] + q.pending[1..];
    assert forall d | d in q.pending[1..] :: d in q.pending && d != c;
    assert forall d | d in q.pending :: d == c || d in q.pending[1..];
  }

  /** Every operation keeps `Safe`, with completions of any chunk from anyone at any time. */
  lemma SafeNext(cfg: Config, q: Queue, e: Event)
    requires Safe(cfg, q) && WellFormed(q) && Enabled(cfg, q, e)
    ensures Safe(cfg, Next(cfg, q, e))
  {
    SafeReclaim(cfg, q, Selected(q, e), Back(e));
    var swept := Swept(cfg, q, e);
    if e.Pull? && swept.pending != [] {
      SafeTake(cfg, swept, e.replica, e.at);
    }
  }

  // ------------------------------------------------------------ exact accounting

  /** A completed chunk belongs to the job and is nowhere else. */
  ghost predicate Exact(q: Queue) {
    forall c | c in q.completed :: c in q.order && c !in q.pending && c !in q.inflight && c !in q.failed
  }

  /** A completion that arrives for a chunk of the job that is not waiting in pending. */
  predicate Tidy(q: Queue, e: Event) {
    e.Complete? ==> e.chunk in q.order && e.chunk !in q.pending
  }

  lemma ExactReclaim(cfg: Config, q: Queue, selected: set<ChunkId>, back: seq<ChunkId>)
    requires WellFormed(q) && selected <= q.inflight
    requires Enumerates(back, Requeued(cfg, q, selected))
    requires Exact(q)
    ensures Exact(AfterReclaim(cfg, q, selected, back))
  {
    forall c | c in q.completed
      ensures c !in q.pending + back
    {
      assert c !in selected;
    }
  }

  lemma ExactTake(cfg: Config, q: Queue, r: ReplicaId, at: Time)
    requires WellFormed(q) && q.pending != [] && Exact(q)
    ensures Exact(Take(cfg, q, r, at))
  {
    assert q.pending == [q.pending[0]] + q.pending[1..];
  }

  lemma ExactComplete(q: Queue, c: ChunkId, at: Time)
    requires Exact(q)
    ensures Exact(AfterComplete(q, c, at)) <==> c in q.order && c !in q.pending
  {
    assert c in AfterComplete(q, c, at).completed;
  }

  /** Exactness survives a step if and only if the step is not a completion of a pending (or foreign) chunk. */
  lemma ExactNext(cfg: Config, q: Queue, e: Event)
    requires Safe(cfg, q) && WellFormed(q) && Enabled(cfg, q, e)
    requires Exact(q)
    ensures Exact(Next(cfg, q, e)) <==> Tidy(q, e)
  {
    if e.Complete? || e.Renew? {
      NextPlain(cfg, q, e);
      if e.Complete? {
        ExactComplete(q, e.chunk, e.at);
      }
    } else {
      var swept := Swept(cfg, q, e);
      SweptWellFormed(cfg, q, e);
      ExactReclaim(cfg, q, Selected(q, e), Back(e));
      if e.Pull? && swept.pending != [] {
        ExactTake(cfg, swept, e.replica, e.at);
      }
    }
  }

  lemma FourParts(order: seq<ChunkId>, pending: seq<ChunkId>, A: set<ChunkId>, B: set<ChunkId>, C: set<ChunkId>)
    requires NoDup(order) && NoDup(pending)
    requires Elems(order) == Elems(pending) + A + B + C
    requires Elems(pending) !! A !! B !! C
    ensures |pending| + |A| + |B| + |C| == |order|
  {
    EnumeratesSize(order, Elems(order));
    EnumeratesSize(pending, Elems(pending));
  }

  /** The four containers partition the job, so progress is exact: done means nothing is live. */
  lemma ExactProgress(cfg: Config, q: Queue)
    requires Safe(cfg, q) && Exact(q)
    ensures Elems(q.order) == Elems(q.pending) + q.inflight + q.completed + q.failed
    ensures Elems(q.pending) !! q.inflight !! q.completed !! q.failed
    ensures |q.pending| + |q.inflight| + |q.completed| + |q.failed| == Total(q)
    ensures AllDone(q) <==> Total(q) > 0 && q.pending == [] && q.inflight == {}
  {
    FourParts(q.order, q.pending, q.inflight, q.completed, q.failed);
  }

  lemma SweepGrows(cfg: Config, q: Queue, e: Event)
    requires WellFormed(q) && Enabled(cfg, q, e) && !e.Complete? && !e.Renew?
    ensures var q' := Next(cfg, q, e);
            q'.order == q.order && q'.completed == q.completed && q.failed <= q'.failed
  {
  }

  /** Whatever happens, `completed + failed` never goes down; so `all_done` once reported stays reported. */
  lemma DoneCountGrows(cfg: Config, q: Queue, e: Event)
    requires WellFormed(q) && Enabled(cfg, q, e)
    ensures |Next(cfg, q, e).completed| + |Next(cfg, q, e).failed| >= |q.completed| + |q.failed|
    ensures Next(cfg, q, e).order == q.order
    ensures AllDone(q) ==> AllDone(Next(cfg, q, e))
  {
    if e.Complete? || e.Renew? {
      NextPlain(cfg, q, e);
    } else {
      SweepGrows(cfg, q, e);
      SubsetSize(q.failed, Next(cfg, q, e).failed);
    }
  }
}
