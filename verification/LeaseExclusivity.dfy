/** A lease is exclusive while it lasts. */
module LeaseExclusivity {
  import opened Common
  import opened ChunkQueue
  import opened QueueSafety
  import opened QueueRuns

  /** Replica `r` holds chunk `c` with a lease up to `until` at least. */
  predicate Held(q: Queue, c: ChunkId, r: ReplicaId, until: Time) {
    c in q.inflight && c in q.chunks && q.chunks[c].owner == r && q.chunks[c].leaseUntil >= until
  }

  /** The clock readings of an event fall, in order, between `clock` and `until`. */
  predicate Within(e: Event, clock: Time, until: Time) {
    clock <= (if e.Pull? then e.reclaimAt else e.at) <= e.at <= until
  }

  /** The two ways another party may end a lease early: completing the chunk, or force-reclaiming its owner. */
  predicate Ends(q: Queue, e: Event, c: ChunkId, r: ReplicaId) {
    || (e.Complete? && e.chunk == c && c !in q.completed)
    || (e.ForceReclaim? && r in e.replicas)
  }

  /** An event that grants or extends the lease of `r` on `c`. */
  predicate Grants(cfg: Config, q: Queue, e: Event, c: ChunkId, r: ReplicaId)
    requires WellFormed(q)
  {
    || (e.Pull? && e.replica == r && Handed(cfg, q, e) == Some(c))
    || (e.Renew? && e.replica == r && e.chunk == c && CanRenew(q, c, r))
  }

  lemma GrantHolds(cfg: Config, q: Queue, e: Event, c: ChunkId, r: ReplicaId)
    requires Safe(cfg, q) && WellFormed(q) && Enabled(cfg, q, e)
    requires Grants(cfg, q, e, c, r)
    ensures Held(Next(cfg, q, e), c, r, e.at + cfg.leaseTtl)
  {
    if e.Renew? {
      NextPlain(cfg, q, e);
    } else {
      SweptWellFormed(cfg, q, e);
    }
  }

  lemma HeldNext(cfg: Config, q: Queue, e: Event, c: ChunkId, r: ReplicaId, clock: Time, until: Time)
    requires Safe(cfg, q) && WellFormed(q) && Enabled(cfg, q, e)
    requires Held(q, c, r, until) && until <= clock + cfg.leaseTtl
    requires Within(e, clock, until) && !Ends(q, e, c, r)
    ensures Held(Next(cfg, q, e), c, r, until)
    ensures Handed(cfg, q, e) != Some(c)
  {
    if e.Complete? || e.Renew? {
      NextPlain(cfg, q, e);
    } else {
      var swept := Swept(cfg, q, e);
      SafeReclaim(cfg, q, Selected(q, e), Back(e));
      assert c !in Selected(q, e);
      assert Held(swept, c, r, until);
      if e.Pull? && swept.pending != [] {
        assert swept.pending[0] in swept.pending;
      }
    }
  }

  /** Event `i` happens while the lease granted by event `k` lasts, and does not end it. */
  predicate Quiet(cfg: Config, qs: seq<Queue>, es: seq<Event>, k: nat, i: nat, c: ChunkId, r: ReplicaId)
    requires k < |es| <= |qs| && i < |es|
  {
    Within(es[i], es[k].at, es[k].at + cfg.leaseTtl) && !Ends(qs[i], es[i], c, r)
  }

  predicate Spares(cfg: Config, q: Queue, e: Event, c: ChunkId) {
    WellFormed(q) && Handed(cfg, q, e) != Some(c)
  }

  lemma LeaseStart(cfg: Config, qs: seq<Queue>, es: seq<Event>, k: nat, c: ChunkId, r: ReplicaId)
    requires Trace(cfg, qs, es) && Safe(cfg, qs[0]) && k < |es|
    requires WellFormed(qs[k]) && Grants(cfg, qs[k], es[k], c, r)
    ensures Held(qs[k + 1], c, r, es[k].at + cfg.leaseTtl)
  {
    assert StepAt(cfg, qs, es, k);
    SafeTrace(cfg, qs, es, k);
    GrantHolds(cfg, qs[k], es[k], c, r);
  }

  lemma LeaseStep(cfg: Config, qs: seq<Queue>, es: seq<Event>, k: nat, m: nat, c: ChunkId, r: ReplicaId)
    requires Trace(cfg, qs, es) && Safe(cfg, qs[0]) && k < m < |es|
    requires Held(qs[m], c, r, es[k].at + cfg.leaseTtl) && Quiet(cfg, qs, es, k, m, c, r)
    ensures Held(qs[m + 1], c, r, es[k].at + cfg.leaseTtl) && Spares(cfg, qs[m], es[m], c)
  {
    assert StepAt(cfg, qs, es, m);
    SafeTrace(cfg, qs, es, m);
    HeldNext(cfg, qs[m], es[m], c, r, es[k].at, es[k].at + cfg.leaseTtl);
  }

  /** After `r` pulls or renews `c` at event `k`, at time t: at every later point of the run up to and including
      t + TTL, `c` is inflight and owned by `r` and no pull has returned it, unless it was completed or `r` was
      force-reclaimed. */
  lemma {:induction false} LeaseIsExclusive(cfg: Config, qs: seq<Queue>, es: seq<Event>, k: nat, j: nat,
                                            c: ChunkId, r: ReplicaId)
    requires Trace(cfg, qs, es) && Safe(cfg, qs[0]) && k < j <= |es|
    requires WellFormed(qs[k]) && Grants(cfg, qs[k], es[k], c, r)
    requires forall i | k < i < j :: Quiet(cfg, qs, es, k, i, c, r)
    ensures Held(qs[j], c, r, es[k].at + cfg.leaseTtl)
    ensures forall i | k < i < j :: Spares(cfg, qs[i], es[i], c)
    decreases j
  {
    if j == k + 1 {
      LeaseStart(cfg, qs, es, k, c, r);
    } else {
      LeaseIsExclusive(cfg, qs, es, k, j - 1, c, r);
      LeaseStep(cfg, qs, es, k, j - 1, c, r);
    }
  }

  lemma GrantSets(cfg: Config, q: Queue, e: Event, c: ChunkId, r: ReplicaId)
    requires Safe(cfg, q) && WellFormed(q) && Enabled(cfg, q, e)
    requires Grants(cfg, q, e, c, r)
    ensures c in Next(cfg, q, e).chunks && Next(cfg, q, e).chunks[c].leaseUntil == e.at + cfg.leaseTtl
  {
    if e.Renew? {
      NextPlain(cfg, q, e);
    } else {
      SweptWellFormed(cfg, q, e);
    }
  }

  /** While `r` holds `c`, only a renewal moves its lease. */
  lemma LeaseUnmoved(cfg: Config, q: Queue, e: Event, c: ChunkId, r: ReplicaId, clock: Time, until: Time)
    requires Safe(cfg, q) && WellFormed(q) && Enabled(cfg, q, e)
    requires Held(q, c, r, until) && until <= clock + cfg.leaseTtl
    requires Within(e, clock, until) && !Ends(q, e, c, r) && !Grants(cfg, q, e, c, r)
    ensures c in Next(cfg, q, e).chunks && Next(cfg, q, e).chunks[c].leaseUntil == q.chunks[c].leaseUntil
  {
    HeldNext(cfg, q, e, c, r, clock, until);
    if e.Complete? || e.Renew? {
      NextPlain(cfg, q, e);
    } else {
      var swept := Swept(cfg, q, e);
      SweptWellFormed(cfg, q, e);
      assert c !in Selected(q, e);
      assert swept.chunks[c] == q.chunks[c];
    }
  }

  predicate NoGrant(cfg: Config, q: Queue, e: Event, c: ChunkId, r: ReplicaId) {
    WellFormed(q) && !Grants(cfg, q, e, c, r)
  }

  lemma LeaseUnmovedStep(cfg: Config, qs: seq<Queue>, es: seq<Event>, k: nat, m: nat, c: ChunkId, r: ReplicaId)
    requires Trace(cfg, qs, es) && Safe(cfg, qs[0]) && k < m < |es|
    requires Held(qs[m], c, r, es[k].at + cfg.leaseTtl) && Quiet(cfg, qs, es, k, m, c, r)
    requires NoGrant(cfg, qs[m], es[m], c, r)
    ensures c in qs[m + 1].chunks && qs[m + 1].chunks[c].leaseUntil == qs[m].chunks[c].leaseUntil
  {
    assert StepAt(cfg, qs, es, m);
    SafeTrace(cfg, qs, es, m);
    LeaseUnmoved(cfg, qs[m], es[m], c, r, es[k].at, es[k].at + cfg.leaseTtl);
  }

  lemma {:induction false} LeaseUnmovedRun(cfg: Config, qs: seq<Queue>, es: seq<Event>, k: nat, j: nat, c: ChunkId, r: ReplicaId)
    requires Trace(cfg, qs, es) && Safe(cfg, qs[0]) && k < j <= |es|
    requires WellFormed(qs[k]) && Grants(cfg, qs[k], es[k], c, r)
    requires forall i | k < i < j :: Quiet(cfg, qs, es, k, i, c, r)
    requires forall i | k < i < j :: NoGrant(cfg, qs[i], es[i], c, r)
    ensures c in qs[j].chunks && qs[j].chunks[c].leaseUntil == es[k].at + cfg.leaseTtl
    decreases j
  {
    if j == k + 1 {
      assert StepAt(cfg, qs, es, k);
      SafeTrace(cfg, qs, es, k);
      GrantSets(cfg, qs[k], es[k], c, r);
    } else {
      LeaseUnmovedRun(cfg, qs, es, k, j - 1, c, r);
      LeaseIsExclusive(cfg, qs, es, k, j - 1, c, r);
      LeaseUnmovedStep(cfg, qs, es, k, j - 1, c, r);
    }
  }

  /** The bound of `LeaseIsExclusive` is exact: after a grant at t > -TTL that is not renewed, a reclaim takes the
      chunk if and only if its clock is past t + TTL. */
  lemma LeaseEndsExactly(cfg: Config, qs: seq<Queue>, es: seq<Event>, k: nat, j: nat, c: ChunkId, r: ReplicaId)
    requires Trace(cfg, qs, es) && Safe(cfg, qs[0]) && k < j < |es| && es[j].Reclaim?
    requires WellFormed(qs[k]) && Grants(cfg, qs[k], es[k], c, r) && es[k].at + cfg.leaseTtl > 0.0
    requires forall i | k < i < j :: Quiet(cfg, qs, es, k, i, c, r)
    requires forall i | k < i < j :: NoGrant(cfg, qs[i], es[i], c, r)
    ensures c !in qs[j + 1].inflight <==> es[j].at > es[k].at + cfg.leaseTtl
  {
    LeaseIsExclusive(cfg, qs, es, k, j, c, r);
    LeaseUnmovedRun(cfg, qs, es, k, j, c, r);
    SafeTrace(cfg, qs, es, j);
    assert StepAt(cfg, qs, es, j);
    ReclaimTakesExactlyExpired(cfg, qs[j], es[j].at, es[j].back, c);
  }

  lemma ReclaimTakesExactlyExpired(cfg: Config, q: Queue, now: Time, back: seq<ChunkId>, c: ChunkId)
    requires WellFormed(q) && Enabled(cfg, q, Reclaim(now, back))
    requires c in q.inflight && 0.0 < q.chunks[c].leaseUntil
    ensures c !in Next(cfg, q, Reclaim(now, back)).inflight <==> q.chunks[c].leaseUntil < now
  {
  }
}
