/** The queue operations as they run against the store: fields updated in place, the reclaim
    scripts as loops over the inflight members in whatever order the store lists them. Each
    method is proved to be one event of the value model in ChunkQueue. */
module ChunkManager {
  import opened Common
  import opened ChunkQueue

  datatype Progress = Progress(total: nat, pending: nat, inflight: nat, completed: nat, failed: nat, allDone: bool)

  function ProgressOf(q: Queue): Progress {
    Progress(Total(q), |q.pending|, |q.inflight|, |q.completed|, |q.failed|, AllDone(q))
  }

  lemma MeetOneMore<T>(S: set<T>, s: seq<T>, i: nat)
    requires NoDup(s) && i < |s|
    ensures |S * Elems(s[..i + 1])| == |S * Elems(s[..i])| + (if s[i] in S then 1 else 0)
  {
    assert s[..i + 1] == s[..i] + [s[i]];
    assert Elems(s[..i + 1]) == Elems(s[..i]) + {s[i]};
    if s[i] in S {
      assert S * Elems(s[..i + 1]) == S * Elems(s[..i]) + {s[i]};
    } else {
      assert S * Elems(s[..i + 1]) == S * Elems(s[..i]);
    }
  }

  lemma MeetAll<T>(S: set<T>, s: seq<T>, all: set<T>)
    requires Enumerates(s, all) && S <= all
    ensures S * Elems(s[..|s|]) == S
  {
    assert s[..|s|] == s;
    assert Elems(s) == all;
  }

  /** What a completion does to the counts: it moves one chunk, from wherever it was inflight or failed, and leaves
      pending alone; a second one changes nothing. */
  lemma CompletionCounts(q: Queue, c: ChunkId, at: Time)
    ensures var p, p' := ProgressOf(q), ProgressOf(AfterComplete(q, c, at));
            && p'.total == |q.order| && p'.pending == |q.pending|
            && (c in q.completed ==> p' == p)
            && (c !in q.completed ==>
                  && p'.completed == |q.completed| + 1
                  && p'.inflight == |q.inflight| - (if c in q.inflight then 1 else 0)
                  && p'.failed == |q.failed| - (if c in q.failed then 1 else 0))
  {
  }

  /** The facts both reclaim scripts end with: the step is the event `e`, and the counts are right. */
  lemma SweepIsNext(cfg: Config, q: Queue, e: Event, back: seq<ChunkId>)
    requires WellFormed(q) && (e.Reclaim? || e.ForceReclaim?) && Back(e) == back
    requires Enumerates(back, Requeued(cfg, q, Selected(q, e)))
    ensures Enabled(cfg, q, e) && WellFormed(Next(cfg, q, e))
    ensures Next(cfg, q, e) == AfterReclaim(cfg, q, Selected(q, e), back)
    ensures |Next(cfg, q, e).pending| == |q.pending| + |back|
    ensures q.inflight !! q.failed ==> |Next(cfg, q, e).failed| == |q.failed| + |Exhausted(cfg, q, Selected(q, e))|
  {
    FailedGrows(cfg, q, Selected(q, e), back);
    NextWellFormed(cfg, q, e);
  }

  /** What a pull means to its caller. */
  lemma PullMeans(cfg: Config, q: Queue, e: Event)
    requires WellFormed(q) && Enabled(cfg, q, e) && e.Pull?
    ensures var got, q' := Handed(cfg, q, e), Next(cfg, q, e);
            && (q.pending != [] ==> got == Some(q.pending[0]) && q'.pending == q.pending[1..])
            && (got.None? ==> q.pending == [] && q'.pending == [])
            && (got.Some? ==>
                  var c := got.value;
                  && c in q'.inflight && c in q'.chunks && q'.chunks[c].status == Inflight && q'.chunks[c].owner == e.replica
                  && q'.chunks[c].startedAt == e.at && q'.chunks[c].leaseUntil == e.at + cfg.leaseTtl)
  {
    SweptWellFormed(cfg, q, e);
    if q.pending != [] {
      EnumeratesNothing(e.back);
      NothingSelected(cfg, q);
    }
  }

  /** A pull that finds pending empty takes back what has expired: it fails, or waits, or is handed out. */
  lemma PullReclaims(cfg: Config, q: Queue, e: Event, c: ChunkId)
    requires WellFormed(q) && Enabled(cfg, q, e) && e.Pull? && q.pending == []
    requires c in q.inflight && 0.0 < q.chunks[c].leaseUntil < e.reclaimAt
    ensures var q' := Next(cfg, q, e);
            if q.chunks[c].retryCount + 1 >= cfg.maxRetries then c in q'.failed
            else c in q'.pending || Handed(cfg, q, e) == Some(c)
  {
    SweptWellFormed(cfg, q, e);
    var swept := Swept(cfg, q, e);
    assert c in Selected(q, e);
    if q.chunks[c].retryCount + 1 < cfg.maxRetries {
      assert c in e.back && c in swept.pending;
      assert swept.pending == [swept.pending[0]] + swept.pending[1..];
    }
  }

  lemma ExpiredLeave(cfg: Config, q: Queue, now: Time, back: seq<ChunkId>)
    requires WellFormed(q)
    ensures forall c | c in q.inflight ::
              c !in AfterReclaim(cfg, q, ExpiredChunks(q, now), back).inflight <==> 0.0 < q.chunks[c].leaseUntil < now
  {
  }

  lemma OwnedLeave(cfg: Config, q: Queue, replicas: set<ReplicaId>, back: seq<ChunkId>)
    requires WellFormed(q)
    ensures forall c | c in q.inflight ::
              c !in AfterReclaim(cfg, q, OwnedChunks(q, replicas), back).inflight <==> q.chunks[c].owner in replicas
  {
  }

  lemma OwnedByOne(q: Queue, r: ReplicaId)
    requires WellFormed(q)
    ensures OwnedChunks(q, {r}) == set c | c in q.inflight && q.chunks[c].owner == r
  {
  }

  /** Adding one more selected chunk to a reclaim that has handled `done` so far. */
  lemma ReclaimOneMore(cfg: Config, q: Queue, done: set<ChunkId>, back: seq<ChunkId>, c: ChunkId)
    requires WellFormed(q) && done <= q.inflight && c in q.inflight && c !in done
    requires Enumerates(back, Requeued(cfg, q, done))
    ensures var before, k := AfterReclaim(cfg, q, done, back), q.chunks[c];
            && before.chunks[c] == k
            && if k.retryCount + 1 < cfg.maxRetries then
                 && Enumerates(back + [c], Requeued(cfg, q, done + {c}))
                 && Exhausted(cfg, q, done + {c}) == Exhausted(cfg, q, done)
                 && AfterReclaim(cfg, q, done + {c}, back + [c]) ==
                    before.(inflight := before.inflight - {c}, pending := before.pending + [c],
                            chunks := before.chunks[c := Retried(cfg, k)])
               else
                 && Enumerates(back, Requeued(cfg, q, done + {c}))
                 && Exhausted(cfg, q, done + {c}) == Exhausted(cfg, q, done) + {c}
                 && c !in Exhausted(cfg, q, done)
                 && AfterReclaim(cfg, q, done + {c}, back) ==
                    before.(inflight := before.inflight - {c}, failed := before.failed + {c},
                            chunks := before.chunks[c := Retried(cfg, k)])
  {
    var before, k := AfterReclaim(cfg, q, done, back), q.chunks[c];
    if k.retryCount + 1 < cfg.maxRetries {
      NoDupAppend(back, [c]);
      assert q.pending + (back + [c]) == (q.pending + back) + [c];
      assert AfterReclaim(cfg, q, done + {c}, back + [c]).chunks == before.chunks[c := Retried(cfg, k)];
    } else {
      assert Exhausted(cfg, q, done + {c}) == Exhausted(cfg, q, done) + {c};
      assert AfterReclaim(cfg, q, done + {c}, back).chunks == before.chunks[c := Retried(cfg, k)];
    }
  }

  /** Failed grows by the exhausted chunks, less those it held already; where nothing inflight is in failed, and
      `Safe` says so of every reachable queue, that is all of them. */
  lemma FailedGrows(cfg: Config, q: Queue, selected: set<ChunkId>, back: seq<ChunkId>)
    requires WellFormed(q) && selected <= q.inflight
    ensures var gone, q' := Exhausted(cfg, q, selected), AfterReclaim(cfg, q, selected, back);
            && |q'.failed| == |q.failed| + |gone| - |gone * q.failed|
            && (q.inflight !! q.failed ==> |q'.failed| == |q.failed| + |gone|)
  {
    var gone := Exhausted(cfg, q, selected);
    assert AfterReclaim(cfg, q, selected, back).failed == q.failed + gone;
    assert gone * q.failed == q.failed * gone;
    if q.inflight !! q.failed {
      assert gone * q.failed == {};
    }
  }

  class ChunkManager {
    const cfg: Config
    var order: seq<ChunkId>
    var pending: seq<ChunkId>
    var inflight: set<ChunkId>
    var completed: set<ChunkId>
    var failed: set<ChunkId>
    var chunks: map<ChunkId, Chunk>

    ghost function State(): Queue
      reads this
    {
      Queue(order, pending, inflight, completed, failed, chunks)
    }

    ghost predicate Valid()
      reads this
    {
      WellFormed(State())
    }

    /** `create_job_queue`: one hash and one queue entry per chunk, in submission order. */
    constructor (cfg: Config, ids: seq<ChunkId>)
      ensures this.cfg == cfg
      ensures Valid() && State() == Create(ids)
      ensures order == ids && pending == ids && inflight == {} && completed == {} && failed == {}
      ensures forall c :: c in chunks <==> c in ids
      ensures forall c | c in ids :: chunks[c] == Chunk(Pending, 0, 0.0, 0.0, 0.0, 0)
    {
      this.cfg := cfg;
      order, pending, inflight, completed, failed, chunks := [], [], {}, {}, {}, map[];
      new;
      var i := 0;
      while i < |ids|
        invariant 0 <= i <= |ids|
        invariant order == pending == ids[..i]
        invariant inflight == {} && completed == {} && failed == {}
        invariant chunks == map c | c in ids[..i] :: FRESH_CHUNK
      {
        var cid := ids[i];
        assert ids[..i + 1] == ids[..i] + [cid];
        chunks := chunks[cid := FRESH_CHUNK];
        pending := pending + [cid];
        order := order + [cid];
        i := i + 1;
      }
      assert ids[..i] == ids;
    }

    /** The reclaim of `done` is under way, with these counts. */
    ghost predicate Reclaiming(q: Queue, done: set<ChunkId>, back: seq<ChunkId>, reclaimed: nat, exhausted: nat)
      reads this
    {
      && WellFormed(q) && done <= q.inflight
      && Enumerates(back, Requeued(cfg, q, done))
      && State() == AfterReclaim(cfg, q, done, back)
      && reclaimed == |back|
      && exhausted == |Exhausted(cfg, q, done)|
    }

    /** What both scripts do with a chunk they take back. */
    method TakeBack(cid: ChunkId, reclaimed: nat, exhausted: nat,
                    ghost q: Queue, ghost done: set<ChunkId>, ghost back: seq<ChunkId>)
      returns (reclaimed': nat, exhausted': nat, ghost back': seq<ChunkId>)
      requires Reclaiming(q, done, back, reclaimed, exhausted)
      requires cid in q.inflight && cid !in done
      modifies this
      ensures Reclaiming(q, done + {cid}, back', reclaimed', exhausted')
    {
      ReclaimOneMore(cfg, q, done, back, cid);
      reclaimed', exhausted', back' := reclaimed, exhausted, back;
      var retryCount := chunks[cid].retryCount + 1;
      if retryCount >= cfg.maxRetries {
        inflight := inflight - {cid};
        failed := failed + {cid};
        chunks := chunks[cid := chunks[cid].(status := Failed, retryCount := retryCount)];
        exhausted' := exhausted + 1;
      } else {
        inflight := inflight - {cid};
        pending := pending + [cid];
        chunks := chunks[cid := chunks[cid].(status := Pending, retryCount := retryCount, leaseUntil := 0.0)];
        reclaimed' := reclaimed + 1;
        back' := back + [cid];
      }
    }

    /** The expiry script. */
    method ExpiryScript(now: Time) returns (reclaimed: nat, exhausted: nat, ghost back: seq<ChunkId>)
      requires Valid()
      modifies this
      ensures Enumerates(back, Requeued(cfg, old(State()), ExpiredChunks(old(State()), now)))
      ensures State() == AfterReclaim(cfg, old(State()), ExpiredChunks(old(State()), now), back)
      ensures reclaimed == |back| && exhausted == |Exhausted(cfg, old(State()), ExpiredChunks(old(State()), now))|
    {
      ghost var q := State();
      var members := Members(inflight);
      reclaimed, exhausted, back := 0, 0, [];
      ghost var done: set<ChunkId> := {};
      NothingSelected(cfg, q);
      var i := 0;
      while i < |members|
        invariant 0 <= i <= |members|
        invariant done == set c | c in members[..i] && Expired(q.chunks[c], now)
        invariant Reclaiming(q, done, back, reclaimed, exhausted)
      {
        var cid := members[i];
        assert members[..i + 1] == members[..i] + [cid];
        assert cid !in members[..i];
        if Expired(chunks[cid], now) {
          reclaimed, exhausted, back := TakeBack(cid, reclaimed, exhausted, q, done, back);
          done := done + {cid};
        }
        i := i + 1;
      }
      assert members[..i] == members;
      assert done == ExpiredChunks(q, now);
    }

    /** `reclaim_expired_chunks`: whatever order the members come in, exactly the expired chunks leave inflight, and the
        two counts are the two size changes. */
    method ReclaimExpired(now: Time) returns (reclaimed: nat, exhausted: nat, ghost back: seq<ChunkId>)
      requires Valid()
      modifies this
      ensures Valid()
      ensures Enabled(cfg, old(State()), Reclaim(now, back))
      ensures State() == Next(cfg, old(State()), Reclaim(now, back))
      ensures forall c | c in old(inflight) :: c !in inflight <==> 0.0 < old(chunks)[c].leaseUntil < now
      ensures reclaimed == |pending| - |old(pending)| == |back|
      ensures exhausted == |Exhausted(cfg, old(State()), ExpiredChunks(old(State()), now))|
      ensures old(inflight) !! old(failed) ==> exhausted == |failed| - |old(failed)|
    {
      ghost var q := State();
      reclaimed, exhausted, back := ExpiryScript(now);
      SweepIsNext(cfg, q, Reclaim(now, back), back);
      ExpiredLeave(cfg, q, now, back);
    }

    /** The force-reclaim script: the same loop, selecting by owner instead of lease. */
    method ForceScript(replicas: set<ReplicaId>, ghost now: Time)
      returns (reclaimed: nat, exhausted: nat, ghost back: seq<ChunkId>)
      requires Valid()
      modifies this
      ensures Enumerates(back, Requeued(cfg, old(State()), OwnedChunks(old(State()), replicas)))
      ensures State() == AfterReclaim(cfg, old(State()), OwnedChunks(old(State()), replicas), back)
      ensures reclaimed == |back| && exhausted == |Exhausted(cfg, old(State()), OwnedChunks(old(State()), replicas))|
    {
      ghost var q := State();
      NothingSelected(cfg, q);
      reclaimed, exhausted, back := 0, 0, [];
      var members := Members(inflight);
      ghost var done: set<ChunkId> := {};
      var i := 0;
      while i < |members|
        invariant 0 <= i <= |members|
        invariant done == set c | c in members[..i] && q.chunks[c].owner in replicas
        invariant Reclaiming(q, done, back, reclaimed, exhausted)
      {
        var cid := members[i];
        assert members[..i + 1] == members[..i] + [cid];
        assert cid !in members[..i];
        if chunks[cid].owner in replicas {
          reclaimed, exhausted, back := TakeBack(cid, reclaimed, exhausted, q, done, back);
          done := done + {cid};
        }
        i := i + 1;
      }
      assert members[..i] == members;
      assert done == OwnedChunks(q, replicas);
    }

    /** `force_reclaim`: the script, unless the list is empty. */
    method ForceReclaimOwned(replicas: set<ReplicaId>, ghost now: Time)
      returns (reclaimed: nat, exhausted: nat, ghost back: seq<ChunkId>)
      requires Valid()
      modifies this
      ensures Valid()
      ensures Enabled(cfg, old(State()), ForceReclaim(replicas, now, back))
      ensures State() == Next(cfg, old(State()), ForceReclaim(replicas, now, back))
      ensures forall c | c in old(inflight) :: c !in inflight <==> old(chunks)[c].owner in replicas
      ensures reclaimed == |pending| - |old(pending)| == |back|
      ensures exhausted == |Exhausted(cfg, old(State()), OwnedChunks(old(State()), replicas))|
      ensures old(inflight) !! old(failed) ==> exhausted == |failed| - |old(failed)|
    {
      ghost var q := State();
      reclaimed, exhausted, back := 0, 0, [];
      if replicas != {} {
        reclaimed, exhausted, back := ForceScript(replicas, now);
      } else {
        assert OwnedChunks(q, replicas) == {};
        NothingSelected(cfg, q);
      }
      SweepIsNext(cfg, q, ForceReclaim(replicas, now, back), back);
      OwnedLeave(cfg, q, replicas, back);
    }

    /** `pull_chunk`: the head of pending, after a passive reclaim when pending is empty. The clock is
        read twice, for the reclaim and for the lease. */
    method PullChunk(r: ReplicaId, reclaimAt: Time, at: Time)
      returns (got: Option<ChunkId>, ghost back: seq<ChunkId>)
      requires Valid()
      modifies this
      ensures Valid()
      ensures Enabled(cfg, old(State()), Pull(r, reclaimAt, at, back))
      ensures got == Handed(cfg, old(State()), Pull(r, reclaimAt, at, back))
      ensures State() == Next(cfg, old(State()), Pull(r, reclaimAt, at, back))
      ensures old(pending) != [] ==> got == Some(old(pending)[0]) && pending == old(pending)[1..]
      ensures got.None? ==> old(pending) == [] && pending == []
      ensures got.Some? ==>
                var c := got.value;
                c in inflight && c in chunks && chunks[c].status == Status.Inflight && chunks[c].owner == r
                && chunks[c].startedAt == at && chunks[c].leaseUntil == at + cfg.leaseTtl
    {
      ghost var q := State();
      NothingSelected(cfg, q);
      back := [];
      got := None;
      if pending != [] {
        got := Some(pending[0]);
        pending := pending[1..];
      } else {
        if inflight != {} {
          var reclaimed, exhausted;
          reclaimed, exhausted, back := ReclaimExpired(reclaimAt);
          if reclaimed > 0 {
            got := Some(pending[0]);
            pending := pending[1..];
          }
        } else {
          assert ExpiredChunks(q, reclaimAt) == {};
        }
        if got == None {
          PullMeans(cfg, q, Pull(r, reclaimAt, at, back));
          return;
        }
      }
      var cid := got.value;
      inflight := inflight + {cid};
      chunks := chunks[cid := Leased(cfg, chunks[cid], r, at)];
      PullMeans(cfg, q, Pull(r, reclaimAt, at, back));
    }

    method RenewLease(cid: ChunkId, r: ReplicaId, at: Time) returns (renewed: bool)
      requires Valid()
      modifies this
      ensures Valid()
      ensures renewed == CanRenew(old(State()), cid, r)
      ensures Enabled(cfg, old(State()), Renew(cid, r, at))
      ensures State() == Next(cfg, old(State()), Renew(cid, r, at))
      ensures renewed <==> cid in old(chunks) && old(chunks)[cid].status == Status.Inflight && old(chunks)[cid].owner == r
      ensures chunks == if renewed then old(chunks)[cid := old(chunks)[cid].(leaseUntil := at + cfg.leaseTtl)] else old(chunks)
      ensures order == old(order) && pending == old(pending)
      ensures inflight == old(inflight) && completed == old(completed) && failed == old(failed)
    {
      NextPlain(cfg, State(), Renew(cid, r, at));
      if cid !in chunks || chunks[cid].status != Inflight || chunks[cid].owner != r {
        return false;
      }
      chunks := chunks[cid := chunks[cid].(leaseUntil := at + cfg.leaseTtl)];
      return true;
    }

    method CompleteChunk(cid: ChunkId, r: ReplicaId, at: Time) returns (progress: Progress)
      requires Valid()
      modifies this
      ensures Valid()
      ensures Enabled(cfg, old(State()), Complete(cid, r, at))
      ensures State() == Next(cfg, old(State()), Complete(cid, r, at))
      ensures progress == ProgressOf(State())
      ensures pending == old(pending) && completed == old(completed) + {cid}
      ensures cid in old(completed) ==> State() == old(State())
      ensures cid !in old(completed) ==>
                && inflight == old(inflight) - {cid} && failed == old(failed) - {cid}
                && cid in chunks && chunks[cid].status == Status.Completed && chunks[cid].completedAt == at
                && progress.completed == |old(completed)| + 1
                && progress.failed == |old(failed) - {cid}|
                && progress.inflight == |old(inflight) - {cid}|
                && progress.pending == |old(pending)|
    {
      ghost var q := State();
      NextPlain(cfg, q, Complete(cid, r, at));
      NextWellFormed(cfg, q, Complete(cid, r, at));
      if cid !in completed {
        inflight := inflight - {cid};
        failed := failed - {cid};
        completed := completed + {cid};
        var k := if cid in chunks then chunks[cid] else FRESH_CHUNK;
        chunks := chunks[cid := k.(status := Completed, completedAt := at)];
      }
      assert State() == AfterComplete(q, cid, at);
      progress := GetProgress();
    }

    method GetProgress() returns (p: Progress)
      ensures p == ProgressOf(State())
      ensures p.total == |order| && p.pending == |pending| && p.inflight == |inflight|
      ensures p.completed == |completed| && p.failed == |failed|
      ensures p.allDone <==> |completed| + |failed| >= |order| && order != []
    {
      p := Progress(|order|, |pending|, |inflight|, |completed|, |failed|,
                    |completed| + |failed| >= |order| && |order| > 0);
    }

    /** The count script: how many inflight chunks one replica holds. */
    method ReplicaInflightCount(r: ReplicaId) returns (count: nat)
      requires Valid()
      ensures count == |OwnedChunks(State(), {r})|
      ensures count == |set c | c in inflight && chunks[c].owner == r|
    {
      ghost var owned := OwnedChunks(State(), {r});
      OwnedByOne(State(), r);
      var members := Members(inflight);
      count := 0;
      var i := 0;
      while i < |members|
        invariant 0 <= i <= |members|
        invariant count == |owned * Elems(members[..i])|
      {
        var cid := members[i];
        MeetOneMore(owned, members, i);
        if chunks[cid].owner == r {
          count := count + 1;
        }
        i := i + 1;
      }
      MeetAll(owned, members, inflight);
    }
  }
}
