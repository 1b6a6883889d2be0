/** Runners against the queue. A runner that pulls a chunk starts a renewal thread for it and keeps a context:
    whether a renewal has come back refused, and when the server last acknowledged the pull or a renewal. It
    reports the chunk complete only with the flag unset. Responses may be lost, completions are retried, several
    contexts of one replica may name the same chunk, and expiry and kills go on meanwhile. */
module Runner {
  import opened Common
  import opened ChunkQueue
  import opened QueueSafety
  import opened LeaseExclusivity

  type CtxId = nat

  datatype Ctx = Ctx(replica: ReplicaId, chunk: ChunkId, acked: Time, stolen: bool, killed: bool, reported: bool)

  datatype Sys = Sys(q: Queue, clock: Time, ctxs: map<CtxId, Ctx>)

  datatype Action =
    | PullAcked(id: CtxId, replica: ReplicaId, reclaimAt: Time, at: Time, back: seq<ChunkId>)
    | PullLost(replica: ReplicaId, reclaimAt: Time, at: Time, back: seq<ChunkId>)
    | RenewAcked(id: CtxId, at: Time)
    | RenewLost(id: CtxId, at: Time)
    | Report(id: CtxId, at: Time)
    | ReportAgain(id: CtxId, at: Time)
    | Expire(at: Time, back: seq<ChunkId>)
    | Kill(replicas: set<ReplicaId>, at: Time, back: seq<ChunkId>)

  predicate Named(s: Sys, a: Action) {
    match a
    case RenewAcked(id, _) => id in s.ctxs
    case RenewLost(id, _) => id in s.ctxs
    case Report(id, _) => id in s.ctxs
    case ReportAgain(id, _) => id in s.ctxs
    case PullAcked(id, _, _, _, _) => id !in s.ctxs
    case _ => true
  }

  /** The queue event an action amounts to at the server. */
  function EventOf(s: Sys, a: Action): Event
    requires Named(s, a)
  {
    match a
    case PullAcked(_, r, reclaimAt, at, back) => Pull(r, reclaimAt, at, back)
    case PullLost(r, reclaimAt, at, back) => Pull(r, reclaimAt, at, back)
    case RenewAcked(id, at) => Renew(s.ctxs[id].chunk, s.ctxs[id].replica, at)
    case RenewLost(id, at) => Renew(s.ctxs[id].chunk, s.ctxs[id].replica, at)
    case Report(id, at) => Complete(s.ctxs[id].chunk, s.ctxs[id].replica, at)
    case ReportAgain(id, at) => Complete(s.ctxs[id].chunk, s.ctxs[id].replica, at)
    case Expire(at, back) => Reclaim(at, back)
    case Kill(replicas, at, back) => ForceReclaim(replicas, at, back)
  }

  /** What the runner has to respect: flag unset, replica not killed since the pull, and no later than one TTL
      after the last acknowledged pull or renewal. */
  predicate MayReport(cfg: Config, k: Ctx, at: Time) {
    !k.stolen && !k.killed && at <= k.acked + cfg.leaseTtl
  }

  predicate Ready(cfg: Config, s: Sys, a: Action)
    requires WellFormed(s.q)
  {
    && Named(s, a)
    && Enabled(cfg, s.q, EventOf(s, a))
    && Within(EventOf(s, a), s.clock, EventOf(s, a).at)
    && (a.Report? ==> !s.ctxs[a.id].reported && MayReport(cfg, s.ctxs[a.id], a.at))
    && (a.ReportAgain? ==> s.ctxs[a.id].reported)
  }

  function NewCtxs(cfg: Config, s: Sys, a: Action): map<CtxId, Ctx>
    requires WellFormed(s.q) && Ready(cfg, s, a)
  {
    match a
    case PullAcked(id, r, _, at, _) =>
      (match Handed(cfg, s.q, EventOf(s, a))
       case Some(c) => s.ctxs[id := Ctx(r, c, at, false, false, false)]
       case None => s.ctxs)
    case RenewAcked(id, at) =>
      var k := s.ctxs[id];
      s.ctxs[id := if CanRenew(s.q, k.chunk, k.replica) then k.(acked := at) else k.(stolen := true)]
    case Report(id, _) => s.ctxs[id := s.ctxs[id].(reported := true)]
    case Kill(replicas, _, _) =>
      map id | id in s.ctxs ::
        if s.ctxs[id].replica in replicas then s.ctxs[id].(killed := true) else s.ctxs[id]
    case _ => s.ctxs
  }

  function Act(cfg: Config, s: Sys, a: Action): Sys
    requires WellFormed(s.q) && Ready(cfg, s, a)
  {
    Sys(Next(cfg, s.q, EventOf(s, a)), EventOf(s, a).at, NewCtxs(cfg, s, a))
  }

  /** What a context still knows: the chunk is completed, or held by the context's replica for as long as its
      last acknowledgement promised. */
  predicate Knows(cfg: Config, q: Queue, clock: Time, k: Ctx) {
    && k.acked <= clock
    && (k.reported ==> k.chunk in q.completed)
    && (!k.killed && clock <= k.acked + cfg.leaseTtl ==>
          k.chunk in q.completed || Held(q, k.chunk, k.replica, k.acked + cfg.leaseTtl))
  }

  ghost predicate Good(cfg: Config, s: Sys) {
    && Safe(cfg, s.q) && Exact(s.q)
    && forall id | id in s.ctxs :: Knows(cfg, s.q, s.clock, s.ctxs[id])
  }

  lemma StaysCompleted(cfg: Config, q: Queue, e: Event, c: ChunkId)
    requires WellFormed(q) && Enabled(cfg, q, e) && c in q.completed
    ensures c in Next(cfg, q, e).completed
  {
    if e.Complete? || e.Renew? {
      NextPlain(cfg, q, e);
    }
  }

  lemma Completes(cfg: Config, q: Queue, c: ChunkId, r: ReplicaId, at: Time)
    requires WellFormed(q)
    ensures Enabled(cfg, q, Complete(c, r, at)) && c in Next(cfg, q, Complete(c, r, at)).completed
  {
    NextPlain(cfg, q, Complete(c, r, at));
  }

  /** A context keeps its knowledge over any queue event that does not kill its replica. */
  lemma KnowsNext(cfg: Config, q: Queue, clock: Time, k: Ctx, e: Event)
    requires Safe(cfg, q) && WellFormed(q) && Enabled(cfg, q, e)
    requires Knows(cfg, q, clock, k) && Within(e, clock, e.at)
    requires e.ForceReclaim? && k.replica in e.replicas ==> k.killed
    ensures Knows(cfg, Next(cfg, q, e), e.at, k)
  {
    if k.chunk in q.completed {
      StaysCompleted(cfg, q, e, k.chunk);
    } else if !k.killed && e.at <= k.acked + cfg.leaseTtl {
      if e.Complete? && e.chunk == k.chunk {
        Completes(cfg, q, e.chunk, e.replica, e.at);
      } else {
        HeldNext(cfg, q, e, k.chunk, k.replica, clock, k.acked + cfg.leaseTtl);
      }
    }
  }

  /** A report the runner may send finds its chunk inflight and owned by it, or already completed; the first
      if and only if the chunk is not completed yet. */
  lemma ReportHitsOwnChunk(cfg: Config, s: Sys, id: CtxId, at: Time)
    requires Good(cfg, s) && id in s.ctxs && s.clock <= at && MayReport(cfg, s.ctxs[id], at)
    ensures var k := s.ctxs[id];
            && k.chunk !in s.q.pending
            && k.chunk in s.q.order
            && ((k.chunk in s.q.inflight && k.chunk in s.q.chunks && s.q.chunks[k.chunk].owner == k.replica)
                <==> k.chunk !in s.q.completed)
  {
    assert Knows(cfg, s.q, s.clock, s.ctxs[id]);
  }

  lemma EventTidy(cfg: Config, s: Sys, a: Action)
    requires Good(cfg, s) && WellFormed(s.q) && Ready(cfg, s, a)
    ensures Tidy(s.q, EventOf(s, a))
  {
    if a.Report? {
      ReportHitsOwnChunk(cfg, s, a.id, a.at);
    } else if a.ReportAgain? {
      assert Knows(cfg, s.q, s.clock, s.ctxs[a.id]);
    }
  }

  lemma NewCtxKnows(cfg: Config, s: Sys, a: Action, id: CtxId)
    requires Good(cfg, s) && WellFormed(s.q) && Ready(cfg, s, a)
    requires id in NewCtxs(cfg, s, a)
    ensures Knows(cfg, Next(cfg, s.q, EventOf(s, a)), EventOf(s, a).at, NewCtxs(cfg, s, a)[id])
  {
    var e, k := EventOf(s, a), NewCtxs(cfg, s, a)[id];
    if a.PullAcked? && a.id == id {
      GrantHolds(cfg, s.q, e, k.chunk, k.replica);
    } else {
      var k0 := s.ctxs[id];
      assert Knows(cfg, s.q, s.clock, k0);
      KnowsNext(cfg, s.q, s.clock, k0.(killed := k.killed), e);
      if a.RenewAcked? && a.id == id && CanRenew(s.q, k0.chunk, k0.replica) {
        GrantHolds(cfg, s.q, e, k0.chunk, k0.replica);
      } else if a.Report? && a.id == id {
        Completes(cfg, s.q, k0.chunk, k0.replica, a.at);
      }
    }
  }

  lemma GoodAct(cfg: Config, s: Sys, a: Action)
    requires Good(cfg, s) && WellFormed(s.q) && Ready(cfg, s, a)
    ensures Good(cfg, Act(cfg, s, a))
  {
    var e := EventOf(s, a);
    SafeNext(cfg, s.q, e);
    EventTidy(cfg, s, a);
    ExactNext(cfg, s.q, e);
    forall id | id in NewCtxs(cfg, s, a)
      ensures Knows(cfg, Next(cfg, s.q, e), e.at, NewCtxs(cfg, s, a)[id])
    {
      NewCtxKnows(cfg, s, a, id);
    }
  }

  /** The second case is real: when two contexts of one replica name the same chunk and both may report, the first
      report completes it and the second is then still allowed, and finds it completed. */
  lemma SecondContextFindsItCompleted(cfg: Config, s: Sys, first: CtxId, second: CtxId, t: Time, u: Time)
    requires Good(cfg, s) && WellFormed(s.q) && first in s.ctxs && second in s.ctxs && first != second
    requires s.ctxs[first].chunk == s.ctxs[second].chunk && s.clock <= t <= u
    requires !s.ctxs[first].reported && MayReport(cfg, s.ctxs[first], t)
    requires !s.ctxs[second].reported && MayReport(cfg, s.ctxs[second], u)
    ensures Ready(cfg, s, Report(first, t))
    ensures var s' := Act(cfg, s, Report(first, t));
            && WellFormed(s'.q) && Ready(cfg, s', Report(second, u))
            && s'.ctxs[second].chunk in s'.q.completed
  {
    var c, r := s.ctxs[first].chunk, s.ctxs[first].replica;
    NextPlain(cfg, s.q, Complete(c, r, t));
    Completes(cfg, s.q, c, r, t);
    NextWellFormed(cfg, s.q, Complete(c, r, t));
    NextPlain(cfg, Next(cfg, s.q, Complete(c, r, t)), Complete(c, s.ctxs[second].replica, u));
  }

  // ------------------------------------------------------------------------- runs

  predicate CanRun(cfg: Config, s: Sys, acts: seq<Action>)
    requires WellFormed(s.q)
    decreases |acts|
  {
    acts == [] ||
    (&& Ready(cfg, s, acts[0])
     && WellFormed(Act(cfg, s, acts[0]).q)
     && CanRun(cfg, Act(cfg, s, acts[0]), acts[1..]))
  }

  function Outcome(cfg: Config, s: Sys, acts: seq<Action>): Sys
    requires WellFormed(s.q) && CanRun(cfg, s, acts)
    decreases |acts|
  {
    if acts == [] then s else Outcome(cfg, Act(cfg, s, acts[0]), acts[1..])
  }

  lemma {:induction false} GoodRun(cfg: Config, s: Sys, acts: seq<Action>)
    requires Good(cfg, s) && WellFormed(s.q) && CanRun(cfg, s, acts)
    ensures Good(cfg, Outcome(cfg, s, acts))
    decreases |acts|
  {
    if acts != [] {
      GoodAct(cfg, s, acts[0]);
      GoodRun(cfg, Act(cfg, s, acts[0]), acts[1..]);
    }
  }

  /** Runners and queue together: after any run from a fresh job, the four containers partition the job and
      `all_done` means exactly that nothing is pending or inflight. */
  lemma RunnersKeepAccountsExact(cfg: Config, order: seq<ChunkId>, start: Time, acts: seq<Action>)
    requires NoDup(order) && cfg.maxRetries >= 1
    requires WellFormed(Create(order)) && CanRun(cfg, Sys(Create(order), start, map[]), acts)
    ensures var q := Outcome(cfg, Sys(Create(order), start, map[]), acts).q;
            && Elems(q.order) == Elems(q.pending) + q.inflight + q.completed + q.failed
            && |q.pending| + |q.inflight| + |q.completed| + |q.failed| == Total(q)
            && (AllDone(q) <==> Total(q) > 0 && q.pending == [] && q.inflight == {})
  {
    CreateSafe(cfg, order);
    GoodRun(cfg, Sys(Create(order), start, map[]), acts);
    ExactProgress(cfg, Outcome(cfg, Sys(Create(order), start, map[]), acts).q);
  }
}
