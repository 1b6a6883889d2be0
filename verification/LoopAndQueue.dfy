/** The runner's loop and its renewal threads, against the queue: what the chunk loop lets through is what a context may
    report, so that the flag discipline of `Runner` comes from the code of the loop. */
module LoopAndQueue {
  import opened ChunkQueue
  import opened QueueSafety
  import opened Runner
  import opened RunnerLoop

  /** The answer one action gives the renewal thread of a context, if any. */
  function AnswerTo(s: Sys, a: Action, id: CtxId): seq<Renewal>
    requires id in s.ctxs
  {
    if a.RenewAcked? && a.id == id then
      [if CanRenew(s.q, s.ctxs[id].chunk, s.ctxs[id].replica) then Renewed else RefusedRenewal]
    else if a.RenewLost? && a.id == id then [Unclear]
    else []
  }

  lemma CtxStays(cfg: Config, s: Sys, a: Action, id: CtxId)
    requires WellFormed(s.q) && Ready(cfg, s, a) && id in s.ctxs
    ensures var s' := Act(cfg, s, a);
            && id in s'.ctxs
            && s'.ctxs[id].chunk == s.ctxs[id].chunk && s'.ctxs[id].replica == s.ctxs[id].replica
            && (s'.ctxs[id].stolen <==> s.ctxs[id].stolen || RefusedRenewal in AnswerTo(s, a, id))
  {
  }

  /** What the thread of a context is told along a run. */
  function Answers(cfg: Config, s: Sys, acts: seq<Action>, id: CtxId): seq<Renewal>
    requires WellFormed(s.q) && CanRun(cfg, s, acts) && id in s.ctxs
    decreases |acts|
  {
    if acts == [] then []
    else CtxStays(cfg, s, acts[0], id); AnswerTo(s, acts[0], id) + Answers(cfg, Act(cfg, s, acts[0]), acts[1..], id)
  }

  /** The flag of a context is what its thread makes of these answers. */
  lemma {:induction false} FlagIsThread(cfg: Config, s: Sys, acts: seq<Action>, id: CtxId)
    requires WellFormed(s.q) && CanRun(cfg, s, acts) && id in s.ctxs
    ensures var s' := Outcome(cfg, s, acts);
            && id in s'.ctxs
            && s'.ctxs[id].chunk == s.ctxs[id].chunk && s'.ctxs[id].replica == s.ctxs[id].replica
            && (s'.ctxs[id].stolen <==> s.ctxs[id].stolen || RefusedRenewal in Answers(cfg, s, acts, id))
    ensures StopSet !in Answers(cfg, s, acts, id)
    decreases |acts|
  {
    if acts != [] {
      CtxStays(cfg, s, acts[0], id);
      FlagIsThread(cfg, Act(cfg, s, acts[0]), acts[1..], id);
    }
  }

  /** When the thread of a context last heard from the server, acceptance or refusal; `acked` if not along the run. */
  function LastHeard(cfg: Config, s: Sys, acts: seq<Action>, id: CtxId, acked: Time): Time
    requires WellFormed(s.q) && CanRun(cfg, s, acts)
    decreases |acts|
  {
    if acts == [] then acked
    else
      LastHeard(cfg, Act(cfg, s, acts[0]), acts[1..], id,
                if acts[0].RenewAcked? && acts[0].id == id then acts[0].at else acked)
  }

  lemma AckedStays(cfg: Config, s: Sys, a: Action, id: CtxId)
    requires WellFormed(s.q) && Ready(cfg, s, a) && id in s.ctxs
    ensures var s' := Act(cfg, s, a);
            && id in s'.ctxs
            && (!s'.ctxs[id].stolen ==>
                  !s.ctxs[id].stolen
                  && s'.ctxs[id].acked == if a.RenewAcked? && a.id == id then a.at else s.ctxs[id].acked)
  {
  }

  /** What an unset flag is worth: whatever was last heard from the server was an acceptance. */
  lemma {:induction false} UnsetMeansAccepted(cfg: Config, s: Sys, acts: seq<Action>, id: CtxId)
    requires WellFormed(s.q) && CanRun(cfg, s, acts) && id in s.ctxs
    ensures var s' := Outcome(cfg, s, acts);
            && id in s'.ctxs
            && (!s'.ctxs[id].stolen ==>
                  !s.ctxs[id].stolen && s'.ctxs[id].acked == LastHeard(cfg, s, acts, id, s.ctxs[id].acked))
    decreases |acts|
  {
    if acts != [] {
      AckedStays(cfg, s, acts[0], id);
      UnsetMeansAccepted(cfg, Act(cfg, s, acts[0]), acts[1..], id);
    }
  }

  /** And what a refusal means, so that skipping a stolen chunk loses nothing: the replica was killed, the TTL of the
      last acknowledgement is over, or the chunk is completed. */
  lemma RefusalMeans(cfg: Config, s: Sys, id: CtxId)
    requires Good(cfg, s) && id in s.ctxs && !CanRenew(s.q, s.ctxs[id].chunk, s.ctxs[id].replica)
    ensures s.ctxs[id].killed || s.clock > s.ctxs[id].acked + cfg.leaseTtl || s.ctxs[id].chunk in s.q.completed
  {
    assert Knows(cfg, s.q, s.clock, s.ctxs[id]);
  }

  /** From the moment a context was created with its flag unset: when the loop, having stopped the thread, reports the
      chunk within the TTL of the last answer the thread got, be it yes or no, and the replica was not killed, then the
      report is permitted and finds the chunk inflight and its own or already completed, and the accounts stay exact.
      Without the flag this fails: see `SecondContext.FlagIsNeeded`. */
  lemma LoopReportIsTidy(cfg: Config, s: Sys, acts: seq<Action>, id: CtxId, t: Turn, at: Time)
    requires Good(cfg, s) && WellFormed(s.q) && CanRun(cfg, s, acts) && id in s.ctxs && !s.ctxs[id].stolen
    requires Reports(t) && t.chunk == s.ctxs[id].chunk && t.early + t.late == Answers(cfg, s, acts, id) + [StopSet]
    requires var s' := Outcome(cfg, s, acts);
             && id in s'.ctxs && !s'.ctxs[id].killed
             && s'.clock <= at <= LastHeard(cfg, s, acts, id, s.ctxs[id].acked) + cfg.leaseTtl
    ensures var s', r := Outcome(cfg, s, acts), s.ctxs[id].replica;
            && MayReport(cfg, s'.ctxs[id], at)
            && Tidy(s'.q, Complete(t.chunk, r, at))
            && ((t.chunk in s'.q.inflight && t.chunk in s'.q.chunks && s'.q.chunks[t.chunk].owner == r)
                <==> t.chunk !in s'.q.completed)
  {
    FlagIsThread(cfg, s, acts, id);
    StolenUntilStopped(Answers(cfg, s, acts, id));
    UnsetMeansAccepted(cfg, s, acts, id);
    GoodRun(cfg, s, acts);
    ReportHitsOwnChunk(cfg, Outcome(cfg, s, acts), id, at);
  }
}
